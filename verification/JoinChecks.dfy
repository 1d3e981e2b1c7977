/** The checks of `dtact_await`: a call goes on waiting only on a slot that carries its own tag,
    and a call whose generation is over comes back. */
module JoinChecks {
  import opened Wrappers
  import opened FiberStatus
  import opened Join
  import opened JoinTheorems

  // ----- what was read -----

  /** What the current turn of joiner `j`'s loop has read of the slot, as an onlooker sees it: the
      tags and the state words of the two checks. */
  datatype Reads = Reads(tag1: Option<nat>, word1: Option<Status>, tag2: Option<nat>, word2: Option<Status>)

  const NOTHING := Reads(None, None, None, None)

  function Note(r: Reads, s: State, e: Event, j: nat): Reads {
    if e.Begin? && e.j == j then NOTHING
    else if e.Go? && e.j == j && j < |s.joiners| then
      match s.joiners[j].pc
      case Arm => NOTHING
      case ReadGen => r.(tag1 := Some(s.gen % TAGS))
      case ReadState => r.(word1 := Some(s.st))
      case RereadGen => r.(tag2 := Some(s.gen % TAGS))
      case RereadState => r.(word2 := Some(s.st))
      case _ => r
    else r
  }

  function NoteRun(r: Reads, s: State, es: seq<Event>, j: nat): Reads
    requires Valid(s, es)
    decreases |es|
  {
    if es == [] then r else NoteRun(Note(r, s, es[0], j), Step(s, es[0]), es[1..], j)
  }

  predicate Unfinished(word: Option<Status>) { word.Some? && !Over(word.value) }

  /** The joiner has passed as many checks as its place says. */
  predicate Passed(me: Joiner, r: Reads) {
    && (me.pc in {ReadState, Register, RereadGen, RereadState, Suspend, Switched, Parked} ==> r.tag1 == Some(me.tag))
    && (me.pc in {Register, RereadGen, RereadState, Suspend, Switched, Parked} ==> Unfinished(r.word1))
    && (me.pc in {RereadState, Suspend, Switched, Parked} ==> r.tag2 == Some(me.tag))
    && (me.pc in {Suspend, Switched, Parked} ==> Unfinished(r.word2))
  }

  lemma OwnStepPassed(s: State, e: Event, r: Reads)
    requires JoinerEnabled(s, e) && Passed(s.joiners[e.j], r)
    ensures Passed(StepAnyJoiner(s, e).joiners[e.j], Note(r, s, e, e.j))
  {
  }

  /** Other steps may notify a joiner and clear its history, no more. */
  lemma OthersLeaveJoiner(s: State, e: Event, j: nat)
    requires Enabled(s, e) && j < |s.joiners| && !(JoinerEnabled(s, e) && e.j == j)
    ensures var me, me' := s.joiners[j], Step(s, e).joiners[j];
            me'.pc == me.pc && me'.tag == me.tag && me'.g == me.g && me'.returned == me.returned
  {
    if JoinerEnabled(s, e) { JoinerTouches(s, e); }
    hide StepJoiner;
  }

  lemma StepPassed(s: State, e: Event, j: nat, r: Reads)
    requires Enabled(s, e) && j < |s.joiners| && Passed(s.joiners[j], r)
    ensures Passed(Step(s, e).joiners[j], Note(r, s, e, j))
  {
    hide StepJoiner;
    if JoinerEnabled(s, e) && e.j == j {
      OwnStepPassed(s, e, r);
    } else {
      OthersLeaveJoiner(s, e, j);
      hide Step;
    }
  }

  lemma {:induction false} RunPassed(s: State, es: seq<Event>, j: nat, r: Reads)
    requires Valid(s, es) && j < |s.joiners| && Passed(s.joiners[j], r)
    ensures Passed(Run(s, es).joiners[j], NoteRun(r, s, es, j))
    decreases |es|
  {
    hide Passed;
    hide Note;
    if es != [] {
      StepPassed(s, es[0], j, r);
      RunPassed(Step(s, es[0]), es[1..], j, Note(r, s, es[0], j));
    }
  }

  /** In every run: a joiner registers with a slot only if it has read its own tag there and then
      a word that is not over, and it suspends only if, after registering, it has read both once
      more. */
  lemma WaitsOnlyOnOwnTag(joiners: nat, hosts: nat, es: seq<Event>, j: nat)
    requires Valid(Start(joiners, hosts), es) && j < joiners
    ensures var me := Run(Start(joiners, hosts), es).joiners[j];
            var r := NoteRun(NOTHING, Start(joiners, hosts), es, j);
            && (me.pc in {Register, RereadGen} ==> r.tag1 == Some(me.tag) && Unfinished(r.word1))
            && (me.pc in {Suspend, Switched, Parked} ==> r.tag2 == Some(me.tag) && Unfinished(r.word2))
  {
    RunPassed(Start(joiners, hosts), es, j, NOTHING);
  }

  /** A registration ends in exactly three ways: the slot's fiber takes it out, its own joiner
      withdraws it, or another joiner registers over it. */
  lemma RegistrationEndsIff(s: State, e: Event, j: nat)
    requires Enabled(s, e) && s.waiter == Some(j)
    ensures Step(s, e).waiter != Some(j)
            <==> || e == TakeWaiter
                 || (e == Go(j) && s.joiners[j].pc == Withdraw)
                 || (e.Go? && e.j != j && s.joiners[e.j].pc == Register)
  {
  }

  // ----- calls that are over come back -----

  /** Generation `g` is over, its tag has not come round again, and the slot shows it. */
  predicate Past(s: State, g: nat) {
    g < s.gen < g + TAGS || (s.gen == g && Over(s.st))
  }

  predicate PastThroughout(s: State, es: seq<Event>, g: nat)
    requires Valid(s, es)
    decreases |es|
  {
    Past(s, g) && (es == [] || PastThroughout(Step(s, es[0]), es[1..], g))
  }

  /** How many of its own steps joiner `j` has left. */
  function StepsLeft(pc: JoinerPc): int {
    match pc
    case Arm => 6
    case ReadGen => 5
    case ReadState => 4
    case Register => 3
    case RereadGen => 2
    case Withdraw => 1
    case Outside => 0
    case _ => 7
  }

  /** On its way out: past its first check only if the slot has moved on to another generation. */
  predicate Leaving(s: State, me: Joiner) {
    && me.tag == me.g % TAGS
    && (me.pc in {Arm, ReadGen, ReadState} || (me.pc in {Register, RereadGen} && me.g < s.gen) || me.pc == Withdraw)
  }

  /** A tag within reach is another tag. */
  lemma OtherTag(g: nat, gen: nat)
    requires g < gen < g + TAGS
    ensures gen % TAGS != g % TAGS
  {
  }

  lemma GenGrows(s: State, e: Event)
    requires Enabled(s, e)
    ensures s.gen <= Step(s, e).gen
  {
    hide StepJoiner;
    if JoinerEnabled(s, e) && e.Go? { GoKeepsGen(s, e.j); }
  }

  lemma GoKeepsGen(s: State, j: nat)
    requires j < |s.joiners|
    ensures StepJoiner(s, j).gen == s.gen
  {
  }

  lemma OwnStepLeaves(s: State, j: nat)
    requires JoinerEnabled(s, Go(j)) && Leaving(s, s.joiners[j]) && Past(s, s.joiners[j].g)
    ensures var s' := StepJoiner(s, j);
            var me, me' := s.joiners[j], s'.joiners[j];
            && StepsLeft(me'.pc) < StepsLeft(me.pc) && me'.g == me.g
            && (if me'.pc == Outside then me'.returned else Leaving(s', me'))
  {
    var g := s.joiners[j].g;
    if g < s.gen { OtherTag(g, s.gen); }
  }

  lemma LeavingStays(s: State, e: Event, j: nat)
    requires Enabled(s, e) && j < |s.joiners| && Leaving(s, s.joiners[j]) && e != Go(j) && !(e.Begin? && e.j == j)
    ensures var me, me' := s.joiners[j], Step(s, e).joiners[j];
            me'.pc == me.pc && me'.g == me.g && Leaving(Step(s, e), me')
  {
    GenGrows(s, e);
    hide StepJoiner;
    if !(JoinerEnabled(s, e) && e.j == j) { OthersLeaveJoiner(s, e, j); }
  }

  function OwnSteps(es: seq<Event>, j: nat): nat {
    if es == [] then 0 else (if es[0] == Go(j) then 1 else 0) + OwnSteps(es[1..], j)
  }

  predicate NoBegin(es: seq<Event>, j: nat) { forall k :: 0 <= k < |es| ==> !(es[k].Begin? && es[k].j == j) }

  lemma {:induction false} StaysOutside(s: State, es: seq<Event>, j: nat)
    requires Valid(s, es) && j < |s.joiners| && s.joiners[j].pc == Outside && NoBegin(es, j)
    ensures OwnSteps(es, j) == 0
    ensures Run(s, es).joiners[j].pc == Outside && Run(s, es).joiners[j].returned == s.joiners[j].returned
    decreases |es|
  {
    if es != [] {
      var e := es[0];
      assert Step(s, e).joiners[j].pc == Outside && Step(s, e).joiners[j].returned == s.joiners[j].returned by {
        hide StepJoiner;
        if !(JoinerEnabled(s, e) && e.j == j) { OthersLeaveJoiner(s, e, j); }
      }
      hide Step;
      StaysOutside(Step(s, e), es[1..], j);
    }
  }

  /** A joiner at the top of its loop whose generation is over returns by its own steps, whatever
      else happens meanwhile: it always has a next step until it has returned, and it takes at
      most six; it never registers without finding out and never suspends. */
  lemma {:induction false} OverJoinerReturns(s: State, es: seq<Event>, j: nat)
    requires Valid(s, es) && j < |s.joiners| && Leaving(s, s.joiners[j]) && NoBegin(es, j)
    requires PastThroughout(s, es, s.joiners[j].g)
    ensures var me := Run(s, es).joiners[j];
            && OwnSteps(es, j) <= StepsLeft(s.joiners[j].pc) - StepsLeft(me.pc)
            && (if me.pc == Outside then me.returned else Enabled(Run(s, es), Go(j)) && StepsLeft(me.pc) <= 6)
    decreases |es|
  {
    if es != [] {
      var e := es[0];
      var s' := Step(s, e);
      if e == Go(j) { OwnStepLeaves(s, j); } else { LeavingStays(s, e, j); }
      hide Step;
      hide Past;
      if s'.joiners[j].pc == Outside {
        StaysOutside(s', es[1..], j);
      } else {
        OverJoinerReturns(s', es[1..], j);
      }
    }
  }

  // ----- host threads -----

  function HostStepsLeft(pc: HostPc): int {
    match pc
    case First => 3
    case Middle(_) => 2
    case Last(_, _) => 1
    case Away => 0
  }

  function HostSteps(es: seq<Event>, k: nat): nat {
    if es == [] then 0 else (if es[0] == HostGo(k) then 1 else 0) + HostSteps(es[1..], k)
  }

  predicate NoHostBegin(es: seq<Event>, k: nat) {
    forall i :: 0 <= i < |es| ==> !(es[i].HostBegin? && es[i].k == k)
  }

  /** What the host path takes for the end: another tag, or Finished. */
  predicate HostPast(s: State, g: nat) { g < s.gen < g + TAGS || (s.gen == g && s.st == Finished) }

  predicate HostPastThroughout(s: State, es: seq<Event>, g: nat)
    requires Valid(s, es)
    decreases |es|
  {
    HostPast(s, g) && (es == [] || HostPastThroughout(Step(s, es[0]), es[1..], g))
  }

  /** What the host has sampled so far will make it return. */
  predicate HostLeaving(s: State, me: Host) {
    && me.pc != Away && me.tag == me.g % TAGS
    && (me.pc.Last? ==> me.pc.seen == Finished || me.g < s.gen)
  }

  lemma HostStepLeaves(s: State, e: Event, k: nat)
    requires Enabled(s, e) && k < |s.hosts| && HostLeaving(s, s.hosts[k]) && HostPast(s, s.hosts[k].g)
    requires !(e.HostBegin? && e.k == k)
    ensures var s' := Step(s, e);
            var me, me' := s.hosts[k], s'.hosts[k];
            && me'.g == me.g
            && HostStepsLeft(me'.pc) == HostStepsLeft(me.pc) - (if e == HostGo(k) then 1 else 0)
            && (if me'.pc == Away then me'.returned else HostLeaving(s', me'))
  {
    GenGrows(s, e);
    var g := s.hosts[k].g;
    if g < s.gen { OtherTag(g, s.gen); }
    hide StepJoiner;
    if JoinerEnabled(s, e) && e.Go? { GoKeepsHosts(s, e.j); }
  }

  lemma GoKeepsHosts(s: State, j: nat)
    requires j < |s.joiners|
    ensures StepJoiner(s, j).hosts == s.hosts
  {
  }

  lemma {:induction false} StaysAway(s: State, es: seq<Event>, k: nat)
    requires Valid(s, es) && k < |s.hosts| && s.hosts[k].pc == Away && NoHostBegin(es, k)
    ensures HostSteps(es, k) == 0 && Run(s, es).hosts[k] == s.hosts[k]
    decreases |es|
  {
    if es != [] {
      assert Step(s, es[0]).hosts[k] == s.hosts[k] by {
        hide StepJoiner;
        if JoinerEnabled(s, es[0]) && es[0].Go? { GoKeepsHosts(s, es[0].j); }
      }
      hide Step;
      StaysAway(Step(s, es[0]), es[1..], k);
    }
  }

  /** A host thread at the top of its loop whose generation is over returns after exactly three
      steps of its own, whatever else happens meanwhile. */
  lemma {:induction false} OverHostReturns(s: State, es: seq<Event>, k: nat)
    requires Valid(s, es) && k < |s.hosts| && HostLeaving(s, s.hosts[k]) && NoHostBegin(es, k)
    requires HostPastThroughout(s, es, s.hosts[k].g)
    ensures var me := Run(s, es).hosts[k];
            && HostSteps(es, k) == HostStepsLeft(s.hosts[k].pc) - HostStepsLeft(me.pc)
            && (if me.pc == Away then me.returned else Enabled(Run(s, es), HostGo(k)))
    decreases |es|
  {
    if es != [] {
      var s' := Step(s, es[0]);
      HostStepLeaves(s, es[0], k);
      hide Step;
      hide HostPast;
      if s'.hosts[k].pc == Away {
        StaysAway(s', es[1..], k);
      } else {
        OverHostReturns(s', es[1..], k);
      }
    }
  }
}
