/** Join safety for every run, and the liveness invariant for runs with one joiner at a time
    and no stray wake, with the runs that show both hypotheses are needed. */
module JoinTheorems {
  import opened Wrappers
  import opened FiberStatus
  import opened Join

  // ----- safety -----

  /** Generation `h` is over: its fiber has stored Finished. */
  predicate EndedNow(s: State, h: nat) { h < s.gen || (h == s.gen && s.life != Vacant && s.life != Live) }

  predicate JoinerSafe(s: State, me: Joiner) {
    && (me.returned ==> me.g in s.ended)
    && (me.pc != Outside ==> !me.returned && me.tag == me.g % TAGS && Issued(s, me.g))
    && (me.pc == Withdraw ==> me.g in s.ended)
  }

  predicate HostSafe(s: State, me: Host) {
    && (me.returned ==> me.g in s.ended)
    && (me.pc != Away ==> !me.returned && me.tag == me.g % TAGS && Issued(s, me.g))
    && (me.pc.Middle? && me.pc.g1 != me.tag ==> me.g in s.ended)
    && (me.pc.Last? && (me.pc.g1 != me.tag || me.pc.seen == Finished) ==> me.g in s.ended)
  }

  /** The state word can be Finished or Initial only between a Finished store and the next
      spawn. */
  predicate StateOk(s: State) {
    match s.life
    case Live => IsLive(s.st)
    case Done => s.st == Finished || s.st == Notified
    case Waking(_) => s.st == Finished || s.st == Notified
    case Woken => s.st == Finished || s.st == Notified
    case _ => true
  }

  ghost predicate SafeInv(s: State) {
    && StateOk(s)
    && (forall h: nat :: h in s.ended <==> EndedNow(s, h))
    && (forall j :: 0 <= j < |s.joiners| ==> JoinerSafe(s, s.joiners[j]))
    && (forall k :: 0 <= k < |s.hosts| ==> HostSafe(s, s.hosts[k]))
  }

  /** A generation tag that differs from a handle's, or a state that says so, means that the
      handle's own generation is over. */
  lemma CheckIsSound(s: State, g: nat)
    requires SafeInv(s) && Issued(s, g) && (s.gen % TAGS != g % TAGS || Over(s.st))
    ensures g in s.ended
  {
  }

  lemma SlotKeepsSafe(s: State, e: Event)
    requires SafeInv(s) && SlotEnabled(s, e)
    ensures SafeInv(StepSlot(s, e))
  {
    var s' := StepSlot(s, e);
    assert s.ended <= s'.ended;
    forall j | 0 <= j < |s.joiners| ensures JoinerSafe(s', s'.joiners[j]) { assert JoinerSafe(s, s.joiners[j]); }
  }

  /** The slot as safety sees it. */
  predicate SameSlot(s: State, s': State) {
    s'.gen == s.gen && s'.st == s.st && s'.life == s.life && s'.ended == s.ended && s'.hosts == s.hosts
  }

  /** A joiner's step is its own affair: it stays safe, and it changes no other joiner. */
  lemma JoinerStaysSafe(s: State, e: Event)
    requires SafeInv(s) && JoinerEnabled(s, e)
    ensures var s' := StepAnyJoiner(s, e);
            && SameSlot(s, s') && |s'.joiners| == |s.joiners| && JoinerSafe(s', s'.joiners[e.j])
            && (forall k :: 0 <= k < |s.joiners| && k != e.j ==> s'.joiners[k] == s.joiners[k])
  {
    var me := s.joiners[e.j];
    assert JoinerSafe(s, me);
    if me.pc != Outside && (s.gen % TAGS != me.tag || Over(s.st)) { CheckIsSound(s, me.g); }
    hide SafeInv;
  }

  lemma JoinerKeepsSafe(s: State, e: Event)
    requires SafeInv(s) && JoinerEnabled(s, e)
    ensures SafeInv(StepAnyJoiner(s, e))
  {
    JoinerStaysSafe(s, e);
    hide StepAnyJoiner;
    var s' := StepAnyJoiner(s, e);
    forall j | 0 <= j < |s'.joiners| ensures JoinerSafe(s', s'.joiners[j]) {
      if j != e.j { assert JoinerSafe(s, s.joiners[j]); }
    }
    forall k | 0 <= k < |s'.hosts| ensures HostSafe(s', s'.hosts[k]) { assert HostSafe(s, s.hosts[k]); }
  }

  lemma HostKeepsSafe(s: State, e: Event)
    requires SafeInv(s) && HostEnabled(s, e)
    ensures SafeInv(Step(s, e))
  {
    assert HostSafe(s, s.hosts[e.k]);
  }

  lemma {:induction false} RunKeepsSafe(s: State, es: seq<Event>)
    requires SafeInv(s) && Valid(s, es)
    ensures SafeInv(Run(s, es))
    decreases |es|
  {
    hide SafeInv;
    if es != [] {
      if SlotEnabled(s, es[0]) { SlotKeepsSafe(s, es[0]); }
      else if JoinerEnabled(s, es[0]) { JoinerKeepsSafe(s, es[0]); }
      else { HostKeepsSafe(s, es[0]); }
      RunKeepsSafe(Step(s, es[0]), es[1..]);
    }
  }

  /** Join safety: `dtact_await` returns, to a fiber or to a host thread, only after the
      generation its handle was issued for has stored Finished -- in every run, whatever is
      recycled meanwhile, with any number of joiners, with generation tags that repeat, and
      even with stray wakes. */
  lemma JoinReturnsOnlyAfterFinish(joiners: nat, hosts: nat, es: seq<Event>)
    requires Valid(Start(joiners, hosts), es)
    ensures var s := Run(Start(joiners, hosts), es);
            && (forall j :: 0 <= j < |s.joiners| && s.joiners[j].returned ==> s.joiners[j].g in s.ended)
            && (forall k :: 0 <= k < |s.hosts| && s.hosts[k].returned ==> s.hosts[k].g in s.ended)
  {
    RunKeepsSafe(Start(joiners, hosts), es);
  }

  // ----- liveness -----

  /** At most one fiber is inside `dtact_await`, and no wake lands on a slot whose fiber is not
      live. */
  predicate Polite(s: State, e: Event) {
    && (e.Begin? ==> forall j :: 0 <= j < |s.joiners| ==> s.joiners[j].pc == Outside)
    && (e.Stray? ==> s.life == Live)
  }

  /** No wake lands on a slot whose fiber is not live, over a run. */
  predicate NoStrays(s: State, es: seq<Event>)
    requires Valid(s, es)
    decreases |es|
  {
    es == [] || ((es[0].Stray? ==> s.life == Live) && NoStrays(Step(s, es[0]), es[1..]))
  }

  predicate PoliteRun(s: State, es: seq<Event>)
    requires Valid(s, es)
    decreases |es|
  {
    es == [] || (Polite(s, es[0]) && PoliteRun(Step(s, es[0]), es[1..]))
  }

  /** Joiner `j` will be woken: it is notified already, or the finisher has taken it out and is
      about to wake it, or it is registered with a fiber that has yet to take its waiter. */
  predicate WillBeWoken(s: State, j: nat)
    requires j < |s.joiners|
  {
    || s.joiners[j].st == Notified
    || s.life == Waking(Some(j))
    || (s.waiter == Some(j) && (s.life == Live || s.life == Done))
  }

  /** Between registering and the second check the slot may meanwhile be recycled. */
  predicate Registered(s: State, j: nat)
    requires j < |s.joiners|
  {
    s.joiners[j].st == Notified || s.life == Waking(Some(j)) || s.waiter == Some(j)
  }

  predicate JoinerLive(s: State, j: nat)
    requires j < |s.joiners|
  {
    match s.joiners[j].pc
    case RereadGen => Registered(s, j)
    case RereadState => Registered(s, j)
    case Suspend => WillBeWoken(s, j)
    case Switched => WillBeWoken(s, j) && s.joiners[j].st in {Suspending, Notified}
    case Parked => WillBeWoken(s, j) && s.joiners[j].st in {Yielded, Notified}
    case _ => true
  }

  /** Without stray wakes the state word says exactly where the slot's fiber is. */
  predicate StateExact(s: State) {
    match s.life
    case Live => IsLive(s.st)
    case Vacant => s.st == Initial
    case Cleared => s.st == Initial
    case _ => s.st == Finished
  }

  ghost predicate LiveInv(s: State) {
    && StateExact(s)
    && (forall j, k :: 0 <= j < k < |s.joiners| ==> s.joiners[j].pc == Outside || s.joiners[k].pc == Outside)
    && (forall j :: 0 <= j < |s.joiners| ==> JoinerLive(s, j))
  }

  lemma SlotKeepsLive(s: State, e: Event)
    requires LiveInv(s) && SlotEnabled(s, e) && Polite(s, e)
    ensures LiveInv(StepSlot(s, e))
  {
    forall j | 0 <= j < |s.joiners| ensures JoinerLive(StepSlot(s, e), j) { assert JoinerLive(s, j); }
  }

  /** What a joiner's step leaves alone. */
  lemma JoinerTouches(s: State, e: Event)
    requires JoinerEnabled(s, e)
    ensures var s' := StepAnyJoiner(s, e);
            && s'.life == s.life && s'.st == s.st && |s'.joiners| == |s.joiners|
            && (forall k :: 0 <= k < |s.joiners| && k != e.j ==> s'.joiners[k] == s.joiners[k])
            && (s'.waiter == s.waiter || s.joiners[e.j].pc != Outside)
            && (s'.joiners[e.j].pc != Outside ==> e.Begin? || s.joiners[e.j].pc != Outside)
  {
  }

  lemma OwnStepLive(s: State, e: Event)
    requires JoinerEnabled(s, e) && StateExact(s) && JoinerLive(s, e.j)
    ensures JoinerLive(StepAnyJoiner(s, e), e.j)
  {
  }

  lemma JoinerKeepsLive(s: State, e: Event)
    requires LiveInv(s) && JoinerEnabled(s, e) && Polite(s, e)
    ensures LiveInv(StepAnyJoiner(s, e))
  {
    JoinerTouches(s, e);
    assert JoinerLive(s, e.j);
    OwnStepLive(s, e);
    hide StepAnyJoiner;
    var s' := StepAnyJoiner(s, e);
    forall j | 0 <= j < |s.joiners| ensures JoinerLive(s', j) {
      assert JoinerLive(s, j);
      if j != e.j && s.joiners[j].pc != Outside { assert s.joiners[e.j].pc == Outside; }
    }
  }

  lemma {:induction false} RunKeepsLive(s: State, es: seq<Event>)
    requires LiveInv(s) && Valid(s, es) && PoliteRun(s, es)
    ensures LiveInv(Run(s, es))
    decreases |es|
  {
    if es != [] {
      var e := es[0];
      if SlotEnabled(s, e) { SlotKeepsLive(s, e); }
      else if JoinerEnabled(s, e) { JoinerKeepsLive(s, e); }
      else {
        forall j | 0 <= j < |s.joiners| ensures JoinerLive(Step(s, e), j) { assert JoinerLive(s, j); }
      }
      RunKeepsLive(Step(s, e), es[1..]);
    }
  }

  /** Join liveness: with one joiner at a time and no stray wakes, a fiber suspended inside
      `dtact_await` is already notified, or in the finisher's hands to be woken, or recorded
      with a live fiber that has not yet taken its waiter out -- also when the target was freed
      and recycled between the two loads of the second check. */
  lemma SuspendedJoinerWillBeWoken(joiners: nat, hosts: nat, es: seq<Event>, j: nat)
    requires Valid(Start(joiners, hosts), es) && PoliteRun(Start(joiners, hosts), es) && j < joiners
    ensures var s := Run(Start(joiners, hosts), es);
            s.joiners[j].pc in {Switched, Parked} ==> WillBeWoken(s, j)
  {
    RunKeepsLive(Start(joiners, hosts), es);
    assert JoinerLive(Run(Start(joiners, hosts), es), j);
  }

  lemma Prepend(s: State, e: Event, es: seq<Event>)
    requires Enabled(s, e) && Valid(Step(s, e), es)
    ensures Valid(s, [e] + es) && Run(s, [e] + es) == Run(Step(s, e), es)
  {
    assert ([e] + es)[1..] == es;
  }

  /** ... and that wake arrives: once the fiber has stored Finished, its own next steps notify
      the joiner. */
  lemma FinisherDelivers(s: State, j: nat) returns (es: seq<Event>)
    requires LiveInv(s) && j < |s.joiners| && s.joiners[j].pc in {Switched, Parked}
    ensures Valid(s, es) && |es| <= 3
    ensures forall e :: e in es ==> e in {Finish, TakeWaiter, WakeWaiter}
    ensures Run(s, es).joiners[j].st == Notified && Run(s, es).joiners[j].pc == s.joiners[j].pc
  {
    assert JoinerLive(s, j);
    es := [];
    if s.joiners[j].st != Notified {
      var s1 := if s.life == Live then Step(s, Finish) else s;
      var s2 := if s1.life == Done then Step(s1, TakeWaiter) else s1;
      assert s2.life == Waking(Some(j)) && s2.joiners == s.joiners;
      Prepend(s2, WakeWaiter, []);
      es := [WakeWaiter] + [];
      if s1.life == Done {
        Prepend(s1, TakeWaiter, es);
        es := [TakeWaiter] + es;
      }
      if s.life == Live {
        Prepend(s, Finish, es);
        es := [Finish] + es;
      }
    }
  }

  // ----- both hypotheses are needed -----

  lemma {:induction false} RunAppend(s: State, es: seq<Event>, fs: seq<Event>)
    requires Valid(s, es) && Valid(Run(s, es), fs)
    ensures Valid(s, es + fs) && Run(s, es + fs) == Run(Run(s, es), fs)
    decreases |es|
  {
    if es == [] {
      assert es + fs == fs;
    } else {
      assert (es + fs)[1..] == es[1..] + fs;
      RunAppend(Step(s, es[0]), es[1..], fs);
    }
  }

  predicate Quiet(es: seq<Event>) { forall k :: 0 <= k < |es| ==> !es[k].Stray? }

  lemma {:induction false} QuietHasNoStrays(s: State, es: seq<Event>)
    requires Valid(s, es) && Quiet(es)
    ensures NoStrays(s, es)
    decreases |es|
  {
    if es != [] { QuietHasNoStrays(Step(s, es[0]), es[1..]); }
  }

  /** The step that a joiner takes, when both checks find the target's tag and a live state. */
  function Onward(s: State, j: nat, me: Joiner): (State, Joiner) {
    match me.pc
    case Arm => (s, me.(st := Running, pc := ReadGen))
    case ReadGen => (s, me.(pc := ReadState))
    case ReadState => (s, me.(pc := Register))
    case Register => (s.(waiter := Some(j)), me.(pc := RereadGen))
    case RereadGen => (s, me.(pc := RereadState))
    case RereadState => (s, me.(pc := Suspend, fooled := Fooled(s, j)))
    case Suspend => (s, me.(st := Suspending, pc := Switched))
    case _ => (s, me)
  }

  lemma GoesOn(s: State, j: nat, me: Joiner)
    requires j < |s.joiners| && s.gen % TAGS == me.tag && IsLive(s.st)
    requires me.pc !in {Outside, Withdraw, Switched, JoinerPc.Parked} && (me.pc == Suspend ==> me.st == Running)
    ensures Enabled(JoinerTo(s, j, me), Go(j))
    ensures Step(JoinerTo(s, j, me), Go(j)) == JoinerTo(Onward(s, j, me).0, j, Onward(s, j, me).1)
  {
    var t := JoinerTo(s, j, me);
    assert Step(t, Go(j)) == StepJoiner(t, j);
    assert t.joiners[j := Onward(s, j, me).1] == s.joiners[j := Onward(s, j, me).1];
  }

  /** A joiner goes from `Begin` past its first check of a live target. */
  lemma PassFirstCheck(s: State, j: nat) returns (es: seq<Event>)
    requires s.life == Live && IsLive(s.st) && j < |s.joiners| && s.joiners[j].pc == Outside
    ensures Valid(s, es) && Run(s, es) == JoinerTo(s, j, Joiner(Register, s.gen % TAGS, Running, s.gen, false, false))
    ensures Quiet(es)
  {
    var me := Joiner(Arm, s.gen % TAGS, s.joiners[j].st, s.gen, false, false);
    assert Step(s, Begin(j, s.gen)) == JoinerTo(s, j, me);
    var me1 := me.(st := Running, pc := ReadGen);
    var me2 := me1.(pc := ReadState);
    GoesOn(s, j, me);
    GoesOn(s, j, me1);
    GoesOn(s, j, me2);
    hide Step;
    hide JoinerTo;
    Prepend(JoinerTo(s, j, me2), Go(j), []);
    Prepend(JoinerTo(s, j, me1), Go(j), [Go(j)] + []);
    Prepend(JoinerTo(s, j, me), Go(j), [Go(j)] + ([Go(j)] + []));
    Prepend(s, Begin(j, s.gen), [Go(j)] + ([Go(j)] + ([Go(j)] + [])));
    es := [Begin(j, s.gen)] + ([Go(j)] + ([Go(j)] + ([Go(j)] + [])));
  }

  /** It registers, passes the second check if the state word looks live, and parks. */
  lemma RegisterAndPark(s: State, j: nat, me: Joiner) returns (es: seq<Event>)
    requires IsLive(s.st) && j < |s.joiners| && me == Joiner(Register, s.gen % TAGS, Running, s.gen, false, false)
    ensures Valid(JoinerTo(s, j, me), es)
    ensures var parked := me.(pc := JoinerPc.Parked, st := Yielded, fooled := Fooled(s, j));
            Run(JoinerTo(s, j, me), es) == JoinerTo(s.(waiter := Some(j)), j, parked)
    ensures Quiet(es)
  {
    var t := s.(waiter := Some(j));
    var me1, me2, me3 := me.(pc := RereadGen), me.(pc := RereadState), me.(pc := Suspend, fooled := Fooled(s, j));
    var me4 := me3.(st := Suspending, pc := Switched);
    GoesOn(s, j, me);
    GoesOn(t, j, me1);
    GoesOn(t, j, me2);
    GoesOn(t, j, me3);
    Parks(t, j, me4);
    hide Step;
    hide JoinerTo;
    Prepend(JoinerTo(t, j, me4), Park(j), []);
    Prepend(JoinerTo(t, j, me3), Go(j), [Park(j)] + []);
    Prepend(JoinerTo(t, j, me2), Go(j), [Go(j)] + ([Park(j)] + []));
    var tail := [Go(j)] + ([Go(j)] + ([Park(j)] + []));
    Prepend(JoinerTo(t, j, me1), Go(j), tail);
    Prepend(JoinerTo(s, j, me), Go(j), [Go(j)] + tail);
    es := [Go(j)] + ([Go(j)] + tail);
  }

  lemma Parks(s: State, j: nat, me: Joiner)
    requires j < |s.joiners| && me.pc == Switched && me.st == Suspending
    ensures Enabled(JoinerTo(s, j, me), Park(j))
    ensures Step(JoinerTo(s, j, me), Park(j)) == JoinerTo(s, j, me.(st := Yielded, pc := JoinerPc.Parked))
  {
    var t, me' := JoinerTo(s, j, me), me.(st := Yielded, pc := JoinerPc.Parked);
    assert t.joiners[j := me'] == s.joiners[j := me'];
  }

  lemma JoinAndPark(s: State, j: nat) returns (es: seq<Event>)
    requires s.life == Live && IsLive(s.st) && j < |s.joiners| && s.joiners[j].pc == Outside
    ensures Valid(s, es)
    ensures var parked := Joiner(JoinerPc.Parked, s.gen % TAGS, Yielded, s.gen, false, false);
            Run(s, es) == JoinerTo(s.(waiter := Some(j)), j, parked)
    ensures Quiet(es)
  {
    var a := PassFirstCheck(s, j);
    var b := RegisterAndPark(s, j, Joiner(Register, s.gen % TAGS, Running, s.gen, false, false));
    RunAppend(s, a, b);
    es := a + b;
  }

  /** Two joiners: the second overwrites the first in the target's one waiter slot.  When the
      target has finished and woken its waiter, the first is still parked, in no waiter slot
      and in nobody's hands, although its target is over. */
  lemma SecondJoinerStrandsFirst(joiners: nat, hosts: nat) returns (es: seq<Event>)
    requires 2 <= joiners
    ensures Valid(Start(joiners, hosts), es) && NoStrays(Start(joiners, hosts), es)
    ensures var s := Run(Start(joiners, hosts), es);
            s.joiners[0].pc == Parked && !WillBeWoken(s, 0) && s.waiter == None && s.joiners[0].g in s.ended
  {
    var s := Start(joiners, hosts);
    var s1 := Step(s, Spawn);
    var a := JoinAndPark(s1, 0);
    var s2 := Run(s1, a);
    var b := JoinAndPark(s2, 1);
    var s3 := Run(s2, b);
    var c := FinishAndWake(s3, 1);
    RunAppend(s2, b, c);
    RunAppend(s1, a, b + c);
    Prepend(s, Spawn, a + (b + c));
    es := [Spawn] + (a + (b + c));
    QuietHasNoStrays(s, es);
  }

  lemma FinishAndWake(s: State, j: nat) returns (es: seq<Event>)
    requires s.life == Live && s.waiter == Some(j) && j < |s.joiners|
    ensures Valid(s, es)
    ensures Run(s, es) == s.(st := Finished, life := Woken, waiter := None, smeared := false,
                             ended := s.ended + {s.gen}, joiners := s.joiners[j := s.joiners[j].(st := Notified)])
    ensures Quiet(es)
  {
    var s1 := Step(s, Finish);
    var s2 := Step(s1, TakeWaiter);
    Prepend(s2, WakeWaiter, []);
    Prepend(s1, TakeWaiter, [WakeWaiter]);
    Prepend(s, Finish, [TakeWaiter] + [WakeWaiter]);
    es := [Finish] + ([TakeWaiter] + [WakeWaiter]);
  }

  /** With this many joining fibers, every suspended one is sure to be woken in every run
      without stray wakes. */
  ghost predicate AlwaysWoken(joiners: nat) {
    forall hosts, es, j: nat ::
      Valid(Start(joiners, hosts), es) && NoStrays(Start(joiners, hosts), es) && j < joiners ==>
        var s := Run(Start(joiners, hosts), es); s.joiners[j].pc in {Switched, Parked} ==> WillBeWoken(s, j)
  }

  lemma {:induction false} AloneIsPolite(s: State, es: seq<Event>)
    requires Valid(s, es) && NoStrays(s, es) && |s.joiners| <= 1
    ensures PoliteRun(s, es)
    decreases |es|
  {
    if es != [] { AloneIsPolite(Step(s, es[0]), es[1..]); }
  }

  /** The one waiter slot of a context serves one joiner, exactly. */
  lemma AlwaysWokenIff(joiners: nat)
    ensures AlwaysWoken(joiners) <==> joiners <= 1
  {
    if joiners <= 1 {
      forall hosts, es, j: nat | Valid(Start(joiners, hosts), es) && NoStrays(Start(joiners, hosts), es) && j < joiners
        ensures var s := Run(Start(joiners, hosts), es); s.joiners[j].pc in {Switched, Parked} ==> WillBeWoken(s, j)
      {
        AloneIsPolite(Start(joiners, hosts), es);
        SuspendedJoinerWillBeWoken(joiners, hosts, es, j);
      }
    } else {
      var es := SecondJoinerStrandsFirst(joiners, 0);
    }
  }

  /** The target ends with nobody registered, up to the store of Initial. */
  lemma FinishAndReset(s: State) returns (es: seq<Event>)
    requires s.life == Live && s.waiter == None
    ensures Valid(s, es)
    ensures Run(s, es) == s.(st := Initial, life := Cleared, ended := s.ended + {s.gen}, smeared := false)
  {
    var t := s.(st := Finished, ended := s.ended + {s.gen}, smeared := false);
    var s1 := Step(s, Finish);
    var s2 := Step(s1, TakeWaiter);
    assert s2 == t.(life := Waking(None));
    var s3 := Step(s2, WakeWaiter);
    var s4 := Step(s3, Look);
    assert s4 == t.(life := Resetting);
    Prepend(s4, Reset, []);
    Prepend(s3, Look, [Reset]);
    Prepend(s2, WakeWaiter, [Look] + [Reset]);
    Prepend(s1, TakeWaiter, [WakeWaiter] + ([Look] + [Reset]));
    Prepend(s, Finish, [TakeWaiter] + ([WakeWaiter] + ([Look] + [Reset])));
    es := [Finish] + ([TakeWaiter] + ([WakeWaiter] + ([Look] + [Reset])));
  }

  /** A stray wake: it lands on the slot after its fiber has ended, the joiner's second check
      takes the slot for live, and the joiner parks on a slot that has no fiber. */
  lemma StrayWakeStrands() returns (es: seq<Event>)
    ensures Valid(Start(1, 0), es)
    ensures var s := Run(Start(1, 0), es);
            s.joiners[0].pc == Parked && !WillBeWoken(s, 0) && s.life == Vacant && s.joiners[0].g in s.ended
  {
    var s0 := Start(1, 0);
    var s := Step(s0, Spawn);
    var a := PassFirstCheck(s, 0);
    var b := StrayAfterReset(Run(s, a));
    RunAppend(s, a, b);
    Prepend(s0, Spawn, a + b);
    es := [Spawn] + (a + b);
  }

  lemma StrayAfterReset(s: State) returns (es: seq<Event>)
    requires s.life == Live && s.waiter == None && |s.joiners| > 0
    requires s.joiners[0] == Joiner(Register, s.gen % TAGS, Running, s.gen, false, false)
    ensures Valid(s, es)
    ensures var t := Run(s, es);
            t.joiners[0].pc == Parked && !WillBeWoken(t, 0) && t.life == Vacant && t.joiners[0].g in t.ended
  {
    var b := FinishAndReset(s);
    var s2 := Run(s, b);
    var s3 := s2.(st := Notified, smeared := true);
    assert Step(s2, Stray) == s3;
    assert s3 == JoinerTo(s3, 0, s3.joiners[0]);
    var c := RegisterAndPark(s3, 0, s3.joiners[0]);
    var s4 := Run(s3, c);
    var s5 := s4.(gen := s4.gen + 1, life := Vacant);
    assert Step(s4, Bump) == s5;
    hide Step;
    Prepend(s4, Bump, []);
    RunAppend(s3, c, [Bump] + []);
    Prepend(s2, Stray, c + ([Bump] + []));
    RunAppend(s, b, [Stray] + (c + ([Bump] + [])));
    es := b + ([Stray] + (c + ([Bump] + [])));
  }
}
