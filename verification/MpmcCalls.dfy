/** What the callers of the ring are told: the result of every push and pop against the position
    its call won, over every run. */
module MpmcCalls {
  import opened Arith
  import opened Wrappers
  import opened MpmcRing
  import opened MpmcSafety
  import opened MpmcTheorems

  /** A thread's latest call, as an onlooker sees it: the position it won, if any, and the value
      it was given to push. */
  datatype Call<T> = Call(pos: Option<nat>, v: Option<T>)

  function Watch<T>(c: Call<T>, s: State<T>, e: Event<T>, t: nat): Call<T>
    requires Enabled(s, e)
  {
    if e.t != t then c
    else if e.BeginPush? then Call(None, Some(e.v))
    else if e.BeginPop? || e.BeginDrain? then Call(None, None)
    else if Claims(s, e) || Takes(s, e) then c.(pos := Some(s.threads[t].pos))
    else c
  }

  function WatchRun<T>(c: Call<T>, s: State<T>, es: seq<Event<T>>, t: nat): Call<T>
    requires Valid(s, es)
    decreases |es|
  {
    if es == [] then c else WatchRun(Watch(c, s, es[0], t), Step(s, es[0]), es[1..], t)
  }

  /** Position `p` holds, or held, the value `v` that thread `t` published there. */
  ghost predicate PublishedBy<T>(s: State<T>, p: nat, t: nat, v: T) {
    && p < |s.tickets| && s.tickets[p].producer == t && s.tickets[p].value == v
    && !s.tickets[p].stage.Claimed? && !s.tickets[p].stage.Written?
  }

  predicate TakenBy<T>(s: State<T>, p: nat, t: nat) {
    p < |s.tickets| && Gone(s.tickets[p].stage) && s.tickets[p].consumer == t
  }

  /** The result fits what the call did. */
  ghost predicate PushAnswer<T>(s: State<T>, t: nat, c: Call<T>, rejected: Option<T>) {
    && c.v.Some?
    && (rejected == None <==> c.pos.Some?)
    && (rejected.Some? ==> rejected == c.v)
    && (c.pos.Some? ==> PublishedBy(s, c.pos.value, t, c.v.value))
  }

  ghost predicate PopAnswer<T>(s: State<T>, t: nat, c: Call<T>, result: Option<T>) {
    && (result == None <==> c.pos == None)
    && (c.pos.Some? ==> TakenBy(s, c.pos.value, t) && result == Some(s.tickets[c.pos.value].value))
  }

  ghost predicate CallOk<T>(s: State<T>, t: nat, c: Call<T>)
    requires t < |s.threads|
  {
    match s.threads[t]
    case PushLoad(v) => c == Call(None, Some(v))
    case PushSeq(v, _) => c == Call(None, Some(v))
    case PushCas(v, _) => c == Call(None, Some(v))
    case PushWrite(v, pos) => c == Call(Some(pos), Some(v))
    case PushPublish(v, pos) => c == Call(Some(pos), Some(v))
    case PushCount => PushAnswer(s, t, c, None)
    case PushDone(rejected) => PushAnswer(s, t, c, rejected)
    case PopLoad(who) => who.Plain? ==> c.pos == None
    case PopSeq(who, _) => who.Plain? ==> c.pos == None
    case PopCas(who, _) => who.Plain? ==> c.pos == None
    case PopRead(who, pos) => who.Plain? ==> c.pos == Some(pos)
    case PopRelease(who, pos, _) => who.Plain? ==> c.pos == Some(pos)
    case PopCount(who, got) => who.Plain? ==> PopAnswer(s, t, c, got)
    case PopDone(result) => PopAnswer(s, t, c, result)
    case _ => true
  }

  /** What is recorded of a position once it is published, and once it is taken, stays. */
  ghost predicate Kept<T>(k: Ticket<T>, k': Ticket<T>) {
    && k'.value == k.value && k'.producer == k.producer
    && (!k.stage.Claimed? && !k.stage.Written? ==> !k'.stage.Claimed? && !k'.stage.Written?)
    && (Gone(k.stage) ==> Gone(k'.stage) && k'.consumer == k.consumer)
  }

  lemma PushKeepsTicket<T>(s: State<T>, t: nat, spurious: bool, reload: bool, p: nat)
    requires Shape(s) && t < |s.threads| && PcOk(s, t) && p < |s.tickets|
    ensures var s' := StepPush(s, t, spurious, reload); |s.tickets| <= |s'.tickets| && Kept(s.tickets[p], s'.tickets[p])
  {
  }

  lemma PopKeepsTicket<T>(s: State<T>, t: nat, spurious: bool, reload: bool, p: nat)
    requires Shape(s) && t < |s.threads| && PcOk(s, t) && p < |s.tickets| && (p < s.deq <==> Gone(s.tickets[p].stage))
    ensures var s' := StepPop(s, t, spurious, reload); |s.tickets| <= |s'.tickets| && Kept(s.tickets[p], s'.tickets[p])
  {
  }

  lemma TicketKept<T>(s: State<T>, e: Event<T>, p: nat)
    requires Inv(s) && Enabled(s, e) && p < |s.tickets|
    ensures |s.tickets| <= |Step(s, e).tickets| && Kept(s.tickets[p], Step(s, e).tickets[p])
  {
    assert PcOk(s, e.t) && TicketOk(s, p);
    hide StepPush;
    hide StepPop;
    hide PcOk;
    if e.Advance? {
      PushKeepsTicket(s, e.t, e.spurious, e.reload, p);
      PopKeepsTicket(s, e.t, e.spurious, e.reload, p);
    }
  }

  lemma PositionsKept<T>(s: State<T>, e: Event<T>, p: nat, t: nat, v: T)
    requires Inv(s) && Enabled(s, e)
    ensures PublishedBy(s, p, t, v) ==> PublishedBy(Step(s, e), p, t, v)
    ensures TakenBy(s, p, t) ==> TakenBy(Step(s, e), p, t) && Step(s, e).tickets[p].value == s.tickets[p].value
  {
    hide Inv;
    if p < |s.tickets| { TicketKept(s, e, p); }
    hide Step;
  }

  lemma PushLeaves<T>(s: State<T>, t: nat, spurious: bool, reload: bool, u: nat)
    requires Shape(s) && t < |s.threads| && u < |s.threads| && u != t
    ensures var s' := StepPush(s, t, spurious, reload); u < |s'.threads| && s'.threads[u] == s.threads[u]
  {
    hide Mark;
  }

  lemma PopLeaves<T>(s: State<T>, t: nat, spurious: bool, reload: bool, u: nat)
    requires Shape(s) && t < |s.threads| && u < |s.threads| && u != t
    ensures var s' := StepPop(s, t, spurious, reload); u < |s'.threads| && s'.threads[u] == s.threads[u]
  {
    hide Mark;
    hide Delivered;
  }

  lemma OthersStay<T>(s: State<T>, e: Event<T>, t: nat)
    requires Enabled(s, e) && t < |s.threads| && e.t != t
    ensures Step(s, e).threads[t] == s.threads[t]
  {
    hide StepPush;
    hide StepPop;
    if e.Advance? {
      PushLeaves(s, e.t, e.spurious, e.reload, t);
      PopLeaves(s, e.t, e.spurious, e.reload, t);
    }
  }

  lemma OthersKeepCall<T>(s: State<T>, e: Event<T>, t: nat, c: Call<T>)
    requires Inv(s) && Enabled(s, e) && t < |s.threads| && e.t != t && CallOk(s, t, c)
    ensures CallOk(Step(s, e), t, c)
  {
    hide Inv;
    OthersStay(s, e, t);
    if c.pos.Some? && c.v.Some? { PositionsKept(s, e, c.pos.value, t, c.v.value); }
    if c.pos.Some? && TakenBy(s, c.pos.value, t) {
      PositionsKept(s, e, c.pos.value, t, s.tickets[c.pos.value].value);
    }
    hide Step;
  }

  lemma PushKeepsCall<T>(s: State<T>, e: Event<T>, c: Call<T>)
    requires Inv(s) && Enabled(s, e) && e.Advance? && Pushing(s.threads[e.t]) && CallOk(s, e.t, c)
    ensures CallOk(Step(s, e), e.t, Watch(c, s, e, e.t))
  {
    assert PcOk(s, e.t);
    if c.pos.Some? && c.v.Some? { PositionsKept(s, e, c.pos.value, e.t, c.v.value); }
  }

  lemma PopKeepsCall<T>(s: State<T>, e: Event<T>, c: Call<T>)
    requires Inv(s) && Enabled(s, e) && e.Advance? && !Pushing(s.threads[e.t]) && CallOk(s, e.t, c)
    ensures CallOk(Step(s, e), e.t, Watch(c, s, e, e.t))
  {
    assert PcOk(s, e.t);
    if c.pos.Some? && TakenBy(s, c.pos.value, e.t) {
      PositionsKept(s, e, c.pos.value, e.t, s.tickets[c.pos.value].value);
    }
  }

  lemma StepKeepsCall<T>(s: State<T>, e: Event<T>, t: nat, c: Call<T>)
    requires Inv(s) && Enabled(s, e) && t < |s.threads| && CallOk(s, t, c)
    ensures CallOk(Step(s, e), t, Watch(c, s, e, t))
  {
    hide Inv;
    hide StepPush;
    hide StepPop;
    if e.t != t {
      OthersKeepCall(s, e, t, c);
    } else if e.Advance? {
      if Pushing(s.threads[t]) { PushKeepsCall(s, e, c); } else { PopKeepsCall(s, e, c); }
    }
  }

  lemma {:induction false} RunKeepsCall<T>(s: State<T>, es: seq<Event<T>>, t: nat, c: Call<T>)
    requires Inv(s) && Valid(s, es) && t < |s.threads| && CallOk(s, t, c)
    ensures CallOk(Run(s, es), t, WatchRun(c, s, es, t))
    decreases |es|
  {
    hide Inv;
    hide CallOk;
    hide Watch;
    if es != [] {
      StepKeepsInv(s, es[0]);
      StepKeepsCall(s, es[0], t, c);
      RunKeepsCall(Step(s, es[0]), es[1..], t, Watch(c, s, es[0], t));
    }
  }

  /** In every run, of the queue and of the warehouse: a push returns no value exactly if it won
      a position, and then its own value is published there; otherwise it returns its own value.
      A pop returns None exactly if it won no position, and otherwise the value pushed at the
      position it won, which no other thread has taken. */
  lemma CallsAnswer<T>(cap: nat, counting: bool, n: nat, es: seq<Event<T>>, t: nat)
    requires 2 <= cap && Valid(Fresh<T>(cap, counting, n), es) && t < n
    ensures var s := Run(Fresh<T>(cap, counting, n), es);
            var c := WatchRun(Call(None, None), Fresh<T>(cap, counting, n), es, t);
            && (s.threads[t].PushDone? ==> PushAnswer(s, t, c, s.threads[t].rejected))
            && (s.threads[t].PopDone? ==> PopAnswer(s, t, c, s.threads[t].result))
  {
    FreshInv<T>(cap, counting, n);
    RunKeepsCall(Fresh<T>(cap, counting, n), es, t, Call(None, None));
  }

  /** The only refusals: the step that turns a push away meets a ring whose next cell has not been
      given back, and the step that sends a pop away empty-handed meets a front position that is
      not published.  Losing a race, or an exchange that fails for no reason, is not one. */
  lemma RefusedOnlyForCause<T>(s: State<T>, e: Event<T>)
    requires Inv(s) && Enabled(s, e) && e.Advance?
    ensures Step(s, e).threads[e.t].PushDone? && Step(s, e).threads[e.t].rejected.Some? ==>
              s.cap <= s.enq && !AtStage(s, s.enq - s.cap, Released)
    ensures Step(s, e).threads[e.t] == PopDone(None) ==> !AtStage(s, s.deq, Published)
  {
    assert PcOk(s, e.t);
    if s.threads[e.t].PushSeq? { PushRefusedIff(s, e.t); }
    if s.threads[e.t].PopSeq? && s.threads[e.t].who.Plain? { PopEmptyIff(s, e.t); }
  }

  // ----- draining -----

  /** How many positions had been claimed when thread `t`'s latest drain began. */
  function Snapshot<T>(c: nat, s: State<T>, e: Event<T>, t: nat): nat {
    if e.t == t && e.BeginDrain? then |s.tickets| else c
  }

  function SnapshotRun<T>(c: nat, s: State<T>, es: seq<Event<T>>, t: nat): nat
    requires Valid(s, es)
    decreases |es|
  {
    if es == [] then c else SnapshotRun(Snapshot(c, s, es[0], t), Step(s, es[0]), es[1..], t)
  }

  /** The drain is after exactly the positions of its snapshot. */
  predicate DrainOk<T>(pc: Pc<T>, c: nat) {
    match pc
    case DrainTest(target) => target == c
    case DrainDone(target) => target == c
    case PopLoad(who) => who.Drain? ==> who.target == c
    case PopSeq(who, _) => who.Drain? ==> who.target == c
    case PopCas(who, _) => who.Drain? ==> who.target == c
    case PopRead(who, _) => who.Drain? ==> who.target == c
    case PopRelease(who, _, _) => who.Drain? ==> who.target == c
    case PopCount(who, _) => who.Drain? ==> who.target == c
    case _ => true
  }

  lemma PushNeverDrains<T>(s: State<T>, t: nat, spurious: bool, reload: bool, c: nat)
    requires Shape(s) && t < |s.threads| && Pushing(s.threads[t])
    ensures DrainOk(StepPush(s, t, spurious, reload).threads[t], c)
  {
  }

  lemma PopKeepsDrain<T>(s: State<T>, t: nat, spurious: bool, reload: bool, c: nat)
    requires Shape(s) && t < |s.threads| && DrainOk(s.threads[t], c)
    ensures DrainOk(StepPop(s, t, spurious, reload).threads[t], c)
  {
  }

  lemma StepKeepsDrain<T>(s: State<T>, e: Event<T>, t: nat, c: nat)
    requires Inv(s) && Enabled(s, e) && t < |s.threads| && DrainOk(s.threads[t], c)
    ensures DrainOk(Step(s, e).threads[t], Snapshot(c, s, e, t))
  {
    hide StepPush;
    hide StepPop;
    if e.t != t {
      OthersStay(s, e, t);
    } else if e.Advance? {
      if Pushing(s.threads[t]) {
        PushNeverDrains(s, t, e.spurious, e.reload, c);
      } else {
        PopKeepsDrain(s, t, e.spurious, e.reload, c);
      }
    }
  }

  lemma {:induction false} RunKeepsDrain<T>(s: State<T>, es: seq<Event<T>>, t: nat, c: nat)
    requires Inv(s) && Valid(s, es) && t < |s.threads| && DrainOk(s.threads[t], c)
    ensures DrainOk(Run(s, es).threads[t], SnapshotRun(c, s, es, t))
    decreases |es|
  {
    hide Inv;
    hide DrainOk;
    hide Snapshot;
    if es != [] {
      StepKeepsInv(s, es[0]);
      StepKeepsDrain(s, es[0], t, c);
      RunKeepsDrain(Step(s, es[0]), es[1..], t, Snapshot(c, s, es[0], t));
    }
  }

  predicate Took<T>(s: State<T>, p: nat) { p < |s.tickets| && Gone(s.tickets[p].stage) }

  /** The drain's loop test: it stops exactly when every position below its target is taken. */
  lemma DrainStopsIff<T>(s: State<T>, e: Event<T>)
    requires Inv(s) && Enabled(s, e) && e.Advance? && s.threads[e.t].DrainTest?
    ensures Step(s, e).threads[e.t].DrainDone?
            <==> forall p: nat :: p < s.threads[e.t].target ==> Took(s, p)
  {
    var target := s.threads[e.t].target;
    if target > s.deq {
      assert !Took(s, s.deq) by { if s.deq < |s.tickets| { assert TicketOk(s, s.deq); } }
    } else {
      forall p: nat | p < target ensures Took(s, p) { assert TicketOk(s, p); }
    }
  }

  /** Over every run: a drain that has returned leaves none of the values that were in the queue
      when it began, or had been claimed for it. */
  lemma DrainTakesAllThatWasThere<T>(cap: nat, counting: bool, n: nat, es: seq<Event<T>>, t: nat, p: nat)
    requires 2 <= cap && Valid(Fresh<T>(cap, counting, n), es) && t < n
    requires Run(Fresh<T>(cap, counting, n), es).threads[t].DrainDone?
    requires p < SnapshotRun(0, Fresh<T>(cap, counting, n), es, t)
    ensures var s := Run(Fresh<T>(cap, counting, n), es); p < |s.tickets| && Gone(s.tickets[p].stage)
  {
    FreshInv<T>(cap, counting, n);
    RunKeepsDrain(Fresh<T>(cap, counting, n), es, t, 0);
    DrainComplete<T>(cap, counting, n, es, t, p);
  }

  // ----- a call that meets no other goes through -----

  /** Every event is a step of thread `t`. */
  predicate Alone<T>(es: seq<Event<T>>, t: nat) { forall k :: 0 <= k < |es| ==> es[k].t == t }

  lemma Go<T>(s: State<T>, es: seq<Event<T>>, s1: State<T>, e: Event<T>) returns (r: seq<Event<T>>, s2: State<T>)
    requires Inv(s) && Valid(s, es) && Run(s, es) == s1 && Enabled(s1, e) && Alone(es, e.t)
    ensures Valid(s, r) && Run(s, r) == s2 == Step(s1, e) && Alone(r, e.t) && Inv(s2)
  {
    s2 := Step(s1, e);
    RunKeepsInv(s, es);
    StepKeepsInv(s1, e);
    hide Inv;
    hide Step;
    assert Run(s2, []) == s2;
    assert ([e] + [])[1..] == [];
    RunAppend(s, es, [e] + []);
    r := es + ([e] + []);
  }

  /** The pop that has won position `pos` goes through. */
  lemma FinishPop<T>(s: State<T>, es: seq<Event<T>>, s1: State<T>, t: nat, pos: nat) returns (r: seq<Event<T>>)
    requires Inv(s) && Valid(s, es) && Run(s, es) == s1 && Alone(es, t) && Inv(s1)
    requires t < |s1.threads| && s1.threads[t] == PopRead(Plain, pos) && pos < |s1.tickets|
    ensures Valid(s, r) && Alone(r, t) && t < |Run(s, r).threads|
    ensures Run(s, r).threads[t] == PopDone(Some(s1.tickets[pos].value))
  {
    hide Valid;
    hide Run;
    var go := Advance(t, false, false);
    TicketKept(s1, go, pos);
    var s2, s3;
    r, s2 := Go(s, es, s1, go);
    assert PcOk(s2, t);
    assert s2.threads[t] == PopRelease(Plain, pos, Some(s1.tickets[pos].value));
    hide Inv;
    hide PcOk;
    r, s3 := Go(s, r, s2, go);
    if s3.counting { r, s3 := Go(s, r, s3, go); }
  }

  lemma PopReady<T>(s: State<T>, t: nat)
    requires Inv(s) && t < |s.threads| && s.threads[t] == PopSeq(Plain, s.deq)
    ensures StepPop(s, t, false, false)
            == Goto(s, t, if AtStage(s, s.deq, Published) then PopCas(Plain, s.deq) else PopDone(None))
  {
    SeqAt(s, s.deq);
    if s.deq < s.enq { assert TicketOk(s, s.deq); }
  }

  lemma PopLooks<T>(s: State<T>, t: nat) returns (es: seq<Event<T>>)
    requires Inv(s) && t < |s.threads| && s.threads[t].Idle?
    ensures Valid(s, es) && Alone(es, t)
    ensures Run(s, es) == Goto(s, t, if AtStage(s, s.deq, Published) then PopCas(Plain, s.deq) else PopDone(None))
  {
    var go := Advance(t, false, false);
    var s1, s2, s3;
    es, s1 := Go(s, [], s, BeginPop(t));
    hide Valid;
    hide Run;
    es, s2 := Go(s, es, s1, go);
    assert s2 == Goto(s, t, PopSeq(Plain, s.deq));
    PopReady(s2, t);
    hide Inv;
    hide StepPop;
    es, s3 := Go(s, es, s2, go);
    assert s3.threads == s.threads[t := s3.threads[t]];
  }

  /** Whatever the other threads are stuck in, a pop on its own returns the front value if that is
      published, and None otherwise. */
  lemma PopAlone<T>(s: State<T>, t: nat) returns (es: seq<Event<T>>)
    requires Inv(s) && t < |s.threads| && s.threads[t].Idle?
    ensures Valid(s, es) && Alone(es, t) && t < |Run(s, es).threads|
    ensures Run(s, es).threads[t]
            == PopDone(if AtStage(s, s.deq, Published) then Some(s.tickets[s.deq].value) else None)
  {
    hide Valid;
    hide Run;
    assert Shape(s) && |s.tickets| == s.enq;
    hide Inv;
    es := PopLooks(s, t);
    if AtStage(s, s.deq, Published) {
      var s1;
      es, s1 := Go(s, es, Goto(s, t, PopCas(Plain, s.deq)), Advance(t, false, false));
      es := FinishPop(s, es, s1, t, s.deq);
    }
  }

  lemma PushReady<T>(s: State<T>, t: nat)
    requires Inv(s) && t < |s.threads| && s.threads[t].PushSeq? && s.threads[t].pos == s.enq
    ensures var room := s.enq < s.cap || AtStage(s, s.enq - s.cap, Released);
            StepPush(s, t, false, false)
            == Goto(s, t, if room then PushCas(s.threads[t].v, s.enq) else PushDone(Some(s.threads[t].v)))
  {
    assert PcOk(s, t);
    SeqAt(s, s.enq);
    if s.cap <= s.enq { assert TicketOk(s, s.enq - s.cap); }
  }

  lemma PushLooks<T>(s: State<T>, t: nat, v: T) returns (es: seq<Event<T>>)
    requires Inv(s) && t < |s.threads| && s.threads[t].Idle?
    ensures Valid(s, es) && Alone(es, t)
    ensures var room := s.enq < s.cap || AtStage(s, s.enq - s.cap, Released);
            Run(s, es) == Goto(s, t, if room then PushCas(v, s.enq) else PushDone(Some(v)))
  {
    var go := Advance(t, false, false);
    var s1, s2, s3;
    es, s1 := Go(s, [], s, BeginPush(t, v));
    hide Valid;
    hide Run;
    es, s2 := Go(s, es, s1, go);
    assert s2 == Goto(s, t, PushSeq(v, s.enq));
    PushReady(s2, t);
    hide Inv;
    hide StepPush;
    es, s3 := Go(s, es, s2, go);
    assert s3.threads == s.threads[t := s3.threads[t]];
  }

  /** A push on its own is published if the cell one lap before has been given back, and returns
      its value otherwise. */
  lemma PushAlone<T>(s: State<T>, t: nat, v: T) returns (es: seq<Event<T>>)
    requires Inv(s) && t < |s.threads| && s.threads[t].Idle?
    ensures Valid(s, es) && Alone(es, t) && t < |Run(s, es).threads|
    ensures var room := s.enq < s.cap || AtStage(s, s.enq - s.cap, Released);
            && Run(s, es).threads[t] == PushDone(if room then None else Some(v))
            && (room ==> PublishedBy(Run(s, es), s.enq, t, v))
  {
    hide Valid;
    hide Run;
    assert Shape(s) && |s.tickets| == s.enq;
    hide Inv;
    es := PushLooks(s, t, v);
    if s.enq < s.cap || AtStage(s, s.enq - s.cap, Released) {
      var s1;
      es, s1 := Go(s, es, Goto(s, t, PushCas(v, s.enq)), Advance(t, false, false));
      es := FinishPush(s, es, s1, t, v, s.enq);
    }
  }

  lemma FinishPush<T>(s: State<T>, es: seq<Event<T>>, s1: State<T>, t: nat, v: T, pos: nat) returns (r: seq<Event<T>>)
    requires Inv(s) && Valid(s, es) && Run(s, es) == s1 && Alone(es, t) && Inv(s1)
    requires t < |s1.threads| && s1.threads[t] == PushWrite(v, pos)
    ensures Valid(s, r) && Alone(r, t) && t < |Run(s, r).threads|
    ensures Run(s, r).threads[t] == PushDone(None) && PublishedBy(Run(s, r), pos, t, v)
  {
    hide Valid;
    hide Run;
    var go := Advance(t, false, false);
    assert PcOk(s1, t);
    hide Inv;
    hide PcOk;
    var s2, s3;
    r, s2 := Go(s, es, s1, go);
    r, s3 := Go(s, r, s2, go);
    if s3.counting { r, s3 := Go(s, r, s3, go); }
  }
}
