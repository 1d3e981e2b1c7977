/** When the warehouse refuses a chunk, which the scheduler turns into its overflow panic: not
    only when it holds all the chunks it can. */
module MpmcFull {
  import opened Arith
  import opened Wrappers
  import opened Limits
  import opened MpmcRing
  import opened MpmcSafety
  import opened MpmcTheorems

  /** A consumer has claimed the position and has yet to give its cell back. */
  predicate HeldBack<T>(s: State<T>, p: nat) {
    && p < |s.tickets| && s.tickets[p].consumer < |s.threads|
    && var pc := s.threads[s.tickets[p].consumer];
    && (pc.PopRead? || pc.PopRelease?) && pc.pos == p
  }

  /** A push that looks at the next position is refused if and only if the queue holds as many
      values as the ring has cells, or the consumer of the position one lap before is still
      at work on that cell. */
  lemma RefusedIffFullOrHeldBack<T>(s: State<T>, t: nat)
    requires Inv(s) && t < |s.threads| && s.threads[t].PushSeq? && s.threads[t].pos == s.enq
    ensures StepPush(s, t, false, false).threads[t].PushDone?
            <==> |Queue(s)| == s.cap || (s.cap <= s.enq && HeldBack(s, s.enq - s.cap))
  {
    PushRefusedIff(s, t);
    QueueBounded(s);
    if s.cap <= s.enq {
      var p := s.enq - s.cap;
      assert TicketOk(s, p);
      if HeldBack(s, p) { assert PcOk(s, s.tickets[p].consumer); }
    }
  }

  // ----- a run -----

  /** Two idle threads, and the first `k` cells filled by as many pushes. */
  predicate Packed<T>(s: State<T>, k: nat) {
    && Shape(s) && s.counting && |s.threads| == 2 && s.threads[0].Idle? && s.threads[1].Idle?
    && k <= s.cap && s.enq == k && s.deq == 0
    && (forall i :: 0 <= i < s.cap ==> s.cells[i].seqno == if i < k then i + 1 else i)
  }

  lemma PublishCounted<T>(s: State<T>, t: nat) returns (es: seq<Event<T>>)
    requires Shape(s) && t < |s.threads| && s.threads[t].PushWrite? && s.counting
    ensures Valid(s, es)
    ensures var f, pos := Run(s, es), s.threads[t].pos;
            && f.threads == s.threads[t := Idle] && f.enq == s.enq && f.deq == s.deq && f.counting
            && f.cells == s.cells[pos % s.cap := Cell(pos + 1, Some(s.threads[t].v))]
  {
    var go, pos := Advance(t, false, false), s.threads[t].pos;
    var s1 := Step(s, go);
    var s2 := Step(s1, go);
    assert s2.threads[t] == PushCount && s2.enq == s.enq && s2.deq == s.deq;
    var s3 := Step(s2, go);
    var f := Step(s3, Finish(t));
    assert f.cells == s.cells[pos % s.cap := Cell(pos + 1, Some(s.threads[t].v))];
    assert f.threads == s.threads[t := Idle];
    hide Step;
    es := [];
    es := Prepend(s3, Finish(t), es);
    es := Prepend(s2, go, es);
    es := Prepend(s1, go, es);
    es := Prepend(s, go, es);
  }

  lemma PackOne<T>(s: State<T>, k: nat, v: T) returns (es: seq<Event<T>>)
    requires Packed(s, k) && k < s.cap
    ensures Valid(s, es) && Packed(Run(s, es), k + 1)
  {
    ModSmall(k, s.cap);
    var claim := SoloClaim(s, 0, v);
    var s1 := Run(s, claim);
    var publish := PublishCounted(s1, 0);
    RunAppend(s, claim, publish);
    es := claim + publish;
  }

  lemma {:induction false} Pack<T>(s: State<T>, k: nat, v: T) returns (es: seq<Event<T>>)
    requires Packed(s, k)
    ensures Valid(s, es) && Packed(Run(s, es), s.cap)
    decreases s.cap - k
  {
    es := [];
    if k < s.cap {
      var one := PackOne(s, k, v);
      var s1 := Run(s, one);
      var rest := Pack(s1, k + 1, v);
      RunAppend(s, one, rest);
      es := one + rest;
    }
  }

  /** The second thread claims the front value and pauses. */
  lemma ClaimFront<T>(s: State<T>) returns (es: seq<Event<T>>)
    requires Packed(s, s.cap)
    ensures Valid(s, es)
    ensures var f := Run(s, es);
            && f.threads == s.threads[1 := PopRead(Plain, 0)] && f.cells == s.cells && f.enq == s.enq && f.deq == 1
  {
    ModSmall(0, s.cap);
    var go := Advance(1, false, false);
    var s1 := Step(s, BeginPop(1));
    var s2 := Step(s1, go);
    var s3 := Step(s2, go);
    var f := Step(s3, go);
    assert f.threads == s.threads[1 := PopRead(Plain, 0)];
    hide Step;
    es := [];
    es := Prepend(s3, go, es);
    es := Prepend(s2, go, es);
    es := Prepend(s1, go, es);
    es := Prepend(s, BeginPop(1), es);
  }

  lemma PushIsRefused<T>(s: State<T>, v: T) returns (es: seq<Event<T>>)
    requires Shape(s) && |s.threads| == 2 && s.threads[0].Idle? && s.enq == s.cap && s.cells[0].seqno < s.cap
    ensures Valid(s, es) && Run(s, es) == Goto(s, 0, PushDone(Some(v)))
  {
    ModNext(0, s.cap);
    var go := Advance(0, false, false);
    var s1 := Step(s, BeginPush(0, v));
    var s2 := Step(s1, go);
    assert s2 == Goto(s, 0, PushSeq(v, s.cap));
    var s3 := Step(s2, go);
    assert s3 == Goto(s, 0, PushDone(Some(v)));
    hide Step;
    es := [];
    es := Prepend(s2, go, es);
    es := Prepend(s1, go, es);
    es := Prepend(s, BeginPush(0, v), es);
  }

  /** The warehouse refuses a chunk, so that the scheduler panics over an overflow, although one
      of its 32768 places is already claimed by a consumer. */
  lemma WarehouseRefusesEarly(v: int) returns (es: seq<Event<int>>)
    ensures Valid(Fresh<int>(WAREHOUSE_CAPACITY, true, 2), es)
    ensures var s := Run(Fresh<int>(WAREHOUSE_CAPACITY, true, 2), es);
            s.threads[0] == PushDone(Some(v)) && s.enq - s.deq == WAREHOUSE_CAPACITY - 1
  {
    var s := Fresh<int>(WAREHOUSE_CAPACITY, true, 2);
    var a := Pack(s, 0, v);
    var s1 := Run(s, a);
    var b := ClaimFront(s1);
    var s2 := Run(s1, b);
    var c := PushIsRefused(s2, v);
    RunAppend(s1, b, c);
    RunAppend(s, a, b + c);
    es := a + (b + c);
  }
}
