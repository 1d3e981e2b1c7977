/** The ring's guarantees, stated over whole runs. */
module MpmcTheorems {
  import opened Wrappers
  import opened MpmcRing
  import opened MpmcSafety

  // ----- FIFO refinement -----

  /** The abstract queue: values claimed by producers and not yet claimed by consumers. */
  function Queue<T>(s: State<T>): seq<T>
    requires s.deq <= s.enq == |s.tickets|
  {
    seq(s.enq - s.deq, i requires 0 <= i < s.enq - s.deq => s.tickets[s.deq + i].value)
  }

  /** The event wins the producers' (consumers') race. */
  predicate Claims<T>(s: State<T>, e: Event<T>)
    requires Enabled(s, e)
  {
    e.Advance? && !e.spurious && s.threads[e.t].PushCas? && s.threads[e.t].pos == s.enq
  }

  predicate Takes<T>(s: State<T>, e: Event<T>)
    requires Enabled(s, e)
  {
    e.Advance? && !e.spurious && s.threads[e.t].PopCas? && s.threads[e.t].pos == s.deq
  }

  /** Every step is one of: append a value at the back, remove the value at the front, or
      nothing at all, on a queue that never holds more than its capacity. */
  lemma StepRefinesFifo<T>(s: State<T>, e: Event<T>)
    requires Inv(s) && Enabled(s, e)
    ensures var s' := Step(s, e);
            && Inv(s')
            && |Queue(s)| <= s.cap
            && (Claims(s, e) ==> |Queue(s)| < s.cap && Queue(s') == Queue(s) + [s.threads[e.t].v])
            && (Takes(s, e) ==> Queue(s) != [] && Queue(s') == Queue(s)[1..])
            && (!Claims(s, e) && !Takes(s, e) ==> Queue(s') == Queue(s))
  {
    StepKeepsInv(s, e);
    QueueBounded(s);
    QueueBounded(Step(s, e));
    if Takes(s, e) {
      TakeRemovesFront(s, e);
    } else if !Claims(s, e) {
      OthersKeepQueue(s, e);
    }
  }

  lemma TakeRemovesFront<T>(s: State<T>, e: Event<T>)
    requires Inv(s) && Enabled(s, e) && Takes(s, e) && Inv(Step(s, e))
    ensures Queue(s) != [] && Queue(Step(s, e)) == Queue(s)[1..]
  {
    assert PcOk(s, e.t);
  }

  lemma OthersKeepQueue<T>(s: State<T>, e: Event<T>)
    requires Inv(s) && Enabled(s, e) && !Claims(s, e) && !Takes(s, e) && Inv(Step(s, e))
    ensures Queue(Step(s, e)) == Queue(s)
  {
    var s' := Step(s, e);
    assert s'.enq == s.enq && s'.deq == s.deq;
    TicketsKept(s, e);
  }

  lemma QueueBounded<T>(s: State<T>)
    requires Inv(s)
    ensures |Queue(s)| <= s.cap
  {
    assert s.deq < s.enq ==> TicketOk(s, s.deq);
  }

  // ----- every value exactly once -----

  predicate HasBeenRead<T>(s: State<T>, p: nat) {
    AtStage(s, p, Emptied) || AtStage(s, p, Released)
  }

  /** The position and the value a consumer moves out of the ring at this event. */
  function Handed<T>(s: State<T>, e: Event<T>): seq<(nat, Option<T>)>
    requires Enabled(s, e)
  {
    if e.Advance? && s.threads[e.t].PopRead?
    then [(s.threads[e.t].pos, s.cells[s.threads[e.t].pos % s.cap].data)] else []
  }

  function AllHanded<T>(s: State<T>, es: seq<Event<T>>): seq<(nat, Option<T>)>
    requires Valid(s, es)
    decreases |es|
  {
    if es == [] then [] else Handed(s, es[0]) + AllHanded(Step(s, es[0]), es[1..])
  }

  function Times<T>(h: seq<(nat, Option<T>)>, p: nat): nat {
    if h == [] then 0 else (if h[0].0 == p then 1 else 0) + Times(h[1..], p)
  }

  /** Values and claims, once recorded, never change. */
  lemma TicketsKept<T>(s: State<T>, e: Event<T>)
    requires Inv(s) && Enabled(s, e)
    ensures var s' := Step(s, e);
            && |s.tickets| <= |s'.tickets|
            && forall p :: 0 <= p < |s.tickets| ==>
                 s'.tickets[p].value == s.tickets[p].value && s'.tickets[p].producer == s.tickets[p].producer
  {
  }

  lemma HandedOnce<T>(s: State<T>, e: Event<T>, p: nat)
    requires Inv(s) && Enabled(s, e)
    ensures Times(Handed(s, e), p) + (if HasBeenRead(s, p) then 1 else 0)
            == (if HasBeenRead(Step(s, e), p) then 1 else 0)
  {
    assert PcOk(s, e.t);
    if e.Advance? && s.threads[e.t].PopRead? {
      assert Times(Handed(s, e)[1..], p) == 0;
    }
  }

  lemma HandedValue<T>(s: State<T>, e: Event<T>)
    requires Inv(s) && Enabled(s, e)
    ensures forall h :: h in Handed(s, e) ==> h.0 < |s.tickets| && h.1 == Some(s.tickets[h.0].value)
  {
    assert PcOk(s, e.t);
    if e.Advance? && s.threads[e.t].PopRead? {
      var pos := s.threads[e.t].pos;
      SeqAt(s, pos);
      assert TicketOk(s, pos);
    }
  }

  /** Over any run: the value moved out of position `p` is the one pushed at `p`, and `p` is
      read once if its consumer got that far and never otherwise. */
  lemma {:induction false} EveryValueExactlyOnce<T>(s: State<T>, es: seq<Event<T>>)
    requires Inv(s) && Valid(s, es)
    ensures var f := Run(s, es);
            && |s.tickets| <= |f.tickets|
            && (forall p :: 0 <= p < |s.tickets| ==> f.tickets[p].value == s.tickets[p].value)
            && (forall h :: h in AllHanded(s, es) ==> h.0 < |f.tickets| && h.1 == Some(f.tickets[h.0].value))
            && (forall p: nat :: Times(AllHanded(s, es), p) + (if HasBeenRead(s, p) then 1 else 0)
                                 == (if HasBeenRead(f, p) then 1 else 0))
    decreases |es|
  {
    if es != [] {
      var s' := Step(s, es[0]);
      StepKeepsInv(s, es[0]);
      TicketsKept(s, es[0]);
      HandedValue(s, es[0]);
      EveryValueExactlyOnce(s', es[1..]);
      forall p: nat ensures Times(AllHanded(s, es), p) + (if HasBeenRead(s, p) then 1 else 0)
                            == (if HasBeenRead(Run(s, es), p) then 1 else 0) {
        HandedOnce(s, es[0], p);
        TimesAppend(Handed(s, es[0]), AllHanded(s', es[1..]), p);
      }
    }
  }

  lemma {:induction false} TimesAppend<T>(a: seq<(nat, Option<T>)>, b: seq<(nat, Option<T>)>, p: nat)
    ensures Times(a + b, p) == Times(a, p) + Times(b, p)
  {
    if a == [] {
      assert a + b == b;
    } else {
      assert (a + b)[1..] == a[1..] + b;
      TimesAppend(a[1..], b, p);
    }
  }

  /** What a pop hands to its caller is what was pushed at the position it claimed. */
  lemma PopReturnsWhatWasPushed<T>(cap: nat, counting: bool, n: nat, es: seq<Event<T>>, t: nat)
    requires 2 <= cap && Valid(Fresh<T>(cap, counting, n), es)
    requires var s := Run(Fresh<T>(cap, counting, n), es); t < |s.threads| && s.threads[t].PopRelease?
    ensures var s := Run(Fresh<T>(cap, counting, n), es);
            var pc := s.threads[t];
            pc.pos < |s.tickets| && pc.got == Some(s.tickets[pc.pos].value) && s.tickets[pc.pos].consumer == t
  {
    FreshInv<T>(cap, counting, n);
    RunKeepsInv(Fresh<T>(cap, counting, n), es);
    assert PcOk(Run(Fresh<T>(cap, counting, n), es), t);
  }

  // ----- the two refusals -----

  /** A push is refused exactly when its position is the next one and the position one lap
      before has not been given back at that instant. */
  lemma PushRefusedIff<T>(s: State<T>, t: nat)
    requires Inv(s) && t < |s.threads| && s.threads[t].PushSeq?
    ensures var pos := s.threads[t].pos;
            StepPush(s, t, false, false).threads[t].PushDone?
            <==> pos == s.enq && s.cap <= pos && !AtStage(s, pos - s.cap, Released)
  {
    var pos := s.threads[t].pos;
    assert PcOk(s, t);
    SeqAt(s, pos);
    if pos < s.enq { assert TicketOk(s, pos); }
  }

  /** A pop finds nothing exactly when its position is the front one and is unpublished at
      that instant (never claimed, or claimed by a producer that has not finished). */
  lemma PopEmptyIff<T>(s: State<T>, t: nat)
    requires Inv(s) && t < |s.threads| && s.threads[t].PopSeq? && s.threads[t].who.Plain?
    ensures var pos := s.threads[t].pos;
            StepPop(s, t, false, false).threads[t] == PopDone(None)
            <==> pos == s.deq && !AtStage(s, pos, Published)
  {
    var pos := s.threads[t].pos;
    assert PcOk(s, t);
    SeqAt(s, pos);
    if pos < s.enq { assert TicketOk(s, pos); }
  }

  /** An unpublished position below the producers' counter is in the hands of a producer
      that is about to write or publish it: it can be waited out. */
  lemma UnpublishedHasProducer<T>(s: State<T>, p: nat)
    requires Inv(s) && s.deq <= p < s.enq && !AtStage(s, p, Published)
    ensures var t, v := s.tickets[p].producer, s.tickets[p].value;
            t < |s.threads| && (s.threads[t] == PushWrite(v, p) || s.threads[t] == PushPublish(v, p))
  {
    assert TicketOk(s, p);
  }

  // ----- draining -----

  /** When the drain loop returns, every position below its snapshot has a consumer. */
  lemma DrainComplete<T>(cap: nat, counting: bool, n: nat, es: seq<Event<T>>, t: nat, p: nat)
    requires 2 <= cap && Valid(Fresh<T>(cap, counting, n), es)
    requires var s := Run(Fresh<T>(cap, counting, n), es);
             t < |s.threads| && s.threads[t].DrainDone? && p < s.threads[t].target
    ensures var s := Run(Fresh<T>(cap, counting, n), es); p < |s.tickets| && Gone(s.tickets[p].stage)
  {
    var s := Run(Fresh<T>(cap, counting, n), es);
    FreshInv<T>(cap, counting, n);
    RunKeepsInv(Fresh<T>(cap, counting, n), es);
    assert PcOk(s, t) && TicketOk(s, p);
  }

  /** A loop that stops at the first empty pop is different: here it stops although position
      0, below the snapshot, has been claimed and will be published. */
  lemma FirstNoneMissesClaimedPush(x: int) returns (es: seq<Event<int>>)
    ensures Valid(Fresh<int>(2, false, 2), es)
    ensures var s := Run(Fresh<int>(2, false, 2), es);
            |s.threads| == 2 && s.threads[1] == PopDone(None) && s.enq == 1 && AtStage(s, 0, Claimed)
  {
    var s := Fresh<int>(2, false, 2);
    var claim := SoloClaim(s, 0, x);
    var s' := Run(s, claim);
    var pop := SoloEmptyPop(s', 1);
    RunAppend(s, claim, pop);
    es := claim + pop;
  }

  // ----- uncontended calls -----

  lemma {:induction false} RunAppend<T>(s: State<T>, a: seq<Event<T>>, b: seq<Event<T>>)
    requires Valid(s, a) && Valid(Run(s, a), b)
    ensures Valid(s, a + b) && Run(s, a + b) == Run(Run(s, a), b)
    decreases |a|
  {
    if a == [] {
      assert a + b == b;
    } else {
      assert (a + b)[1..] == a[1..] + b;
      RunAppend(Step(s, a[0]), a[1..], b);
    }
  }

  lemma Prepend<T>(s: State<T>, e: Event<T>, es: seq<Event<T>>) returns (r: seq<Event<T>>)
    requires Enabled(s, e) && Valid(Step(s, e), es)
    ensures Valid(s, r) && Run(s, r) == Run(Step(s, e), es)
  {
    r := [e] + es;
    assert r[1..] == es;
  }

  /** A push that meets no other thread claims the next position. */
  lemma SoloClaim<T>(s: State<T>, t: nat, v: T) returns (es: seq<Event<T>>)
    requires Shape(s) && t < |s.threads| && s.threads[t].Idle? && s.cells[s.enq % s.cap].seqno == s.enq
    ensures Valid(s, es)
    ensures var claimed := s.(enq := s.enq + 1, tickets := s.tickets + [Ticket(v, Claimed, t, 0)]);
            Run(s, es) == Goto(claimed, t, PushWrite(v, s.enq))
  {
    var go := Advance(t, false, false);
    var s1 := Step(s, BeginPush(t, v));
    var s2 := Step(s1, go);
    var s3 := Step(s2, go);
    es := [];
    es := Prepend(s3, go, es);
    es := Prepend(s2, go, es);
    es := Prepend(s1, go, es);
    es := Prepend(s, BeginPush(t, v), es);
  }

  /** ... and then publishes it. */
  lemma SoloPublish<T>(s: State<T>, t: nat) returns (es: seq<Event<T>>)
    requires Shape(s) && t < |s.threads| && s.threads[t].PushWrite? && !s.counting
    ensures Valid(s, es)
    ensures var pos := s.threads[t].pos;
            var written := SetCell(s, pos, s.cells[pos % s.cap], Written);
            Run(s, es) == Goto(SetCell(written, pos, Cell(pos + 1, Some(s.threads[t].v)), Published), t, Idle)
  {
    var go := Advance(t, false, false);
    var s1 := Step(s, go);
    var s2 := Step(s1, go);
    es := [];
    es := Prepend(s2, Finish(t), es);
    es := Prepend(s1, go, es);
    es := Prepend(s, go, es);
  }

  lemma SoloEmptyPop<T>(s: State<T>, t: nat) returns (es: seq<Event<T>>)
    requires Shape(s) && t < |s.threads| && s.threads[t].Idle? && s.cells[s.deq % s.cap].seqno <= s.deq
    ensures Valid(s, es) && Run(s, es) == Goto(s, t, PopDone(None))
  {
    var go := Advance(t, false, false);
    var s1 := Step(s, BeginPop(t));
    var s2 := Step(s1, go);
    es := [];
    es := Prepend(s2, go, es);
    es := Prepend(s1, go, es);
    es := Prepend(s, BeginPop(t), es);
  }

  // ----- the capacity the queue needs -----

  /** No producer ever writes over a value that has not been read. */
  ghost predicate NeverOverwrites(requested: nat) {
    forall counting, n, es: seq<Event<int>>, t: nat ::
      Valid(Fresh<int>(requested, counting, n), es) ==>
        var s := Run(Fresh<int>(requested, counting, n), es);
        t < |s.threads| && s.threads[t].PushWrite? ==> Vacant(s, s.threads[t].pos)
  }

  predicate Vacant<T>(s: State<T>, pos: nat) {
    Shape(s) && s.cells[pos % s.cap].data == None
  }

  lemma CapacityTwoNeverOverwrites(requested: nat)
    requires 2 <= requested
    ensures NeverOverwrites(requested)
  {
    forall counting, n, es: seq<Event<int>>, t: nat
      | Valid(Fresh<int>(requested, counting, n), es)
        && var s := Run(Fresh<int>(requested, counting, n), es); t < |s.threads| && s.threads[t].PushWrite?
      ensures var s := Run(Fresh<int>(requested, counting, n), es); Vacant(s, s.threads[t].pos)
    {
      var s := Run(Fresh<int>(requested, counting, n), es);
      FreshInv<int>(requested, counting, n);
      RunKeepsInv(Fresh<int>(requested, counting, n), es);
      assert PcOk(s, t) && TicketOk(s, s.threads[t].pos);
      SeqAt(s, s.threads[t].pos);
    }
  }

  /** With one cell, "published at 0" and "free for position 1" are the same number, so a
      second push claims the cell and overwrites the first value. */
  lemma CapacityOneOverwrites(requested: nat)
    requires requested < 2
    ensures !NeverOverwrites(requested)
  {
    var s := Fresh<int>(requested, false, 1);
    var first := SoloClaim(s, 0, 7);
    var s1 := Run(s, first);
    var publish := SoloPublish(s1, 0);
    var s2 := Run(s1, publish);
    assert s2.cells[0] == Cell(1, Some(7));
    var second := SoloClaim(s2, 0, 8);
    RunAppend(s1, publish, second);
    RunAppend(s, first, publish + second);
    assert Run(s, first + (publish + second)).threads[0] == PushWrite(8, 1);
  }

  /** The queue loses no value exactly when it was asked for at least two cells. */
  lemma NeverOverwritesIff(requested: nat)
    ensures NeverOverwrites(requested) <==> 2 <= requested
  {
    if 2 <= requested { CapacityTwoNeverOverwrites(requested); } else { CapacityOneOverwrites(requested); }
  }
}
