/** Every queue of the machine is first in, first out, over runs: a fiber in a worker's queue waits
    for exactly those before it, and so does a chunk in a mailbox or in the warehouse. */
module LifecycleFifo {
  import opened Arith
  import opened Limits
  import opened Mesh
  import R = Routing
  import opened Lifecycle

  /** The queue is as it was, perhaps with more behind. */
  predicate Extends<T(==)>(q: seq<T>, q': seq<T>) { |q| <= |q'| && q'[..|q|] == q }

  /** Worker `w`'s queue, its mailbox from `c` and the warehouse only gain. */
  predicate AllExtend(m: Mesh, m': Mesh, c: Caller, w: nat)
    requires m.Shape() && m'.Shape() && w < m.Workers() == m'.Workers() && CallerOk(m, c)
  {
    Extends(m.locals[w], m'.locals[w]) && Extends(Inbox(m, c, w), Inbox(m', c, w)) && Extends(m.ware, m'.ware)
  }

  lemma PostExtends(m: Mesh, d: Caller, t: nat, chunk: Chunk, c: Caller, w: nat)
    requires m.Shape() && CallerOk(m, d) && t < m.Workers() && CallerOk(m, c) && w < m.Workers()
    ensures AllExtend(m, Post(m, d, t, chunk).0, c, w)
  {
    OtherInbox(m, d, t, Inbox(m, d, t) + [chunk], c, w);
  }

  lemma LocalExtends(m: Mesh, u: nat, more: seq<Task>, c: Caller, w: nat)
    requires m.Shape() && u < m.Workers() && CallerOk(m, c) && w < m.Workers()
    ensures AllExtend(m, SetLocal(m, u, m.locals[u] + more), c, w)
  {
    assert Inbox(SetLocal(m, u, m.locals[u] + more), c, w) == Inbox(m, c, w);
  }

  lemma ParkExtends(m: Mesh, chunk: Chunk, c: Caller, w: nat)
    requires m.Shape() && CallerOk(m, c) && w < m.Workers()
    ensures AllExtend(m, Park(m, chunk).0, c, w)
  {
    assert Inbox(Park(m, chunk).0, c, w) == Inbox(m, c, w);
  }

  lemma SameExtends(m: Mesh, c: Caller, w: nat)
    requires m.Shape() && CallerOk(m, c) && w < m.Workers()
    ensures AllExtend(m, m, c, w)
  {
  }

  lemma EnqueueExtends(s: State, a: nat, caller: Caller, busy: bool, target: nat, c: Caller, w: nat)
    requires Shape(s) && AgentEnabled(s, Enqueue(a, caller, busy, target))
    requires CallerOk(s.mesh, c) && w < s.mesh.Workers()
    ensures AllExtend(s.mesh, DoEnqueue(s, a, caller, busy, target).mesh, c, w)
  {
    hide AllExtend;
    hide SetInbox;
    var m := s.mesh;
    var i := s.agents[a].i;
    var t := s.agents[a].core % m.Workers();
    PostExtends(m, caller, t, Single(i), c, w);
    LocalExtends(m, t, [i], c, w);
    LocalExtends(m, target, [i], c, w);
    SameExtends(m, c, w);
  }

  lemma HopExtends(s: State, a: nat, c: Caller, w: nat)
    requires Shape(s) && AgentEnabled(s, Hop(a)) && CallerOk(s.mesh, c) && w < s.mesh.Workers()
    ensures AllExtend(s.mesh, DoHop(s, a).mesh, c, w)
  {
    hide AllExtend;
    hide SetInbox;
    PostExtends(s.mesh, s.agents[a].caller, s.agents[a].target, s.agents[a].chunk, c, w);
    SameExtends(s.mesh, c, w);
  }

  lemma AgentsExtend(s: State, e: Event, c: Caller, w: nat)
    requires Shape(s) && AgentEnabled(s, e) && CallerOk(s.mesh, c) && w < s.mesh.Workers()
    ensures AllExtend(s.mesh, StepAgent(s, e).mesh, c, w)
  {
    hide AllExtend;
    hide DoEnqueue;
    hide DoHop;
    if e.Enqueue? {
      EnqueueExtends(s, e.a, e.caller, e.busy, e.target, c, w);
    } else if e.Hop? {
      HopExtends(s, e.a, c, w);
    } else if e.Divert? {
      ParkExtends(s.mesh, s.agents[e.a].chunk, c, w);
    } else {
      SameExtends(s.mesh, c, w);
    }
  }

  /** Movers take chunks from the front of the mailbox they poll and of the warehouse. */
  lemma MoversTakeFront(s: State, e: Event, c: Caller, w: nat)
    requires Shape(s) && MoverEnabled(s, e) && CallerOk(s.mesh, c) && w < s.mesh.Workers()
    ensures var m, m' := s.mesh, StepMover(s, e).mesh;
            && Extends(m.locals[w], m'.locals[w])
            && (if e == Poll(w, c) then
                  var q := Inbox(m, c, w);
                  q != [] && Inbox(m', c, w) == q[1..] && StepMover(s, e).workers[w] == Routing(q[0])
                else Extends(Inbox(m, c, w), Inbox(m', c, w)))
            && (if e.Drain? then
                  m.ware != [] && m'.ware == m.ware[1..] && StepMover(s, e).workers[e.w] == Stowing(m.ware[0])
                else Extends(m.ware, m'.ware))
  {
    var m := s.mesh;
    match e
    case Poll(u, from) => OtherInbox(m, from, u, Inbox(m, from, u)[1..], c, w);
    case Drain(u) => assert Inbox(StepMover(s, e).mesh, c, w) == Inbox(m, c, w);
    case Route(u) => RouteExtends(s, u, c, w);
    case Stow(u) => LocalExtends(m, u, s.workers[u].chunk.tasks, c, w);
    case ParkChunk(u) => ParkExtends(m, s.workers[u].chunk, c, w);
  }

  lemma RouteExtends(s: State, u: nat, c: Caller, w: nat)
    requires Shape(s) && MoverEnabled(s, Route(u)) && CallerOk(s.mesh, c) && w < s.mesh.Workers()
    ensures AllExtend(s.mesh, DoRoute(s, u).mesh, c, w)
  {
    var m, chunk := s.mesh, s.workers[u].chunk;
    var k := chunk.(hops := Min(chunk.hops + 1, HOPS_EXHAUSTED));
    LocalExtends(m, u, chunk.tasks, c, w);
    PostExtends(m, Worker(u), R.HopTarget(m.Workers(), Worker(u), k.hops), k, c, w);
    SameExtends(m, c, w);
    hide AllExtend;
  }

  /** Dispatchers take fibers from the front of their own queue. */
  lemma RunnersTakeFront(s: State, e: Event, c: Caller, w: nat)
    requires Shape(s) && RunnerEnabled(s, e) && CallerOk(s.mesh, c) && w < s.mesh.Workers()
    ensures var m, m' := s.mesh, StepRunner(s, e).mesh;
            && (if e == Dispatch(w) then
                  && m.locals[w] != [] && m'.locals[w] == m.locals[w][1..]
                  && StepRunner(s, e).workers[w] == Run(m.locals[w][0])
                else Extends(m.locals[w], m'.locals[w]))
            && Inbox(m', c, w) == Inbox(m, c, w) && m'.ware == m.ware
  {
    if e.Settle? {
      var i := s.workers[e.w].i;
      assert Inbox(PushLocal(s.mesh, e.w, i).0, c, w) == Inbox(s.mesh, c, w);
    } else if e.Dispatch? {
      assert Inbox(StepRunner(s, e).mesh, c, w) == Inbox(s.mesh, c, w);
    }
  }

  // ----- over runs -----

  function Count(es: seq<Event>, e: Event): nat {
    if es == [] then 0 else (if es[0] == e then 1 else 0) + Count(es[1..], e)
  }

  lemma StepQueue(s: State, e: Event, w: nat)
    requires Enabled(s, e) && w < s.mesh.Workers()
    ensures var q, q' := s.mesh.locals[w], Step(s, e).mesh.locals[w];
            if e == Dispatch(w) then q != [] && q' == q[1..] && Step(s, e).workers[w] == Run(q[0]) else Extends(q, q')
  {
    hide StepAgent;
    hide StepMover;
    hide StepRunner;
    if AgentEnabled(s, e) {
      AgentsExtend(s, e, Host, w);
    } else if MoverEnabled(s, e) {
      MoversTakeFront(s, e, Host, w);
    } else {
      RunnersTakeFront(s, e, Host, w);
    }
  }

  lemma QueueMovesUp(s: State, e: Event, w: nat, k: nat)
    requires Enabled(s, e) && w < s.mesh.Workers() && k < |s.mesh.locals[w]| && (e == Dispatch(w) ==> 0 < k)
    ensures var q', k' := Step(s, e).mesh.locals[w], if e == Dispatch(w) then k - 1 else k;
            k' < |q'| && q'[k'] == s.mesh.locals[w][k]
  {
    StepQueue(s, e, w);
    hide Step;
  }

  /** A fiber in place `k` of worker `w`'s queue is still in the queue, that much nearer, after any
      run with at most `k` dispatches by `w`: the next dispatch but `k` runs it. */
  lemma {:induction false} QueueIsFifo(s: State, es: seq<Event>, w: nat, k: nat)
    requires Shape(s) && Valid(s, es) && w < s.mesh.Workers() && k < |s.mesh.locals[w]| && Count(es, Dispatch(w)) <= k
    ensures SameSize(s, Execute(s, es))
    ensures var q := Execute(s, es).mesh.locals[w];
            k - Count(es, Dispatch(w)) < |q| && q[k - Count(es, Dispatch(w))] == s.mesh.locals[w][k]
    decreases |es|
  {
    hide Step;
    hide Enabled;
    if es != [] {
      QueueMovesUp(s, es[0], w, k);
      QueueIsFifo(Step(s, es[0]), es[1..], w, if es[0] == Dispatch(w) then k - 1 else k);
    }
  }

  /** ... and that dispatch does run it. */
  lemma DispatchedInTurn(s: State, es: seq<Event>, w: nat, k: nat)
    requires Shape(s) && Valid(s, es) && w < s.mesh.Workers() && k < |s.mesh.locals[w]| && Count(es, Dispatch(w)) == k
    requires Enabled(Execute(s, es), Dispatch(w))
    ensures Step(Execute(s, es), Dispatch(w)).workers[w] == Run(s.mesh.locals[w][k])
  {
    QueueIsFifo(s, es, w, k);
    StepQueue(Execute(s, es), Dispatch(w), w);
  }

  lemma StepMailbox(s: State, e: Event, c: Caller, w: nat)
    requires Enabled(s, e) && w < s.mesh.Workers() && CallerOk(s.mesh, c)
    ensures var q, q' := Inbox(s.mesh, c, w), Inbox(Step(s, e).mesh, c, w);
            if e == Poll(w, c) then q != [] && q' == q[1..] && Step(s, e).workers[w] == Routing(q[0])
            else Extends(q, q')
  {
    hide StepAgent;
    hide StepMover;
    hide StepRunner;
    if AgentEnabled(s, e) {
      AgentsExtend(s, e, c, w);
    } else if MoverEnabled(s, e) {
      MoversTakeFront(s, e, c, w);
    } else {
      RunnersTakeFront(s, e, c, w);
    }
  }

  lemma MailboxMovesUp(s: State, e: Event, c: Caller, w: nat, k: nat)
    requires Enabled(s, e) && w < s.mesh.Workers() && CallerOk(s.mesh, c)
    requires k < |Inbox(s.mesh, c, w)| && (e == Poll(w, c) ==> 0 < k)
    ensures var q', k' := Inbox(Step(s, e).mesh, c, w), if e == Poll(w, c) then k - 1 else k;
            k' < |q'| && q'[k'] == Inbox(s.mesh, c, w)[k]
  {
    StepMailbox(s, e, c, w);
    hide Step;
    hide Inbox;
  }

  /** The same for a chunk in place `k` of a mailbox, and the polls of its owner. */
  lemma {:induction false} MailboxIsFifo(s: State, es: seq<Event>, c: Caller, w: nat, k: nat)
    requires Shape(s) && Valid(s, es) && w < s.mesh.Workers() && CallerOk(s.mesh, c)
    requires k < |Inbox(s.mesh, c, w)| && Count(es, Poll(w, c)) <= k
    ensures SameSize(s, Execute(s, es)) && CallerOk(Execute(s, es).mesh, c)
    ensures var q := Inbox(Execute(s, es).mesh, c, w);
            k - Count(es, Poll(w, c)) < |q| && q[k - Count(es, Poll(w, c))] == Inbox(s.mesh, c, w)[k]
    decreases |es|
  {
    hide Step;
    hide Inbox;
    hide Enabled;
    if es != [] {
      MailboxMovesUp(s, es[0], c, w, k);
      MailboxIsFifo(Step(s, es[0]), es[1..], c, w, if es[0] == Poll(w, c) then k - 1 else k);
    }
  }

  /** ... and for the warehouse and the drains of all workers. */
  function Drains(es: seq<Event>): nat {
    if es == [] then 0 else (if es[0].Drain? then 1 else 0) + Drains(es[1..])
  }

  lemma StepWarehouse(s: State, e: Event)
    requires Enabled(s, e)
    ensures var q, q' := s.mesh.ware, Step(s, e).mesh.ware;
            if e.Drain? then q != [] && q' == q[1..] && Step(s, e).workers[e.w] == Stowing(q[0]) else Extends(q, q')
  {
    hide StepAgent;
    hide StepMover;
    hide StepRunner;
    if AgentEnabled(s, e) {
      AgentsExtend(s, e, Host, 0);
    } else if MoverEnabled(s, e) {
      MoversTakeFront(s, e, Host, 0);
    } else {
      RunnersTakeFront(s, e, Host, 0);
    }
  }

  lemma WarehouseMovesUp(s: State, e: Event, k: nat)
    requires Enabled(s, e) && k < |s.mesh.ware| && (e.Drain? ==> 0 < k)
    ensures var q', k' := Step(s, e).mesh.ware, if e.Drain? then k - 1 else k; k' < |q'| && q'[k'] == s.mesh.ware[k]
  {
    StepWarehouse(s, e);
    hide Step;
  }

  lemma {:induction false} WarehouseIsFifo(s: State, es: seq<Event>, k: nat)
    requires Valid(s, es) && k < |s.mesh.ware| && Drains(es) <= k
    ensures var q := Execute(s, es).mesh.ware; k - Drains(es) < |q| && q[k - Drains(es)] == s.mesh.ware[k]
    decreases |es|
  {
    hide Step;
    hide Enabled;
    if es != [] {
      WarehouseMovesUp(s, es[0], k);
      WarehouseIsFifo(Step(s, es[0]), es[1..], if es[0].Drain? then k - 1 else k);
    }
  }
}
