/** Bounded routing, over runs: how often a fiber is put into a mailbox or into the warehouse
    on its way from one dispatch to the next. */
module LifecycleJourneys {
  import opened Arith
  import opened Limits
  import opened Mesh
  import R = Routing
  import opened Lifecycle
  import opened LifecycleOwner
  import P = LifecyclePinning

  /** Mailbox deposits and warehouse visits since the fiber was last switched into. */
  datatype Trip = Trip(deposits: nat, visits: nat)

  const START: Trip := Trip(0, 0)

  /** What all mailboxes hold. */
  function InMail(m: Mesh): multiset<Task> { MatrixBag(m.mail) + RowBag(m.ext) }

  function Gain(before: nat, after: nat): nat { if before < after then after - before else 0 }

  /** Whatever a step does, a fiber that is in a mailbox (the warehouse) after it and was not
      before it has been put there. */
  function Onward(m: Mesh, m': Mesh, i: nat, trip: Trip): Trip {
    Trip(trip.deposits + Gain(InMail(m)[i], InMail(m')[i]), trip.visits + Gain(Bag(m.ware)[i], Bag(m'.ware)[i]))
  }

  predicate Dispatches(s: State, e: Event, i: nat)
    requires Enabled(s, e)
  {
    e.Dispatch? && s.mesh.locals[e.w][0] == i
  }

  function NextTrip(s: State, e: Event, i: nat, trip: Trip): Trip
    requires Enabled(s, e)
  {
    if Dispatches(s, e, i) then START else Onward(s.mesh, Step(s, e).mesh, i, trip)
  }

  function TripOf(s: State, es: seq<Event>, i: nat, trip: Trip): Trip
    requires Valid(s, es)
    decreases |es|
  {
    if es == [] then trip else TripOf(Step(s, es[0]), es[1..], i, NextTrip(s, es[0], i, trip))
  }

  // ----- mailboxes -----

  lemma SetInboxMail(m: Mesh, c: Caller, t: nat, q: seq<Chunk>, i: nat)
    requires m.Shape() && CallerOk(m, c) && t < m.Workers()
    ensures var m' := SetInbox(m, c, t, q);
            InMail(m')[i] + Bag(Inbox(m, c, t))[i] == InMail(m)[i] + Bag(q)[i] && m'.ware == m.ware
  {
    match c
    case Worker(p) =>
      RowBagUpdate(m.mail[p], t, q, i);
      MatrixBagUpdate(m.mail, p, m.mail[p][t := q], i);
    case Host => RowBagUpdate(m.ext, t, q, i);
  }

  lemma PostMail(m: Mesh, c: Caller, t: nat, chunk: Chunk, i: nat)
    requires m.Shape() && CallerOk(m, c) && t < m.Workers()
    ensures var r := Post(m, c, t, chunk);
            && InMail(r.0)[i] == InMail(m)[i] + (if r.1 then multiset(chunk.tasks)[i] else 0)
            && r.0.ware == m.ware
  {
    hide InMail;
    BagSnoc(Inbox(m, c, t), chunk);
    SetInboxMail(m, c, t, Inbox(m, c, t) + [chunk], i);
  }

  lemma {:induction false} NotInBag(q: seq<Chunk>, i: nat, k: nat)
    requires Bag(q)[i] == 0 && k < |q|
    ensures i !in q[k].tasks
  {
    if k > 0 {
      NotInBag(q[1..], i, k - 1);
    } else {
      assert i in multiset(q[0].tasks) <==> i in q[0].tasks;
    }
  }

  // ----- the invariant -----

  /** A chunk that has made `hops` hops has been deposited at most once more. */
  predicate ChunkOk(c: Chunk, i: nat, trip: Trip, top: nat) {
    i in c.tasks ==> c.hops <= top && trip.deposits <= c.hops + 1 && trip.visits == 0
  }

  predicate AllOk(q: seq<Chunk>, i: nat, trip: Trip, top: nat) {
    forall k :: 0 <= k < |q| ==> ChunkOk(q[k], i, trip, top)
  }

  ghost predicate MailOk(m: Mesh, i: nat, trip: Trip)
    requires m.Shape()
  {
    forall c: Caller, t: nat :: CallerOk(m, c) && t < m.Workers() ==>
      AllOk(Inbox(m, c, t), i, trip, MaxHops(m.Workers()))
  }

  predicate HandOk(pc: WorkerPc, i: nat, trip: Trip, top: nat) {
    WorkerHas(pc, i) > 0 ==>
      match pc
      case Routing(c) => c.hops <= top && trip.deposits <= c.hops + 1 && trip.visits == 0
      case Parking(_) => trip.visits == 0
      case Stowing(_) => true
      case _ => trip == START
  }

  predicate AgentOk(pc: AgentPc, i: nat, trip: Trip, top: nat) {
    AgentHas(pc, i) > 0 ==> trip == START && (pc.Hopping? ==> pc.chunk.hops <= top)
  }

  ghost predicate TripOk(s: State, i: nat, trip: Trip) {
    && Shape(s)
    && var top := MaxHops(s.mesh.Workers());
    && trip.deposits <= top + 1 && trip.visits <= 1
    && MailOk(s.mesh, i, trip)
    && (forall w :: 0 <= w < |s.workers| ==> HandOk(s.workers[w], i, trip, top))
    && (forall a :: 0 <= a < |s.agents| ==> AgentOk(s.agents[a], i, trip, top))
    && (i in s.free || IsParked(s, i) ==> trip == START)
  }

  lemma FreshTripOk(n: nat, pool: nat, agents: nat, i: nat)
    requires 0 < n
    ensures TripOk(Fresh0(n, pool, agents), i, START)
  {
  }

  /** A fiber that is not in the mesh is in no mailbox, whatever its counters. */
  lemma AbsentMailOk(m: Mesh, i: nat, trip: Trip)
    requires m.Shape() && Tasks(m)[i] == 0
    ensures MailOk(m, i, trip) && InMail(m)[i] == 0 && Bag(m.ware)[i] == 0
  {
    var top := MaxHops(m.Workers());
    forall c: Caller, t: nat | CallerOk(m, c) && t < m.Workers() ensures AllOk(Inbox(m, c, t), i, trip, top) {
      P.AbsentIsOnlyFor(m, i, if t == 0 then 1 else 0);
      forall k | 0 <= k < |Inbox(m, c, t)| ensures ChunkOk(Inbox(m, c, t)[k], i, trip, top) {
        NotInBag(Inbox(m, c, t), i, k);
      }
    }
  }

  lemma SetInboxMailOk(m: Mesh, c: Caller, t: nat, q: seq<Chunk>, i: nat, trip: Trip)
    requires m.Shape() && CallerOk(m, c) && t < m.Workers() && MailOk(m, i, trip)
    requires AllOk(q, i, trip, MaxHops(m.Workers()))
    ensures MailOk(SetInbox(m, c, t, q), i, trip)
  {
    hide AllOk;
    var m' := SetInbox(m, c, t, q);
    forall d: Caller, u: nat | CallerOk(m', d) && u < m'.Workers()
      ensures AllOk(Inbox(m', d, u), i, trip, MaxHops(m'.Workers()))
    {
      OtherInbox(m, c, t, q, d, u);
      assert AllOk(Inbox(m, d, u), i, trip, MaxHops(m.Workers()));
    }
  }

  lemma PostMailOk(m: Mesh, c: Caller, t: nat, chunk: Chunk, i: nat, trip: Trip)
    requires m.Shape() && CallerOk(m, c) && t < m.Workers() && MailOk(m, i, trip)
    requires ChunkOk(chunk, i, trip, MaxHops(m.Workers()))
    ensures MailOk(Post(m, c, t, chunk).0, i, trip)
  {
    hide ChunkOk;
    var q := Inbox(m, c, t);
    assert AllOk(q, i, trip, MaxHops(m.Workers()));
    SetInboxMailOk(m, c, t, q + [chunk], i, trip);
  }

  lemma SameMailOk(m: Mesh, m': Mesh, i: nat, trip: Trip)
    requires m.Shape() && m'.Shape() && m'.mail == m.mail && m'.ext == m.ext && MailOk(m, i, trip)
    requires m'.Workers() == m.Workers()
    ensures MailOk(m', i, trip)
  {
    hide AllOk;
    forall d: Caller, u: nat | CallerOk(m', d) && u < m'.Workers()
      ensures AllOk(Inbox(m', d, u), i, trip, MaxHops(m'.Workers()))
    {
      assert Inbox(m', d, u) == Inbox(m, d, u);
      assert AllOk(Inbox(m, d, u), i, trip, MaxHops(m.Workers()));
    }
  }

  // ----- agents -----

  /** A deposit by an agent: what it carries, it carries for the first time. */
  lemma AgentPostTrip(s: State, a: nat, c: Caller, t: nat, chunk: Chunk, retry: AgentPc, i: nat, trip: Trip)
    requires Owned(s) && TripOk(s, i, trip) && a < |s.agents| && CallerOk(s.mesh, c) && t < s.mesh.Workers()
    requires AgentHas(s.agents[a], i) == multiset(chunk.tasks)[i] == AgentHas(retry, i)
    requires AgentHas(retry, i) > 0 ==> chunk.hops <= MaxHops(s.mesh.Workers())
    requires AgentHas(retry, i) > 0 && retry.Hopping? ==> retry.chunk.hops <= MaxHops(s.mesh.Workers())
    ensures var s' := AgentPush(s, a, Post(s.mesh, c, t, chunk), retry);
            TripOk(s', i, Onward(s.mesh, s'.mesh, i, trip))
  {
    hide Places;
    hide Tasks;
    hide MailOk;
    hide InMail;
    var r := Post(s.mesh, c, t, chunk);
    var after := Onward(s.mesh, r.0, i, trip);
    PostMail(s.mesh, c, t, chunk, i);
    assert i in chunk.tasks <==> i in multiset(chunk.tasks);
    assert AgentOk(s.agents[a], i, trip, MaxHops(s.mesh.Workers()));
    if i in chunk.tasks {
      AgentHolds(s, a, i);
      AbsentMailOk(s.mesh, i, after);
    }
    PostMailOk(s.mesh, c, t, chunk, i, after);
    hide Post;
    assert Onward(s.mesh, s.mesh, i, trip) == trip;
    if r.1 {
      AgentPushTrip(s, a, r, retry, i, trip, after);
    } else {
      AgentToTrip(s.(rejected := true), a, retry, i, trip);
    }
  }

  lemma AgentPushTrip(s: State, a: nat, r: (Mesh, bool), retry: AgentPc, i: nat, trip: Trip, after: Trip)
    requires Owned(s) && TripOk(s, i, trip) && a < |s.agents| && r.0.Shape() && r.0.Workers() == s.mesh.Workers() && r.1
    requires after == trip || (AgentHas(s.agents[a], i) > 0 && after.deposits <= 1 && after.visits <= 1)
    requires MailOk(r.0, i, after)
    ensures TripOk(AgentTo(s.(mesh := r.0), a, Rest), i, after)
    ensures TripOk(AgentTo(s.(mesh := r.0, parked := true), a, Rest), i, after)
  {
    hide Places;
    hide Tasks;
    hide MailOk;
    if AgentHas(s.agents[a], i) > 0 { AgentHolds(s, a, i); }
  }

  lemma AgentToTrip(s: State, a: nat, pc: AgentPc, i: nat, trip: Trip)
    requires TripOk(s, i, trip) && a < |s.agents| && AgentOk(pc, i, trip, MaxHops(s.mesh.Workers()))
    ensures TripOk(AgentTo(s, a, pc), i, trip)
  {
    hide MailOk;
    hide HandOk;
  }

  lemma PushLocalTrip(s: State, a: nat, w: nat, j: nat, retry: AgentPc, i: nat, trip: Trip)
    requires Owned(s) && TripOk(s, i, trip) && a < |s.agents| && w < s.mesh.Workers()
    requires AgentOk(retry, i, trip, MaxHops(s.mesh.Workers()))
    ensures var s' := AgentPush(s, a, PushLocal(s.mesh, w, j), retry);
            TripOk(s', i, Onward(s.mesh, s'.mesh, i, trip))
  {
    hide Owned;
    hide MailOk;
    var r := PushLocal(s.mesh, w, j);
    SameMailOk(s.mesh, r.0, i, trip);
    assert Onward(s.mesh, r.0, i, trip) == trip;
    if r.1 {
      AgentPushTrip(s, a, r, retry, i, trip, trip);
    } else {
      AgentToTrip(s.(rejected := true), a, retry, i, trip);
    }
  }

  lemma PinnedTrip(s: State, a: nat, caller: Caller, t: nat, i: nat, trip: Trip)
    requires Owned(s) && TripOk(s, i, trip) && a < |s.agents| && s.agents[a].Enqueuing?
    requires CallerOk(s.mesh, caller) && t < s.mesh.Workers()
    ensures var s' := AgentPush(s, a, Post(s.mesh, caller, t, Single(s.agents[a].i)), s.agents[a]);
            TripOk(s', i, Onward(s.mesh, s'.mesh, i, trip))
    ensures var s' := AgentPush(s, a, PushLocal(s.mesh, t, s.agents[a].i), s.agents[a]);
            TripOk(s', i, Onward(s.mesh, s'.mesh, i, trip))
  {
    hide Owned;
    hide AgentPush;
    hide TripOk;
    hide Onward;
    EnqueuingIsFresh(s, a, i, trip);
    AgentPostTrip(s, a, caller, t, Single(s.agents[a].i), s.agents[a], i, trip);
    PushLocalTrip(s, a, t, s.agents[a].i, s.agents[a], i, trip);
  }

  lemma DeflectTrip(s: State, a: nat, t: nat, retry: AgentPc, i: nat, trip: Trip)
    requires Owned(s) && TripOk(s, i, trip) && a < |s.agents| && s.agents[a].Enqueuing? && t < s.mesh.Workers()
    requires AgentHas(retry, i) == One(i == s.agents[a].i) && (retry.Hopping? ==> retry.chunk.hops == 0)
    ensures TripOk(AgentTo(s, a, retry), i, Onward(s.mesh, s.mesh, i, trip))
    ensures var s' := AgentPush(s, a, PushLocal(s.mesh, t, s.agents[a].i), retry);
            TripOk(s', i, Onward(s.mesh, s'.mesh, i, trip))
  {
    hide Owned;
    hide AgentPush;
    hide TripOk;
    EnqueuingIsFresh(s, a, i, trip);
    assert Onward(s.mesh, s.mesh, i, trip) == trip;
    AgentToTrip(s, a, retry, i, trip);
    PushLocalTrip(s, a, t, s.agents[a].i, retry, i, trip);
  }

  lemma EnqueueTrip(s: State, a: nat, caller: Caller, busy: bool, target: nat, i: nat, trip: Trip)
    requires Owned(s) && TripOk(s, i, trip) && AgentEnabled(s, Enqueue(a, caller, busy, target))
    ensures var s' := DoEnqueue(s, a, caller, busy, target); TripOk(s', i, Onward(s.mesh, s'.mesh, i, trip))
  {
    hide Owned;
    hide AgentPush;
    hide TripOk;
    hide Onward;
    var Enqueuing(j, core) := s.agents[a];
    var n := s.mesh.Workers();
    if s.fibers[j].pinned {
      PinnedTrip(s, a, caller, core % n, i, trip);
    } else {
      DeflectTrip(s, a, target, Diverting(Chunk([j], HOPS_EXHAUSTED)), i, trip);
      DeflectTrip(s, a, target, Hopping(Single(j), caller, R.OffOwnColumn(n, caller, target)), i, trip);
    }
  }

  lemma EnqueuingIsFresh(s: State, a: nat, i: nat, trip: Trip)
    requires TripOk(s, i, trip) && a < |s.agents| && s.agents[a].Enqueuing?
    ensures AgentOk(s.agents[a], i, trip, MaxHops(s.mesh.Workers()))
    ensures i == s.agents[a].i ==> trip == START
  {
  }

  lemma HopTrip(s: State, a: nat, i: nat, trip: Trip)
    requires Owned(s) && TripOk(s, i, trip) && AgentEnabled(s, Hop(a))
    ensures var s' := DoHop(s, a); TripOk(s', i, Onward(s.mesh, s'.mesh, i, trip))
  {
    hide Owned;
    hide AgentPush;
    hide MailOk;
    var Hopping(chunk, caller, target) := s.agents[a];
    var n := s.mesh.Workers();
    assert AgentOk(s.agents[a], i, trip, MaxHops(n));
    var next := chunk.(hops := chunk.hops + 1);
    var hop := Hopping(next, caller, R.HopTarget(n, caller, next.hops));
    var retry := if chunk.hops >= MaxHops(n) then Diverting(chunk) else hop;
    AgentPostTrip(s, a, caller, target, chunk, retry, i, trip);
  }

  lemma DivertTrip(s: State, a: nat, i: nat, trip: Trip)
    requires Owned(s) && TripOk(s, i, trip) && AgentEnabled(s, Divert(a))
    ensures var s' := StepAgent(s, Divert(a)); TripOk(s', i, Onward(s.mesh, s'.mesh, i, trip))
  {
    hide Places;
    hide Tasks;
    hide MailOk;
    hide InMail;
    var chunk := s.agents[a].chunk;
    var m := Park(s.mesh, chunk).0;
    var after := Onward(s.mesh, m, i, trip);
    BagSnoc(s.mesh.ware, chunk);
    assert InMail(m) == InMail(s.mesh) by { InMailOf(s.mesh, m); }
    assert AgentOk(s.agents[a], i, trip, MaxHops(s.mesh.Workers()));
    SameMailOk(s.mesh, m, i, trip);
    if AgentHas(s.agents[a], i) > 0 {
      AgentHolds(s, a, i);
      AbsentMailOk(s.mesh, i, after);
      SameMailOk(s.mesh, m, i, after);
    }
    AgentPushTrip(s, a, (m, true), Rest, i, trip, after);
  }

  lemma InMailOf(m: Mesh, m': Mesh)
    requires m'.mail == m.mail && m'.ext == m.ext
    ensures InMail(m') == InMail(m)
  {
  }

  lemma SpawnTrip(s: State, e: Event, i: nat, trip: Trip)
    requires Owned(s) && TripOk(s, i, trip) && AgentEnabled(s, e) && !AgentMove(e)
    ensures TripOk(StepAgent(s, e), i, trip) && StepAgent(s, e).mesh == s.mesh
  {
    hide Places;
    hide Tasks;
    hide MailOk;
    if e.Publish? { AgentHolds(s, e.a, s.agents[e.a].i); }
  }

  lemma AgentTrip(s: State, e: Event, i: nat, trip: Trip)
    requires Owned(s) && TripOk(s, i, trip) && AgentEnabled(s, e)
    ensures TripOk(StepAgent(s, e), i, Onward(s.mesh, StepAgent(s, e).mesh, i, trip))
  {
    hide Owned;
    hide TripOk;
    assert Onward(s.mesh, s.mesh, i, trip) == trip;
    match e
    case Enqueue(a, caller, busy, target) => EnqueueTrip(s, a, caller, busy, target, i, trip);
    case Hop(a) => HopTrip(s, a, i, trip);
    case Divert(a) => DivertTrip(s, a, i, trip);
    case _ => SpawnTrip(s, e, i, trip);
  }

  // ----- workers moving chunks -----

  lemma WorkerToTrip(s: State, w: nat, m: Mesh, pc: WorkerPc, i: nat, trip: Trip, after: Trip)
    requires Owned(s) && TripOk(s, i, trip) && w < |s.workers| && m.Shape() && m.Workers() == s.mesh.Workers()
    requires after == trip || WorkerHas(s.workers[w], i) > 0
    requires after.deposits <= MaxHops(m.Workers()) + 1 && after.visits <= 1
    requires MailOk(m, i, after) && HandOk(pc, i, after, MaxHops(m.Workers()))
    ensures TripOk(WorkerTo(s.(mesh := m), w, pc), i, after)
    ensures TripOk(WorkerTo(s.(mesh := m, parked := true), w, pc), i, after)
    ensures TripOk(WorkerTo(s.(mesh := m, rejected := true), w, pc), i, after)
  {
    hide Places;
    hide Tasks;
    hide MailOk;
    hide HandOk;
    if after != trip {
      WorkerHolds(s, w, i);
      forall u | 0 <= u < |s.workers| && u != w ensures HandOk(s.workers[u], i, after, MaxHops(m.Workers())) {
        EmptyHandOk(s.workers[u], i, after, MaxHops(m.Workers()));
      }
    }
  }

  lemma EmptyHandOk(pc: WorkerPc, i: nat, trip: Trip, top: nat)
    requires WorkerHas(pc, i) == 0
    ensures HandOk(pc, i, trip, top)
  {
  }

  lemma PollTrip(s: State, w: nat, from: Caller, i: nat, trip: Trip)
    requires Owned(s) && TripOk(s, i, trip) && MoverEnabled(s, Poll(w, from))
    ensures var s' := StepMover(s, Poll(w, from)); TripOk(s', i, Onward(s.mesh, s'.mesh, i, trip))
  {
    hide Owned;
    hide InMail;
    var q := Inbox(s.mesh, from, w);
    var m := SetInbox(s.mesh, from, w, q[1..]);
    var top := MaxHops(s.mesh.Workers());
    assert AllOk(Inbox(s.mesh, from, w), i, trip, top);
    assert ChunkOk(q[0], i, trip, top);
    assert i in q[0].tasks <==> i in multiset(q[0].tasks);
    BagHead(q);
    SetInboxMail(s.mesh, from, w, q[1..], i);
    assert Onward(s.mesh, m, i, trip) == trip;
    SetInboxMailOk(s.mesh, from, w, q[1..], i, trip);
    WorkerToTrip(s, w, m, Routing(q[0]), i, trip, trip);
  }

  lemma DrainTrip(s: State, w: nat, i: nat, trip: Trip)
    requires Owned(s) && TripOk(s, i, trip) && MoverEnabled(s, Drain(w))
    ensures var s' := StepMover(s, Drain(w)); TripOk(s', i, Onward(s.mesh, s'.mesh, i, trip))
  {
    hide Owned;
    hide MailOk;
    var m := s.mesh.(ware := s.mesh.ware[1..]);
    BagHead(s.mesh.ware);
    assert Onward(s.mesh, m, i, trip) == trip;
    SameMailOk(s.mesh, m, i, trip);
    WorkerToTrip(s, w, m, Stowing(s.mesh.ware[0]), i, trip, trip);
  }

  /** A batch into the worker's own queue. */
  lemma BatchTrip(s: State, w: nat, chunk: Chunk, i: nat, trip: Trip)
    requires Owned(s) && TripOk(s, i, trip) && w < |s.workers|
    ensures var s' := WorkerTo(s.(mesh := PushBatch(s.mesh, w, chunk)), w, Idle);
            TripOk(s', i, Onward(s.mesh, s'.mesh, i, trip))
  {
    hide Owned;
    hide MailOk;
    var m := PushBatch(s.mesh, w, chunk);
    assert Onward(s.mesh, m, i, trip) == trip;
    SameMailOk(s.mesh, m, i, trip);
    WorkerToTrip(s, w, m, Idle, i, trip, trip);
  }

  /** A deflection: one hop and one deposit more, or on to the warehouse. */
  lemma DeflectedTrip(s: State, w: nat, target: nat, k: Chunk, i: nat, trip: Trip)
    requires Owned(s) && TripOk(s, i, trip) && w < |s.workers| && s.workers[w].Routing? && target < s.mesh.Workers()
    requires s.workers[w].chunk.hops < MaxHops(s.mesh.Workers())
    requires k == s.workers[w].chunk.(hops := s.workers[w].chunk.hops + 1)
    ensures var r := Post(s.mesh, Worker(w), target, k);
            if r.1 then TripOk(WorkerTo(s.(mesh := r.0), w, Idle), i, Onward(s.mesh, r.0, i, trip))
            else TripOk(WorkerTo(s.(rejected := true), w, Parking(k)), i, trip)
  {
    hide Places;
    hide Tasks;
    hide MailOk;
    hide InMail;
    var r := Post(s.mesh, Worker(w), target, k);
    var after := Onward(s.mesh, r.0, i, trip);
    PostMail(s.mesh, Worker(w), target, k, i);
    assert i in k.tasks <==> i in multiset(k.tasks);
    assert HandOk(s.workers[w], i, trip, MaxHops(s.mesh.Workers()));
    if i in k.tasks {
      WorkerHolds(s, w, i);
      AbsentMailOk(s.mesh, i, after);
    }
    PostMailOk(s.mesh, Worker(w), target, k, i, after);
    if r.1 {
      WorkerToTrip(s, w, r.0, Idle, i, trip, after);
    } else {
      WorkerToTrip(s, w, s.mesh, Parking(k), i, trip, trip);
    }
  }

  lemma ExhaustedTrip(s: State, w: nat, i: nat, trip: Trip)
    requires Owned(s) && TripOk(s, i, trip) && w < |s.workers| && s.workers[w].Routing?
    ensures TripOk(WorkerTo(s, w, Parking(s.workers[w].chunk)), i, trip)
  {
    hide Owned;
    hide MailOk;
    assert HandOk(s.workers[w], i, trip, MaxHops(s.mesh.Workers()));
    WorkerToTrip(s, w, s.mesh, Parking(s.workers[w].chunk), i, trip, trip);
    assert s.(mesh := s.mesh) == s;
  }

  lemma RouteIsBatch(s: State, w: nat)
    requires Shape(s) && MoverEnabled(s, Route(w)) && R.SpaceOk(s.mesh, w, s.workers[w].chunk)
    ensures DoRoute(s, w) == WorkerTo(s.(mesh := PushBatch(s.mesh, w, s.workers[w].chunk)), w, Idle)
  {
  }

  lemma RouteIsPark(s: State, w: nat)
    requires Shape(s) && MoverEnabled(s, Route(w)) && !R.SpaceOk(s.mesh, w, s.workers[w].chunk)
    requires s.workers[w].chunk.hops >= MaxHops(s.mesh.Workers())
    ensures DoRoute(s, w) == WorkerTo(s, w, Parking(s.workers[w].chunk))
  {
  }

  lemma RouteIsHop(s: State, w: nat, k: Chunk, target: nat)
    requires Shape(s) && MoverEnabled(s, Route(w)) && !R.SpaceOk(s.mesh, w, s.workers[w].chunk)
    requires s.workers[w].chunk.hops < MaxHops(s.mesh.Workers())
    requires k == s.workers[w].chunk.(hops := s.workers[w].chunk.hops + 1)
    requires target == R.HopTarget(s.mesh.Workers(), Worker(w), k.hops)
    ensures var r := Post(s.mesh, Worker(w), target, k);
            DoRoute(s, w) == if r.1 then WorkerTo(s.(mesh := r.0), w, Idle)
                             else WorkerTo(s.(rejected := true), w, Parking(k))
  {
    assert k == s.workers[w].chunk.(hops := Min(s.workers[w].chunk.hops + 1, HOPS_EXHAUSTED));
  }

  lemma RouteTrip(s: State, w: nat, i: nat, trip: Trip)
    requires Owned(s) && TripOk(s, i, trip) && MoverEnabled(s, Route(w))
    ensures var s' := DoRoute(s, w); TripOk(s', i, Onward(s.mesh, s'.mesh, i, trip))
  {
    assert Shape(s);
    hide Owned;
    hide TripOk;
    hide Post;
    hide DoRoute;
    hide R.HopTarget;
    hide MaxHops;
    var chunk := s.workers[w].chunk;
    var n := s.mesh.Workers();
    assert Onward(s.mesh, s.mesh, i, trip) == trip;
    hide Onward;
    if R.SpaceOk(s.mesh, w, chunk) {
      RouteIsBatch(s, w);
      BatchTrip(s, w, chunk, i, trip);
    } else if chunk.hops >= MaxHops(n) {
      RouteIsPark(s, w);
      ExhaustedTrip(s, w, i, trip);
    } else {
      var k := chunk.(hops := chunk.hops + 1);
      var target := R.HopTarget(n, Worker(w), k.hops);
      RouteIsHop(s, w, k, target);
      DeflectedTrip(s, w, target, k, i, trip);
    }
  }

  lemma ParkTrip(s: State, w: nat, i: nat, trip: Trip)
    requires Owned(s) && TripOk(s, i, trip) && MoverEnabled(s, ParkChunk(w))
    ensures var s' := StepMover(s, ParkChunk(w)); TripOk(s', i, Onward(s.mesh, s'.mesh, i, trip))
  {
    hide Places;
    hide Tasks;
    hide MailOk;
    hide InMail;
    var chunk := s.workers[w].chunk;
    var m := Park(s.mesh, chunk).0;
    var after := Onward(s.mesh, m, i, trip);
    BagSnoc(s.mesh.ware, chunk);
    assert InMail(m) == InMail(s.mesh) by { InMailOf(s.mesh, m); }
    assert HandOk(s.workers[w], i, trip, MaxHops(s.mesh.Workers()));
    SameMailOk(s.mesh, m, i, trip);
    if WorkerHas(s.workers[w], i) > 0 {
      WorkerHolds(s, w, i);
      AbsentMailOk(s.mesh, i, after);
      SameMailOk(s.mesh, m, i, after);
    }
    WorkerToTrip(s, w, m, Idle, i, trip, after);
  }

  lemma MoverTrip(s: State, e: Event, i: nat, trip: Trip)
    requires Owned(s) && TripOk(s, i, trip) && MoverEnabled(s, e)
    ensures TripOk(StepMover(s, e), i, Onward(s.mesh, StepMover(s, e).mesh, i, trip))
  {
    hide Owned;
    hide TripOk;
    match e
    case Poll(w, from) => PollTrip(s, w, from, i, trip);
    case Drain(w) => DrainTrip(s, w, i, trip);
    case Route(w) => RouteTrip(s, w, i, trip);
    case Stow(w) => BatchTrip(s, w, s.workers[w].chunk, i, trip);
    case ParkChunk(w) => ParkTrip(s, w, i, trip);
  }

  // ----- workers running fibers -----

  lemma HandleTrip(s: State, s': State, w: nat, j: nat, i: nat, trip: Trip)
    requires Owned(s) && TripOk(s, i, trip) && Handles(s, s', w, j)
    ensures TripOk(s', i, trip) && Onward(s.mesh, s'.mesh, i, trip) == trip
  {
    hide Places;
    hide Tasks;
    hide MailOk;
    WorkerHolds(s, w, j);
    assert HandOk(s.workers[w], i, trip, MaxHops(s.mesh.Workers()));
  }

  lemma SettleTrip(s: State, w: nat, i: nat, trip: Trip)
    requires Owned(s) && TripOk(s, i, trip) && RunnerEnabled(s, Settle(w))
    ensures var s' := DoSettle(s, w); TripOk(s', i, Onward(s.mesh, s'.mesh, i, trip))
  {
    hide Places;
    hide Tasks;
    hide MailOk;
    hide Handles;
    var j := s.workers[w].i;
    SettleHandles(s, w, i);
    if Requeues(s, w) {
      var m := PushLocal(s.mesh, w, j).0;
      assert Onward(s.mesh, m, i, trip) == trip;
      SameMailOk(s.mesh, m, i, trip);
      WorkerToTrip(s, w, m, Idle, i, trip, trip);
    } else {
      HandleTrip(s, DoSettle(s, w), w, j, i, trip);
    }
  }

  lemma DispatchTrip(s: State, w: nat, i: nat, trip: Trip)
    requires Owned(s) && TripOk(s, i, trip) && RunnerEnabled(s, Dispatch(w))
    ensures TripOk(StepRunner(s, Dispatch(w)), i, NextTrip(s, Dispatch(w), i, trip))
  {
    hide Places;
    hide Tasks;
    hide MailOk;
    var j := s.mesh.locals[w][0];
    var s' := StepRunner(s, Dispatch(w));
    TakeLocalTasks(s.mesh, w);
    assert Tasks(s.mesh)[j] > 0;
    NotInHand(s, j);
    assert Onward(s.mesh, s'.mesh, i, trip) == trip;
    if i == j {
      AbsentMailOk(s'.mesh, i, START);
    } else {
      SameMailOk(s.mesh, s'.mesh, i, trip);
    }
  }

  lemma RunnerTrip(s: State, e: Event, i: nat, trip: Trip)
    requires Owned(s) && TripOk(s, i, trip) && RunnerEnabled(s, e) && !e.Dispatch?
    ensures TripOk(StepRunner(s, e), i, Onward(s.mesh, StepRunner(s, e).mesh, i, trip))
  {
    hide Owned;
    hide TripOk;
    hide Handles;
    match e
    case Act(w, act) =>
      ActHandles(s, w, act);
      HandleTrip(s, StepRunner(s, e), w, s.workers[w].i, i, trip);
    case Settle(w) => SettleTrip(s, w, i, trip);
    case Look(w) =>
      LookHandles(s, e);
      HandleTrip(s, StepRunner(s, e), w, s.workers[w].i, i, trip);
    case TryPark(w) =>
      LookHandles(s, e);
      HandleTrip(s, StepRunner(s, e), w, s.workers[w].i, i, trip);
    case Reset(w) =>
      FreeingHandles(s, e);
      HandleTrip(s, StepRunner(s, e), w, s.workers[w].i, i, trip);
    case Release(w) =>
      FreeingHandles(s, e);
      HandleTrip(s, StepRunner(s, e), w, s.workers[w].i, i, trip);
    case _ =>
  }

  // ----- runs -----

  lemma StepKeepsTrip(s: State, e: Event, i: nat, trip: Trip)
    requires Owned(s) && TripOk(s, i, trip) && Enabled(s, e)
    ensures TripOk(Step(s, e), i, NextTrip(s, e, i, trip))
  {
    hide Owned;
    hide TripOk;
    hide Onward;
    hide StepAgent;
    hide StepMover;
    hide StepRunner;
    if AgentEnabled(s, e) {
      AgentTrip(s, e, i, trip);
    } else if MoverEnabled(s, e) {
      MoverTrip(s, e, i, trip);
    } else if e.Dispatch? {
      DispatchTrip(s, e.w, i, trip);
    } else {
      RunnerTrip(s, e, i, trip);
    }
  }

  lemma {:induction false} RunKeepsTrip(s: State, es: seq<Event>, i: nat, trip: Trip)
    requires Owned(s) && TripOk(s, i, trip) && Valid(s, es)
    ensures TripOk(Execute(s, es), i, TripOf(s, es, i, trip))
    decreases |es|
  {
    hide Owned;
    hide TripOk;
    if es != [] {
      StepKeepsOwned(s, es[0]);
      StepKeepsTrip(s, es[0], i, trip);
      RunKeepsTrip(Step(s, es[0]), es[1..], i, NextTrip(s, es[0], i, trip));
    }
  }

  /** Bounded routing: in every run, from one dispatch of a fiber to the next, it is put into a
      mailbox at most `MaxHops + 1` times and into the warehouse at most once. */
  lemma JourneysAreShort(n: nat, pool: nat, agents: nat, es: seq<Event>, i: nat)
    requires 0 < n && Valid(Fresh0(n, pool, agents), es)
    ensures var trip := TripOf(Fresh0(n, pool, agents), es, i, START);
            trip.deposits <= MaxHops(n) + 1 && trip.visits <= 1
  {
    FreshOwned(n, pool, agents);
    FreshTripOk(n, pool, agents, i);
    RunKeepsTrip(Fresh0(n, pool, agents), es, i, START);
  }
}
