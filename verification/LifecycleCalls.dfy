/** The machine's steps compose to the scheduler's calls: an enqueue or a routing that no
    other thread interrupts leaves the mesh that the call-level operation computes. */
module LifecycleCalls {
  import opened Limits
  import opened Mesh
  import R = Routing
  import opened Lifecycle
  import opened LifecycleTheorems

  /** `t` is `s` with another mesh, the agent back at rest, and nothing else changed but
      history. */
  predicate Called(s: State, t: State, a: nat, m: Mesh)
    requires a < |s.agents|
  {
    && t.mesh == m && t.agents == s.agents[a := Rest]
    && t.fibers == s.fibers && t.free == s.free && t.workers == s.workers && t.dropped == s.dropped
  }

  lemma SoloDivert(s: State, a: nat, chunk: Chunk) returns (es: seq<Event>)
    requires Shape(s) && a < |s.agents| && s.agents[a] == Diverting(chunk) && Park(s.mesh, chunk).1
    ensures Valid(s, es) && Called(s, Execute(s, es), a, Park(s.mesh, chunk).0)
  {
    assert Step(s, Divert(a)) == AgentTo(s.(mesh := Park(s.mesh, chunk).0, parked := true), a, Rest);
    Prepend(s, Divert(a), []);
    es := [Divert(a)] + [];
  }

  /** The hop loop, step by step, is `push_chunk_with_hop`. */
  lemma {:induction false} SoloHops(s: State, a: nat, chunk: Chunk, c: Caller, t: nat) returns (es: seq<Event>)
    requires Shape(s) && a < |s.agents| && CallerOk(s.mesh, c) && t < s.mesh.Workers()
    requires s.agents[a] == Hopping(chunk, c, t) && R.PushChunk(s.mesh, c, t, chunk).1
    ensures Valid(s, es) && Called(s, Execute(s, es), a, R.PushChunk(s.mesh, c, t, chunk).0)
    decreases MaxHops(s.mesh.Workers()) - chunk.hops
  {
    hide R.HopTarget;
    var s1 := HopOnce(s, a, chunk, c, t);
    var n := s.mesh.Workers();
    var rest: seq<Event> := [];
    hide Post;
    if !Post(s.mesh, c, t, chunk).1 {
      if chunk.hops >= MaxHops(n) {
        rest := SoloDivert(s1, a, chunk);
      } else {
        var next := chunk.(hops := chunk.hops + 1);
        rest := SoloHops(s1, a, next, c, R.HopTarget(n, c, next.hops));
      }
    }
    Prepend(s, Hop(a), rest);
    es := [Hop(a)] + rest;
  }

  lemma HopOnce(s: State, a: nat, chunk: Chunk, c: Caller, t: nat) returns (s1: State)
    requires Shape(s) && a < |s.agents| && s.agents[a] == Hopping(chunk, c, t)
    requires CallerOk(s.mesh, c) && t < s.mesh.Workers()
    ensures Enabled(s, Hop(a)) && s1 == Step(s, Hop(a)) && Shape(s1)
    ensures var n, next, r := s.mesh.Workers(), chunk.(hops := chunk.hops + 1), Post(s.mesh, c, t, chunk);
            && (r.1 ==> Called(s, s1, a, r.0))
            && (!r.1 ==>
                  var hop := Hopping(next, c, R.HopTarget(n, c, next.hops));
                  var pc := if chunk.hops >= MaxHops(n) then Diverting(chunk) else hop;
                  s1 == s.(rejected := true, agents := s.agents[a := pc]))
  {
    hide R.HopTarget;
    s1 := Step(s, Hop(a));
    assert s1 == DoHop(s, a);
  }

  /** An uninterrupted enqueue of a deflectable fiber is `enqueue_deflect`, and of a pinned one
      `enqueue_pinned`.  (A non-empty warehouse has been used: `parked`.) */
  lemma SoloEnqueue(s: State, a: nat, c: Caller, target: nat) returns (es: seq<Event>)
    requires Shape(s) && a < |s.agents| && s.agents[a].Enqueuing? && s.agents[a].i < |s.fibers|
    requires CallerOk(s.mesh, c) && target < s.mesh.Workers() && (s.mesh.ware != [] ==> s.parked)
    requires Enqueued(s, a, c, target).1
    ensures Valid(s, es) && Called(s, Execute(s, es), a, Enqueued(s, a, c, target).0)
  {
    hide R.OffOwnColumn;
    hide R.PushChunk;
    var e := Enqueue(a, c, s.mesh.ware != [], target);
    var i := s.agents[a].i;
    var s1 := Step(s, e);
    assert s1 == DoEnqueue(s, a, c, e.busy, target);
    var rest: seq<Event> := [];
    if !s.fibers[i].pinned {
      if s.mesh.ware != [] {
        rest := SoloDivert(s1, a, Chunk([i], HOPS_EXHAUSTED));
      } else if !(c == Worker(target) && PushLocal(s.mesh, target, i).1) {
        rest := SoloHops(s1, a, Single(i), c, R.OffOwnColumn(s.mesh.Workers(), c, target));
      }
    }
    Prepend(s, e, rest);
    es := [e] + rest;
  }

  function Enqueued(s: State, a: nat, c: Caller, target: nat): (Mesh, bool)
    requires Shape(s) && a < |s.agents| && s.agents[a].Enqueuing? && s.agents[a].i < |s.fibers|
    requires CallerOk(s.mesh, c) && target < s.mesh.Workers()
  {
    if s.fibers[s.agents[a].i].pinned then R.EnqueuePinned(s.mesh, c, s.agents[a].core, s.agents[a].i)
    else R.EnqueueDeflect(s.mesh, c, target, s.agents[a].i)
  }

  /** An uninterrupted routing is `route_chunk`. */
  lemma SoloRoute(s: State, w: nat) returns (es: seq<Event>)
    requires Shape(s) && w < |s.workers| && s.workers[w].Routing? && R.RouteChunk(s.mesh, w, s.workers[w].chunk).1
    ensures Valid(s, es)
    ensures var t := Execute(s, es);
            && t.mesh == R.RouteChunk(s.mesh, w, s.workers[w].chunk).0 && t.workers == s.workers[w := Idle]
            && t.fibers == s.fibers && t.free == s.free && t.agents == s.agents && t.dropped == s.dropped
  {
    hide R.HopTarget;
    hide SetInbox;
    hide SetLocal;
    var s1 := Step(s, Route(w));
    assert s1 == DoRoute(s, w);
    var rest: seq<Event> := [];
    if s1.workers[w].Parking? { rest := SoloPark(s1, w); }
    Prepend(s, Route(w), rest);
    es := [Route(w)] + rest;
  }

  lemma SoloPark(s: State, w: nat) returns (es: seq<Event>)
    requires Shape(s) && w < |s.workers| && s.workers[w].Parking? && Park(s.mesh, s.workers[w].chunk).1
    ensures Valid(s, es)
    ensures Execute(s, es) == WorkerTo(s.(mesh := Park(s.mesh, s.workers[w].chunk).0, parked := true), w, Idle)
  {
    assert Step(s, ParkChunk(w)) == WorkerTo(s.(mesh := Park(s.mesh, s.workers[w].chunk).0, parked := true), w, Idle);
    Prepend(s, ParkChunk(w), []);
    es := [ParkChunk(w)] + [];
  }
}
