/** No stranding, over runs: with at least two workers no chunk is ever in a mailbox that
    nobody polls. */
module LifecycleStranding {
  import opened Arith
  import opened Limits
  import opened Mesh
  import R = Routing
  import opened Lifecycle

  /** A push in progress is never aimed at the pusher's own column. */
  predicate AimedAway(pc: AgentPc) { pc.Hopping? ==> pc.caller != Worker(pc.target) }

  ghost predicate Swept(s: State) {
    && Shape(s) && 1 < s.mesh.Workers()
    && R.OwnColumnsEmpty(s.mesh)
    && (forall a :: 0 <= a < |s.agents| ==> AimedAway(s.agents[a]))
  }

  lemma PostStaysSwept(s: State, a: nat, c: Caller, t: nat, chunk: Chunk, retry: AgentPc)
    requires Swept(s) && a < |s.agents| && AimedAway(retry)
    requires CallerOk(s.mesh, c) && t < s.mesh.Workers() && c != Worker(t)
    ensures Swept(AgentPush(s, a, Post(s.mesh, c, t, chunk), retry))
  {
    R.PostKeepsOwnColumns(s.mesh, c, t, chunk);
    hide R.OwnColumnsEmpty;
  }

  lemma EnqueueStaysSwept(s: State, a: nat, caller: Caller, busy: bool, target: nat)
    requires Swept(s) && AgentEnabled(s, Enqueue(a, caller, busy, target))
    ensures Swept(DoEnqueue(s, a, caller, busy, target))
  {
    var t := s.agents[a].core % s.mesh.Workers();
    if s.fibers[s.agents[a].i].pinned && caller != Worker(t) {
      hide Post;
      PostStaysSwept(s, a, caller, t, Single(s.agents[a].i), s.agents[a]);
    }
  }

  lemma HopStaysSwept(s: State, a: nat)
    requires Swept(s) && AgentEnabled(s, Hop(a))
    ensures Swept(DoHop(s, a))
  {
    hide Post;
    var Hopping(chunk, caller, target) := s.agents[a];
    assert AimedAway(s.agents[a]);
    var next := chunk.(hops := chunk.hops + 1);
    PostStaysSwept(s, a, caller, target, chunk, Diverting(chunk));
    var hop := Hopping(next, caller, R.HopTarget(s.mesh.Workers(), caller, next.hops));
    PostStaysSwept(s, a, caller, target, chunk, hop);
  }

  lemma AgentStaysSwept(s: State, e: Event)
    requires Swept(s) && AgentEnabled(s, e)
    ensures Swept(StepAgent(s, e))
  {
    hide DoEnqueue;
    hide DoHop;
    match e
    case Enqueue(a, caller, busy, target) => EnqueueStaysSwept(s, a, caller, busy, target);
    case Hop(a) => HopStaysSwept(s, a);
    case _ =>
  }

  lemma MoverStaysSwept(s: State, e: Event)
    requires Swept(s) && MoverEnabled(s, e)
    ensures Swept(StepMover(s, e))
  {
    if e.Route? {
      var w := e.w;
      var k := s.workers[w].chunk.(hops := Min(s.workers[w].chunk.hops + 1, HOPS_EXHAUSTED));
      R.PostKeepsOwnColumns(s.mesh, Worker(w), R.HopTarget(s.mesh.Workers(), Worker(w), k.hops), k);
    }
  }

  lemma RunnerStaysSwept(s: State, e: Event)
    requires Swept(s) && RunnerEnabled(s, e)
    ensures Swept(StepRunner(s, e))
  {
  }

  lemma {:induction false} RunStaysSwept(s: State, es: seq<Event>)
    requires Swept(s) && Valid(s, es)
    ensures Swept(Execute(s, es))
    decreases |es|
  {
    hide Swept;
    hide StepAgent;
    hide StepMover;
    hide StepRunner;
    if es != [] {
      var e := es[0];
      if AgentEnabled(s, e) { AgentStaysSwept(s, e); }
      else if MoverEnabled(s, e) { MoverStaysSwept(s, e); }
      else { RunnerStaysSwept(s, e); }
      RunStaysSwept(Step(s, e), es[1..]);
    }
  }

  /** In every run with at least two workers each non-empty mailbox has a poller: its owner,
      whose polling order covers every other worker, and the external mailboxes. */
  lemma NothingEverStranded(n: nat, pool: nat, agents: nat, es: seq<Event>, from: Caller, t: nat)
    requires 1 < n && t < n && (from.Worker? ==> from.id < n) && Valid(Fresh0(n, pool, agents), es)
    ensures var s := Execute(Fresh0(n, pool, agents), es);
            Inbox(s.mesh, from, t) != [] ==> from != Worker(t)
    ensures var s := Execute(Fresh0(n, pool, agents), es);
            var room := |s.mesh.locals[t]| + CHUNK_SIZE < LOCAL_QUEUE_CAPACITY;
            Inbox(s.mesh, from, t) != [] && s.workers[t].Idle? && room ==> Enabled(s, Poll(t, from))
  {
    assert R.OwnColumnsEmpty(EmptyMesh(n));
    RunStaysSwept(Fresh0(n, pool, agents), es);
  }
}
