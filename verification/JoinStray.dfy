/** Stray wakes and a single joiner: exactly when a joiner is left waiting for a wake that will
    not come. */
module JoinStray {
  import opened Wrappers
  import opened FiberStatus
  import opened Join
  import opened JoinTheorems

  /** Nobody is going to wake joiner `j`, and it waits on a slot with no live fiber. */
  predicate Stranded(s: State, j: nat) {
    s.waiter == Some(j) && s.life !in {Live, Done, Waking(Some(j))}
  }

  /** Past its second check: either the check was fooled, or the joiner will be woken. */
  predicate Judged(s: State, j: nat)
    requires j < |s.joiners|
  {
    s.joiners[j].st != Notified ==> if s.joiners[j].fooled then Stranded(s, j) else WillBeWoken(s, j)
  }

  predicate JoinerOk(s: State, j: nat)
    requires j < |s.joiners|
  {
    match s.joiners[j].pc
    case RereadGen => Registered(s, j)
    case RereadState => Registered(s, j)
    case Suspend => Judged(s, j)
    case Switched => Judged(s, j) && s.joiners[j].st in {Suspending, Notified}
    case Parked => Judged(s, j) && s.joiners[j].st in {Yielded, Notified}
    case _ => true
  }

  /** The state word is exact unless a stray wake has overwritten it. */
  predicate WordOk(s: State) { if s.smeared then s.st == Notified && s.life != Live else StateExact(s) }

  predicate StrayInv(s: State) { |s.joiners| == 1 && WordOk(s) && JoinerOk(s, 0) }

  lemma SlotKeepsStrayInv(s: State, e: Event)
    requires StrayInv(s) && SlotEnabled(s, e)
    ensures StrayInv(StepSlot(s, e))
  {
  }

  lemma GoOk(s: State, j: nat)
    requires JoinerEnabled(s, Go(j)) && WordOk(s) && JoinerOk(s, j)
    ensures JoinerOk(StepJoiner(s, j), j)
  {
  }

  lemma GoKeepsWord(s: State, j: nat)
    requires j < |s.joiners|
    ensures var t := StepJoiner(s, j);
            |t.joiners| == |s.joiners| && t.st == s.st && t.life == s.life && t.smeared == s.smeared
  {
  }

  lemma JoinerKeepsStrayInv(s: State, e: Event)
    requires StrayInv(s) && JoinerEnabled(s, e)
    ensures StrayInv(StepAnyJoiner(s, e))
  {
    hide StepJoiner;
    if e.Go? {
      GoOk(s, e.j);
      GoKeepsWord(s, e.j);
      hide JoinerOk;
    }
  }

  lemma StepKeepsStrayInv(s: State, e: Event)
    requires StrayInv(s) && Enabled(s, e)
    ensures StrayInv(Step(s, e))
  {
    if SlotEnabled(s, e) {
      SlotKeepsStrayInv(s, e);
      hide StepSlot;
    } else if JoinerEnabled(s, e) {
      JoinerKeepsStrayInv(s, e);
      hide StepAnyJoiner;
    }
  }

  lemma {:induction false} RunKeepsStrayInv(s: State, es: seq<Event>)
    requires StrayInv(s) && Valid(s, es)
    ensures StrayInv(Run(s, es))
    decreases |es|
  {
    hide StrayInv;
    if es != [] {
      StepKeepsStrayInv(s, es[0]);
      RunKeepsStrayInv(Step(s, es[0]), es[1..]);
    }
  }

  /** With one joining fiber, and stray wakes wherever they land: a fiber suspended inside
      `dtact_await` will not be woken if and only if its second check read a state word that a
      stray wake had overwritten after the slot's waiter was taken, no fiber has been spawned in
      the slot since, and nobody else has notified it. */
  lemma StrandedIffFooled(hosts: nat, es: seq<Event>)
    requires Valid(Start(1, hosts), es)
    ensures var s := Run(Start(1, hosts), es);
            s.joiners[0].pc in {Switched, Parked} ==>
              (!WillBeWoken(s, 0) <==> s.joiners[0].fooled && s.joiners[0].st != Notified)
  {
    RunKeepsStrayInv(Start(1, hosts), es);
  }
}
