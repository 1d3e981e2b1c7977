/** The for-all half of the waker slot: a `take_and_wake` wakes what it found, unless the late
    bit of `WakerSlot.missed` was set. */
module WakerDelivery {
  import opened Wrappers
  import opened WakerSlot

  /** `w` is stored, or a registration that has won the slot is about to store it. */
  predicate Present(s: State, w: Task) {
    s.cell == Some(w) || (s.owner.Some? && s.owner.value < |s.threads| && s.threads[s.owner.value] == RegStore(w))
  }

  /** A later registration stores another waker over `w` at this event. */
  predicate Replaces(s: State, e: Event, w: Task)
    requires Enabled(s, e)
  {
    s.cell == Some(w) && Step(s, e).cell.Some? && Step(s, e).cell != Some(w)
  }

  predicate Replaced(s: State, es: seq<Event>, w: Task)
    requires Valid(s, es)
    decreases |es|
  {
    es != [] && (Replaces(s, es[0], w) || Replaced(Step(s, es[0]), es[1..], w))
  }

  /** A thread has taken `w` out of the cell and is on its way to wake it. */
  predicate Carries(pc: Pc, w: Task) {
    pc == RegReset(Some(w)) || pc == TakeReset(Some(w)) || pc == Wake(w)
  }

  /** The `take_and_wake` of thread `t` has yet to win the slot or to set its bit. */
  predicate Underway(s: State, t: nat) {
    t < |s.threads| && (s.threads[t].TakeCas? || s.threads[t].TakeOr?)
  }

  /** Whoever is inside will take the cell out before giving the slot back. */
  predicate WillTake(s: State) { s.word.waking && s.owner.Some? }

  /** What thread `t` owes to `w`, `mark` wakes having happened when its call began. */
  ghost predicate Owed(s: State, t: nat, w: Task, mark: nat) {
    || (mark <= |s.wakes| && w in s.wakes[mark..])
    || (exists v :: 0 <= v < |s.threads| && Carries(s.threads[v], w))
    || (Present(s, w) && (Underway(s, t) || WillTake(s)))
  }

  lemma StepKeepsOwed(s: State, e: Event, t: nat, w: Task, mark: nat)
    requires Inv(s) && Enabled(s, e) && mark <= |s.wakes| && Owed(s, t, w, mark) && !Step(s, e).missed
    ensures Owed(Step(s, e), t, w, mark) || Replaces(s, e, w)
  {
    var s' := Step(s, e);
    StepKeepsInv(s, e);
    if w in s.wakes[mark..] {
      assert s'.wakes[mark..] == s.wakes[mark..] + s'.wakes[|s.wakes|..];
    } else if v :| 0 <= v < |s.threads| && Carries(s.threads[v], w) {
      if e.t == v {
        CarrierGoesOn(s, e, w, mark);
      } else {
        assert Carries(s'.threads[v], w);
      }
    } else {
      PresentGoesOn(s, e, t, w, mark);
    }
  }

  lemma CarrierGoesOn(s: State, e: Event, w: Task, mark: nat)
    requires Inv(s) && Enabled(s, e) && mark <= |s.wakes| && Carries(s.threads[e.t], w)
    ensures var s' := Step(s, e); Carries(s'.threads[e.t], w) || w in s'.wakes[mark..]
  {
    if s.threads[e.t].Wake? { assert Step(s, e).wakes[mark..][|s.wakes| - mark] == w; }
  }

  lemma PresentGoesOn(s: State, e: Event, t: nat, w: Task, mark: nat)
    requires Inv(s) && Enabled(s, e) && Present(s, w) && (Underway(s, t) || WillTake(s)) && !Step(s, e).missed
    ensures Owed(Step(s, e), t, w, mark) || Replaces(s, e, w)
  {
    var s', u := Step(s, e), e.t;
    assert WordFits(s, s.threads[u]);
    if e.Advance? && (s.threads[u].RegTake? || s.threads[u].TakeTake?) {
      assert Carries(s'.threads[u], w);
    }
  }

  lemma {:induction false} RunKeepsOwed(s: State, es: seq<Event>, t: nat, w: Task, mark: nat)
    requires Inv(s) && Valid(s, es) && mark <= |s.wakes| && Owed(s, t, w, mark) && !Run(s, es).missed
    ensures Owed(Run(s, es), t, w, mark) || Replaced(s, es, w)
    decreases |es|
  {
    if es != [] {
      var s' := Step(s, es[0]);
      StepKeepsInv(s, es[0]);
      WakesGrow(s, es[0]);
      MissedForGood(s', es[1..]);
      StepKeepsOwed(s, es[0], t, w, mark);
      hide Step;
      hide Owed;
      hide Inv;
      if !Replaces(s, es[0], w) { RunKeepsOwed(s', es[1..], t, w, mark); }
    }
  }

  lemma WakesGrow(s: State, e: Event)
    requires Enabled(s, e)
    ensures |s.wakes| <= |Step(s, e).wakes|
  {
  }

  lemma {:induction false} MissedForGood(s: State, es: seq<Event>)
    requires Valid(s, es)
    ensures s.missed ==> Run(s, es).missed
    decreases |es|
  {
    if es != [] { MissedForGood(Step(s, es[0]), es[1..]); }
  }

  lemma TakeBeginsOwing(s: State, t: nat, w: Task)
    requires Inv(s) && Enabled(s, Take(t)) && Present(s, w)
    ensures Owed(Step(s, Take(t)), t, w, |s.wakes|) && |Step(s, Take(t)).wakes| == |s.wakes|
  {
  }

  lemma IdleOwesNothing(f: State, t: nat, w: Task, mark: nat)
    requires Inv(f) && Owed(f, t, w, mark) && forall u :: 0 <= u < |f.threads| ==> f.threads[u].Idle?
    ensures mark <= |f.wakes| && w in f.wakes[mark..]
  {
  }

  /** In every run without a late bit on a stored waker: a waker that is stored, or being
      stored, when some `take_and_wake` begins has, once all calls have returned, been woken
      since, or been replaced by a later registration. */
  lemma TakeDelivers(n: nat, es: seq<Event>, t: nat, w: Task, fs: seq<Event>)
    requires Valid(Fresh(n), es) && t < n
    requires var s := Run(Fresh(n), es); Enabled(s, Take(t)) && Present(s, w) && Valid(Step(s, Take(t)), fs)
    requires var f := Run(Step(Run(Fresh(n), es), Take(t)), fs);
             !f.missed && forall u :: 0 <= u < |f.threads| ==> f.threads[u].Idle?
    ensures var s := Run(Fresh(n), es);
            var s1 := Step(s, Take(t));
            Replaced(s1, fs, w) || (|s.wakes| <= |Run(s1, fs).wakes| && w in Run(s1, fs).wakes[|s.wakes|..])
  {
    var s := Run(Fresh(n), es);
    RunKeepsInv(Fresh(n), es);
    hide Inv;
    hide Owed;
    hide Present;
    hide Step;
    var s1 := Step(s, Take(t));
    StepKeepsInv(s, Take(t));
    TakeBeginsOwing(s, t, w);
    RunKeepsOwed(s1, fs, t, w, |s.wakes|);
    RunKeepsInv(s1, fs);
    if !Replaced(s1, fs, w) { IdleOwesNothing(Run(s1, fs), t, w, |s.wakes|); }
  }

  // ----- registrations -----

  /** Thread `t`'s latest `register`, as an onlooker sees it: its waker, how many wakes had happened
      when it began, and whether it has stored the waker. */
  datatype Registration = Registration(w: Task, mark: nat, stored: bool)

  function Watch(r: Option<Registration>, s: State, e: Event, t: nat): Option<Registration>
    requires Enabled(s, e)
  {
    if e.t != t then r
    else match e
      case Register(_, w) => Some(Registration(w, |s.wakes|, false))
      case Take(_) => None
      case Advance(_) =>
        if r.Some? && s.threads[t].RegStore? && Step(s, e).cell == Some(r.value.w) then
          Some(r.value.(stored := true))
        else r
  }

  function WatchRun(r: Option<Registration>, s: State, es: seq<Event>, t: nat): Option<Registration>
    requires Valid(s, es)
    decreases |es|
  {
    if es == [] then r else WatchRun(Watch(r, s, es[0], t), Step(s, es[0]), es[1..], t)
  }

  /** The waker has been stored or called, or is about to be. */
  predicate Heard(s: State, pc: Pc, r: Registration) {
    match pc
    case RegCas(w) => w == r.w
    case RegStore(w) => w == r.w
    case RegRelease(w) => r.stored
    case Wake(w) => r.stored || w == r.w
    case Idle => r.stored || (r.mark <= |s.wakes| && r.w in s.wakes[r.mark..])
    case _ => r.stored
  }

  lemma StepHeard(s: State, e: Event, t: nat, r: Option<Registration>)
    requires Enabled(s, e) && t < |s.threads|
    requires r.Some? ==> Heard(s, s.threads[t], r.value) && r.value.mark <= |s.wakes|
    ensures var s', r' := Step(s, e), Watch(r, s, e, t);
            r'.Some? ==> Heard(s', s'.threads[t], r'.value) && r'.value.mark <= |s'.wakes|
  {
    var s' := Step(s, e);
    if r.Some? {
      var m := r.value.mark;
      assert |s.wakes| <= |s'.wakes| && s'.wakes[..|s.wakes|] == s.wakes;
      assert s'.wakes[m..] == s.wakes[m..] + s'.wakes[|s.wakes|..];
      if e.Advance? && s.threads[e.t].Wake? { assert s'.wakes[|s.wakes|..] == [s.threads[e.t].target]; }
    }
  }

  /** No registration is dropped: in every run, whatever the contention, a `register` that has
      returned has stored its waker or has called it since it began. */
  lemma {:induction false} RegistrationsAreHeard(s: State, es: seq<Event>, t: nat, r: Option<Registration>)
    requires Valid(s, es) && t < |s.threads|
    requires r.Some? ==> Heard(s, s.threads[t], r.value) && r.value.mark <= |s.wakes|
    ensures var f, r' := Run(s, es), WatchRun(r, s, es, t);
            r'.Some? ==>
              && r'.value.mark <= |f.wakes| && Heard(f, f.threads[t], r'.value)
              && (f.threads[t].Idle? ==> r'.value.stored || r'.value.w in f.wakes[r'.value.mark..])
    decreases |es|
  {
    if es != [] {
      StepHeard(s, es[0], t, r);
      RegistrationsAreHeard(Step(s, es[0]), es[1..], t, Watch(r, s, es[0], t));
    }
  }
}
