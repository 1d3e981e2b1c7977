/** `OnceSlot`: one `set` call and one poller that may poll any number of times, on top of
    the waker slot.  Thread 0 of the slot is the setter, thread 1 the poller.  `mark` is how
    many wakes had happened when the current or last poll began, `last` the waker of the
    last poll if it returned Pending; both, and `delivered`, are history. */
module OnceSlot {
  import opened Wrappers
  import W = WakerSlot

  datatype Setter<V> = Unset(v: V) | Waking(v: V) | Done(v: V)

  datatype Poller =
    | Between
    | Load(w: W.Task)
    | Swap(w: W.Task)
    | Registering(w: W.Task)
    | Recheck(w: W.Task)

  datatype State<V> = State(
    ptr: Option<V>,
    slot: W.State,
    setter: Setter<V>,
    poller: Poller,
    mark: nat,
    last: Option<W.Task>,
    delivered: seq<V>)

  datatype Event = SetStep | Poll(w: W.Task) | PollStep

  function Fresh<V>(v: V): State<V> {
    State(None, W.Fresh(2), Unset(v), Between, 0, None, [])
  }

  predicate Shape<V>(s: State<V>) {
    |s.slot.threads| == 2
  }

  predicate Enabled<V>(s: State<V>, e: Event) {
    && Shape(s)
    && match e
       case SetStep => !s.setter.Done? && (s.setter.Unset? <==> s.slot.threads[0].Idle?)
       case Poll(_) => s.poller.Between?
       case PollStep => !s.poller.Between? && (s.poller.Registering? <==> !s.slot.threads[1].Idle?)
  }

  /** The poller takes whatever is there. */
  function TakeOut<V>(s: State<V>): State<V>
    requires s.ptr.Some?
  {
    s.(ptr := None, poller := Between, last := None, delivered := s.delivered + [s.ptr.value])
  }

  function Step<V>(s: State<V>, e: Event): (s': State<V>)
    requires Enabled(s, e)
    ensures Shape(s')
  {
    match e
    case SetStep =>
      (match s.setter
       case Unset(v) => s.(ptr := Some(v), setter := Waking(v), slot := W.Step(s.slot, W.Take(0)))
       case Waking(v) =>
         var slot := W.Step(s.slot, W.Advance(0));
         s.(slot := slot, setter := if slot.threads[0].Idle? then Done(v) else Waking(v))
       case Done(_) => s)
    case Poll(w) => s.(poller := Load(w), mark := |s.slot.wakes|, last := None)
    case PollStep =>
      match s.poller
      case Load(w) => if s.ptr.Some? then s.(poller := Swap(w)) else BeginRegister(s, w)
      case Swap(w) => if s.ptr.Some? then TakeOut(s) else BeginRegister(s, w)
      case Registering(w) =>
        var slot := W.Step(s.slot, W.Advance(1));
        s.(slot := slot, poller := if slot.threads[1].Idle? then Recheck(w) else Registering(w))
      case Recheck(w) => if s.ptr.Some? then TakeOut(s) else s.(poller := Between, last := Some(w))
      case Between => s
  }

  function BeginRegister<V>(s: State<V>, w: W.Task): State<V>
    requires Shape(s) && s.slot.threads[1].Idle?
  {
    s.(poller := Registering(w), slot := W.Step(s.slot, W.Register(1, w)))
  }

  predicate Valid<V>(s: State<V>, es: seq<Event>)
    decreases |es|
  {
    es == [] || (Enabled(s, es[0]) && Valid(Step(s, es[0]), es[1..]))
  }

  function Run<V>(s: State<V>, es: seq<Event>): (s': State<V>)
    requires Valid(s, es)
    ensures Shape(s) ==> Shape(s')
    decreases |es|
  {
    if es == [] then s else Run(Step(s, es[0]), es[1..])
  }

  /** The waker of the last, pending, poll has been called since that poll began. */
  predicate Woken<V>(s: State<V>, w: W.Task) {
    s.mark <= |s.slot.wakes| && w in s.slot.wakes[s.mark..]
  }

  /** The setter is on its way to waking `w`. */
  predicate WillWake<V>(s: State<V>, w: W.Task)
    requires Shape(s)
  {
    match s.slot.threads[0]
    case TakeCas => s.slot.word == W.WAITING && s.slot.cell == Some(w)
    case TakeTake => s.slot.cell == Some(w)
    case TakeReset(p) => p == Some(w)
    case Wake(target) => target == w
    case _ => false
  }

  /** Before the value is there, a registration is undisturbed. */
  predicate Undisturbed<V>(s: State<V>)
    requires Shape(s)
  {
    && s.slot.threads[0].Idle?
    && match s.slot.threads[1]
       case Idle => s.slot.word == W.WAITING
       case RegCas(_) => s.slot.word == W.WAITING
       case RegStore(_) => s.slot.word == W.Word(true, false)
       case RegRelease(w) => s.slot.word == W.Word(true, false) && s.slot.cell == Some(w)
       case _ => false
  }

  predicate PollerFits<V>(s: State<V>)
    requires Shape(s)
  {
    && (s.poller.Registering? <==> !s.slot.threads[1].Idle?)
    && (s.poller.Registering? ==>
          match s.slot.threads[1]
          case RegCas(w) => w == s.poller.w
          case RegStore(w) => w == s.poller.w
          case RegRelease(w) => w == s.poller.w
          case TakeCas => false
          case TakeTake => false
          case TakeReset(_) => false
          case TakeOr => false
          case _ => true)
    && (!s.poller.Between? ==> s.last == None)
  }

  predicate SetterFits<V>(s: State<V>)
    requires Shape(s)
  {
    match s.slot.threads[0]
    case RegCas(_) => false
    case RegStore(_) => false
    case RegRelease(_) => false
    case RegTake => false
    case RegReset(_) => false
    case Idle => !s.setter.Waking?
    case _ => s.setter.Waking?
  }

  ghost predicate Inv<V>(s: State<V>) {
    && Shape(s) && W.Inv(s.slot) && PollerFits(s) && SetterFits(s)
    && s.mark <= |s.slot.wakes|
    && (if s.setter.Unset? then s.ptr == None && s.delivered == []
        else if s.delivered == [] then s.ptr == Some(s.setter.v)
        else s.ptr == None && s.delivered == [s.setter.v])
    && (s.setter.Unset? ==> Undisturbed(s))
    && (s.setter.Unset? && s.poller.Recheck? ==> s.slot.cell == Some(s.poller.w))
    && (s.last.Some? && s.delivered == [] ==>
          || Woken(s, s.last.value)
          || (s.setter.Unset? && s.slot.cell == s.last)
          || (s.setter.Waking? && WillWake(s, s.last.value)))
  }

  lemma FreshInv<V>(v: V)
    ensures Inv(Fresh(v))
  {
  }

  lemma SetStepKeeps<V>(s: State<V>)
    requires Inv(s) && Enabled(s, SetStep)
    ensures Inv(Step(s, SetStep))
  {
    var s' := Step(s, SetStep);
    if s.setter.Unset? {
      W.StepKeepsInv(s.slot, W.Take(0));
    } else {
      W.StepKeepsInv(s.slot, W.Advance(0));
      if s.slot.threads[0].Wake? {
        assert s'.slot.wakes[s.mark..] == s.slot.wakes[s.mark..] + [s.slot.threads[0].target];
      }
    }
  }

  lemma PollStepKeeps<V>(s: State<V>)
    requires Inv(s) && Enabled(s, PollStep)
    ensures Inv(Step(s, PollStep))
  {
    match s.poller
    case Load(w) => if s.ptr.None? { W.StepKeepsInv(s.slot, W.Register(1, w)); }
    case Swap(w) => if s.ptr.None? { W.StepKeepsInv(s.slot, W.Register(1, w)); }
    case Registering(_) => W.StepKeepsInv(s.slot, W.Advance(1));
    case Recheck(_) =>
    case Between =>
  }

  lemma StepKeepsInv<V>(s: State<V>, e: Event)
    requires Inv(s) && Enabled(s, e)
    ensures Inv(Step(s, e))
  {
    match e
    case SetStep => SetStepKeeps(s);
    case PollStep => PollStepKeeps(s);
    case Poll(_) =>
  }

  lemma {:induction false} RunKeepsInv<V>(s: State<V>, es: seq<Event>)
    requires Inv(s) && Valid(s, es)
    ensures Inv(Run(s, es))
    decreases |es|
  {
    if es != [] {
      StepKeepsInv(s, es[0]);
      RunKeepsInv(Step(s, es[0]), es[1..]);
    }
  }

  /** In every interleaving: the value is delivered at most once and is the one that was
      set; and once `set` has returned, either it has been delivered, or it is there for the
      next poll and a poll that had returned Pending has had its waker woken. */
  lemma CompletionNeitherLostNorDuplicated<V>(v: V, es: seq<Event>)
    requires Valid(Fresh(v), es)
    ensures var s := Run(Fresh(v), es);
            && (s.delivered == [] || s.delivered == [v])
            && (s.setter.Done? && s.delivered == [] ==> s.ptr == Some(v) && (s.last.Some? ==> Woken(s, s.last.value)))
  {
    FreshInv(v);
    RunKeepsInv(Fresh(v), es);
    SetterKeepsValue(Fresh(v), es);
  }

  lemma {:induction false} SetterKeepsValue<V>(s: State<V>, es: seq<Event>)
    requires Valid(s, es)
    ensures Run(s, es).setter.v == s.setter.v
    decreases |es|
  {
    if es != [] { SetterKeepsValue(Step(s, es[0]), es[1..]); }
  }

  // ----- polls come back -----

  /** How many steps of its own a poll has left, at most. */
  function StepsLeft<V>(s: State<V>): nat
    requires Shape(s)
  {
    match s.poller
    case Between => 0
    case Recheck(_) => 1
    case Registering(_) => W.StepsLeft(s.slot.threads[1]) + 1
    case Swap(_) => 8
    case Load(_) => 9
  }

  function PollSteps(es: seq<Event>): nat {
    if es == [] then 0 else (if es[0].PollStep? then 1 else 0) + PollSteps(es[1..])
  }

  predicate OnePoll(es: seq<Event>) { forall k :: 0 <= k < |es| ==> !es[k].Poll? }

  lemma PollStepShortens<V>(s: State<V>)
    requires Inv(s) && Enabled(s, PollStep)
    ensures var s' := Step(s, PollStep);
            && StepsLeft(s') < StepsLeft(s)
            && (s.ptr.Some? && s'.poller.Between? ==> s'.delivered == s.delivered + [s.ptr.value])
            && (s.ptr.Some? && !s'.poller.Between? ==> s'.ptr == s.ptr && s'.delivered == s.delivered)
            && (s.ptr.Some? && s.poller.Load? ==> s'.poller.Swap?)
            && (s.ptr.Some? && s.poller.Swap? ==> s'.poller.Between?)
  {
    if s.poller.Registering? { W.CallsAreWaitFree(s.slot, W.Advance(1), 1); }
  }

  lemma SetStepLeavesPoll<V>(s: State<V>)
    requires Inv(s) && Enabled(s, SetStep)
    ensures var s' := Step(s, SetStep);
            && s'.poller == s.poller && StepsLeft(s') == StepsLeft(s) && s'.delivered == s.delivered
            && (s.ptr.Some? ==> s'.ptr == s.ptr)
  {
  }

  /** A poll in progress when the value is there takes it, whatever the setter does meanwhile: it
      always has a next step until it has returned, it has a bounded number of them, and it
      returns the value, never Pending.  A poll that begins then needs just two. */
  lemma {:induction false} PollTakesValue<V>(s: State<V>, es: seq<Event>)
    requires Inv(s) && Valid(s, es) && OnePoll(es) && s.ptr.Some? && !s.poller.Between?
    ensures var f := Run(s, es);
            && Inv(f) && PollSteps(es) + StepsLeft(f) <= StepsLeft(s)
            && (if f.poller.Between? then f.delivered == s.delivered + [s.ptr.value]
                else Enabled(f, PollStep) && f.ptr == s.ptr && f.delivered == s.delivered)
            && (s.poller.Load? && PollSteps(es) == 2 ==> f.poller.Between?)
    decreases |es|
  {
    if es != [] {
      var e := es[0];
      var s' := Step(s, e);
      StepKeepsInv(s, e);
      if e.PollStep? { PollStepShortens(s); } else { SetStepLeavesPoll(s); }
      hide Step;
      if s'.poller.Between? {
        NoMoreSteps(s', es[1..]);
      } else {
        PollTakesValue(s', es[1..]);
        if e.PollStep? && s.poller.Load? { SwapTakes(s', es[1..]); }
      }
    }
  }

  lemma {:induction false} SwapTakes<V>(s: State<V>, es: seq<Event>)
    requires Inv(s) && Valid(s, es) && OnePoll(es) && s.ptr.Some? && s.poller.Swap?
    ensures PollSteps(es) == 1 ==> Run(s, es).poller.Between?
    decreases |es|
  {
    if es != [] {
      var e := es[0];
      StepKeepsInv(s, e);
      if e.PollStep? { PollStepShortens(s); } else { SetStepLeavesPoll(s); }
      hide Step;
      if e.PollStep? { NoMoreSteps(Step(s, e), es[1..]); } else { SwapTakes(Step(s, e), es[1..]); }
    }
  }

  lemma {:induction false} NoMoreSteps<V>(s: State<V>, es: seq<Event>)
    requires Inv(s) && Valid(s, es) && OnePoll(es) && s.poller.Between?
    ensures PollSteps(es) == 0 && Inv(Run(s, es))
    ensures Run(s, es).poller.Between? && Run(s, es).delivered == s.delivered
    decreases |es|
  {
    if es != [] {
      StepKeepsInv(s, es[0]);
      SetStepLeavesPoll(s);
      hide Step;
      NoMoreSteps(Step(s, es[0]), es[1..]);
    }
  }
}
