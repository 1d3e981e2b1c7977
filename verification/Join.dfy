/** `dtact_await` on one context slot, interleaved one shared access at a time: any number of
    joining fibers and host threads, and the fibers that come and go in the slot.

    History, which no step reads: `ended` (generations whose fiber has stored Finished),
    `smeared` (the state word is a stray wake's, written over that of a fiber that is not live),
    and in a joiner the generation `g` that its handle was issued for, `returned`, and `fooled`
    (see `Fooled`).  A handle carries only the low 15 bits of the generation (HandleWord); the
    counter itself is unbounded. */
module Join {
  import opened Wrappers
  import opened FiberStatus

  const TAGS: nat := 0x8000

  predicate IsLive(st: Status) { st == Running || st == Yielded || st == Notified || st == Suspending }

  /** The slot's current incarnation: none; running; Finished stored; waiter taken out and not
      yet woken; done waking; seen Finished by the dispatcher; Initial stored. */
  datatype Life = Vacant | Live | Done | Waking(who: Option<nat>) | Woken | Resetting | Cleared

  datatype JoinerPc =
    | Outside
    | Arm
    | ReadGen
    | ReadState
    | Register
    | RereadGen
    | RereadState
    | Withdraw
    | Suspend
    | Switched
    | Parked

  datatype Joiner = Joiner(pc: JoinerPc, tag: nat, st: Status, g: nat, returned: bool, fooled: bool)

  datatype HostPc = Away | First | Middle(g1: nat) | Last(g1: nat, seen: Status)

  datatype Host = Host(pc: HostPc, tag: nat, g: nat, returned: bool)

  datatype State = State(
    gen: nat,
    st: Status,
    life: Life,
    waiter: Option<nat>,
    joiners: seq<Joiner>,
    hosts: seq<Host>,
    ended: set<nat>,
    smeared: bool)

  datatype Event =
    // the slot
    | Spawn
    | Churn(to: Status)
    | Finish
    | TakeWaiter
    | WakeWaiter
    | Look
    | Reset
    | Bump
    | Stray
    // a joining fiber and its dispatcher
    | Begin(j: nat, h: nat)
    | Go(j: nat)
    | Nudge(j: nat)
    | Park(j: nat)
    | Resume(j: nat)
    // a joining host thread
    | HostBegin(k: nat, h: nat)
    | HostGo(k: nat)

  function Start(joiners: nat, hosts: nat): State {
    State(0, Initial, Vacant, None,
          seq(joiners, _ => Joiner(Outside, 0, Running, 0, false, false)),
          seq(hosts, _ => Host(Away, 0, 0, false)), {}, false)
  }

  /** A handle for generation `h` has been issued. */
  predicate Issued(s: State, h: nat) { h < s.gen || (h == s.gen && s.life != Vacant) }

  // ----- the slot -----

  predicate SlotEnabled(s: State, e: Event) {
    match e
    case Spawn => s.life == Vacant
    case Churn(to) => s.life == Live && IsLive(to)
    case Finish => s.life == Live
    case TakeWaiter => s.life == Done
    case WakeWaiter => s.life.Waking?
    case Look => s.life == Woken && s.st == Finished
    case Reset => s.life == Resetting
    case Bump => s.life == Cleared
    case Stray => true
    case _ => false
  }

  /** The guarded wake of a joiner: its state becomes Notified, whatever it was. */
  function Notify(s: State, who: Option<nat>): State {
    if who.Some? && who.value < |s.joiners| then
      s.(joiners := s.joiners[who.value := s.joiners[who.value].(st := Notified)])
    else s
  }

  /** A joiner that reads the state word now reads a stray wake's, and whoever was to wake it has
      already taken the waiter of the slot. */
  predicate Fooled(s: State, j: nat) { s.smeared && s.life !in {Live, Done, Waking(Some(j))} }

  /** The slot has a new fiber, which will wake whoever is registered. */
  function Unfool(s: State): State {
    s.(joiners := seq(|s.joiners|, k requires 0 <= k < |s.joiners| => s.joiners[k].(fooled := false)))
  }

  function StepSlot(s: State, e: Event): State
    requires SlotEnabled(s, e)
  {
    match e
    case Spawn => Unfool(s.(st := Running, life := Live, smeared := false))
    case Churn(to) => s.(st := to)
    case Finish => s.(st := Finished, life := Done, ended := s.ended + {s.gen}, smeared := false)
    case TakeWaiter => s.(waiter := None, life := Waking(s.waiter))
    case WakeWaiter => Notify(s, s.life.who).(life := Woken)
    case Look => s.(life := Resetting)
    case Reset => s.(st := Initial, life := Cleared, smeared := false)
    case Bump => s.(gen := s.gen + 1, life := Vacant)
    case Stray => s.(st := Notified, smeared := s.life != Live)
    case _ => s
  }

  // ----- joining fibers -----

  predicate JoinerEnabled(s: State, e: Event) {
    match e
    case Begin(j, h) => j < |s.joiners| && s.joiners[j].pc == Outside && Issued(s, h)
    case Go(j) => j < |s.joiners| && s.joiners[j].pc !in {Outside, Switched, JoinerPc.Parked}
    case Nudge(j) => j < |s.joiners|
    case Park(j) => j < |s.joiners| && s.joiners[j].pc == Switched && s.joiners[j].st == Suspending
    case Resume(j) => j < |s.joiners| && s.joiners[j].pc in {Switched, JoinerPc.Parked} && s.joiners[j].st == Notified
    case _ => false
  }

  /** The check on the target's state that ends a wait. */
  predicate Over(st: Status) { st == Finished || st == Initial }

  function JoinerTo(s: State, j: nat, to: Joiner): State
    requires j < |s.joiners|
  {
    s.(joiners := s.joiners[j := to])
  }

  /** The next step of `dtact_await`'s fiber path. */
  function StepJoiner(s: State, j: nat): State
    requires j < |s.joiners|
  {
    var me := s.joiners[j];
    match me.pc
    case Arm => JoinerTo(s, j, me.(st := Running, pc := ReadGen))
    case ReadGen =>
      JoinerTo(s, j, if s.gen % TAGS != me.tag then me.(pc := Outside, returned := true) else me.(pc := ReadState))
    case ReadState =>
      JoinerTo(s, j, if Over(s.st) then me.(pc := Outside, returned := true) else me.(pc := Register))
    case Register => JoinerTo(s.(waiter := Some(j)), j, me.(pc := RereadGen))
    case RereadGen => JoinerTo(s, j, me.(pc := if s.gen % TAGS != me.tag then Withdraw else RereadState))
    case RereadState =>
      JoinerTo(s, j, if Over(s.st) then me.(pc := Withdraw) else me.(pc := Suspend, fooled := Fooled(s, j)))
    case Withdraw =>
      JoinerTo(s.(waiter := if s.waiter == Some(j) then None else s.waiter), j, me.(pc := Outside, returned := true))
    case Suspend =>
      JoinerTo(s, j, if me.st == Running then me.(st := Suspending, pc := Switched) else me.(pc := Arm))
    case _ => s
  }

  function StepAnyJoiner(s: State, e: Event): State
    requires JoinerEnabled(s, e)
  {
    match e
    case Begin(j, h) => JoinerTo(s, j, Joiner(Arm, h % TAGS, s.joiners[j].st, h, false, false))
    case Go(j) => StepJoiner(s, j)
    case Nudge(j) => Notify(s, Some(j))
    case Park(j) => JoinerTo(s, j, s.joiners[j].(st := Yielded, pc := JoinerPc.Parked))
    case Resume(j) => JoinerTo(s, j, s.joiners[j].(pc := Arm))
    case _ => s
  }

  // ----- joining host threads -----

  predicate HostEnabled(s: State, e: Event) {
    match e
    case HostBegin(k, h) => k < |s.hosts| && s.hosts[k].pc == Away && Issued(s, h)
    case HostGo(k) => k < |s.hosts| && s.hosts[k].pc != Away
    case _ => false
  }

  /** Three loads -- generation, state, generation -- and the decision after the third. */
  function StepHost(s: State, k: nat): State
    requires k < |s.hosts|
  {
    var me := s.hosts[k];
    var me' :=
      match me.pc
      case First => me.(pc := Middle(s.gen % TAGS))
      case Middle(g1) => me.(pc := Last(g1, s.st))
      case Last(g1, seen) =>
        if g1 != me.tag || s.gen % TAGS != me.tag || seen == Finished then me.(pc := Away, returned := true)
        else me.(pc := First)
      case Away => me;
    s.(hosts := s.hosts[k := me'])
  }

  // ----- runs -----

  predicate Enabled(s: State, e: Event) { SlotEnabled(s, e) || JoinerEnabled(s, e) || HostEnabled(s, e) }

  function Step(s: State, e: Event): (s': State)
    requires Enabled(s, e)
    ensures |s'.joiners| == |s.joiners| && |s'.hosts| == |s.hosts|
  {
    if SlotEnabled(s, e) then StepSlot(s, e)
    else if JoinerEnabled(s, e) then StepAnyJoiner(s, e)
    else if e.HostBegin? then s.(hosts := s.hosts[e.k := Host(First, e.h % TAGS, e.h, false)])
    else StepHost(s, e.k)
  }

  predicate Valid(s: State, es: seq<Event>)
    decreases |es|
  {
    es == [] || (Enabled(s, es[0]) && Valid(Step(s, es[0]), es[1..]))
  }

  function Run(s: State, es: seq<Event>): (s': State)
    requires Valid(s, es)
    ensures |s'.joiners| == |s.joiners| && |s'.hosts| == |s.hosts|
    decreases |es|
  {
    if es == [] then s else Run(Step(s, es[0]), es[1..])
  }
}
