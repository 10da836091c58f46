/**
 * Sequences of input events and frames, and the properties that hold along
 * every such sequence: a push only fires once its cooldown is over, a boost
 * always ends before the next push can be accepted, `Pushed` is never
 * cleared, and with bounded input and stable frames the speed stays within
 * the boosted cap.
 */
module SkateTraces {
  import opened EngineMath
  import opened SkateState
  import opened SkateLocomotion

  /** What can happen to the character: one handler call or one frame. */
  datatype Event =
    | MoveEvent(HasController: bool, X: real, Y: real)
    | LookEvent(HasController: bool)
    | PushEvent(JumpCurrentCount: int)
    | TickEvent(DeltaTime: real)

  function Step(s: State, t: Tuning, e: Event): State {
    match e
    case MoveEvent(c, x, y) => Move(s, c, x, y)
    case LookEvent(c) => Look(s, t, c)
    case PushEvent(j) => Push(s, j)
    case TickEvent(dt) => Tick(s, t, dt).Next
  }

  /** The state after the events, in order. */
  function Run(s: State, t: Tuning, events: seq<Event>): State
    decreases |events|
  {
    if events == [] then s else Run(Step(s, t, events[0]), t, events[1..])
  }

  /**
   * A pending push was accepted after the cooldown ran out, and a running boost
   * is ahead of the cooldown by at least the tuning's margin.
   */
  predicate TimerInvariant(s: State, t: Tuning) {
    && (s.PushIntent ==> s.PushCooldownRemaining <= 0.0)
    && (s.PushBoostRemaining > 0.0 ==>
          s.PushCooldownRemaining >= s.PushBoostRemaining + (t.PushCooldown - t.PushBoostDuration))
  }

  lemma InitialTimerInvariant(t: Tuning)
    ensures TimerInvariant(Initial, t)
  {
  }

  lemma StepKeepsTimerInvariant(s: State, t: Tuning, e: Event)
    requires t.PushBoostDuration <= t.PushCooldown
    requires TimerInvariant(s, t)
    ensures TimerInvariant(Step(s, t, e), t)
  {
  }

  lemma {:induction false} RunKeepsTimerInvariant(s: State, t: Tuning, events: seq<Event>)
    requires t.PushBoostDuration <= t.PushCooldown
    requires TimerInvariant(s, t)
    ensures TimerInvariant(Run(s, t, events), t)
    decreases |events|
  {
    if events != [] {
      StepKeepsTimerInvariant(s, t, events[0]);
      RunKeepsTimerInvariant(Step(s, t, events[0]), t, events[1..]);
    }
  }

  /**
   * With a boost no longer than the cooldown, whenever a push can be accepted
   * or is about to fire, the previous boost has run out; and a push fires only
   * once the cooldown is over.
   */
  lemma {:induction false} BoostEndsBeforeNextPush(t: Tuning, events: seq<Event>)
    requires t.PushBoostDuration <= t.PushCooldown
    ensures var s := Run(Initial, t, events);
      && (s.PushCooldownRemaining <= 0.0 ==> s.PushBoostRemaining <= 0.0)
      && (s.PushIntent ==> s.PushCooldownRemaining <= 0.0 && s.PushBoostRemaining <= 0.0)
  {
    InitialTimerInvariant(t);
    RunKeepsTimerInvariant(Initial, t, events);
  }

  /** The default tuning has that margin, so the property holds for the shipped character. */
  lemma DefaultBoostEndsBeforeNextPush(events: seq<Event>)
    ensures var s := Run(Initial, DefaultTuning, events);
      && (s.PushCooldownRemaining <= 0.0 ==> s.PushBoostRemaining <= 0.0)
      && (s.PushIntent ==> s.PushCooldownRemaining <= 0.0 && s.PushBoostRemaining <= 0.0)
  {
    BoostEndsBeforeNextPush(DefaultTuning, events);
  }

  /** No handler and no frame clears `Pushed`. */
  lemma {:induction false} PushedStaysSet(s: State, t: Tuning, events: seq<Event>)
    requires s.Pushed
    ensures Run(s, t, events).Pushed
    decreases |events|
  {
    if events != [] {
      PushedStaysSet(Step(s, t, events[0]), t, events[1..]);
    }
  }

  /** Tuning under which the caps are ordered and non-negative. */
  predicate OrderedCaps(t: Tuning) {
    0.0 <= t.MaxSpeed <= t.MaxPushSpeed
  }

  /** Directional input within the unit range, and frames that cannot overshoot. */
  predicate BoundedEvent(t: Tuning, e: Event) {
    match e
    case MoveEvent(_, _, y) => -1.0 <= y <= 1.0
    case TickEvent(dt) => StableStep(t, dt)
    case _ => true
  }

  predicate SpeedInvariant(s: State, t: Tuning) {
    && -t.MaxPushSpeed <= s.CurrentSpeed <= t.MaxPushSpeed
    && -1.0 <= s.MoveIntent.Y <= 1.0
  }

  lemma ProductNonNegative(a: real, b: real)
    requires 0.0 <= a && 0.0 <= b
    ensures 0.0 <= a * b
  {
  }

  /**
   * The targets a rule can choose (rest, the unboosted cap scaled by forward
   * input, the boosted cap scaled by any input) lie within the boosted cap.
   */
  lemma ScaledTargetWithinCap(y: real, maxSpeed: real, maxPushSpeed: real, target: real)
    requires -1.0 <= y <= 1.0 && 0.0 <= maxSpeed <= maxPushSpeed
    requires target == 0.0 || target == y * maxPushSpeed || (y > 0.0 && target == y * maxSpeed)
    ensures -maxPushSpeed <= target <= maxPushSpeed
  {
    if target == y * maxPushSpeed {
      ProductNonNegative(1.0 - y, maxPushSpeed);
      ProductNonNegative(1.0 + y, maxPushSpeed);
    } else if target != 0.0 {
      ProductNonNegative(1.0 - y, maxSpeed);
      ProductNonNegative(y, maxSpeed);
    }
  }

  /** Every target a rule can choose lies within the boosted cap. */
  lemma TargetWithinCap(s: State, t: Tuning, dt: real)
    requires OrderedCaps(t) && -1.0 <= s.MoveIntent.Y <= 1.0
    ensures -t.MaxPushSpeed <= SelectSpeedRule(s, t, dt).Target <= t.MaxPushSpeed
  {
    ScaledTargetWithinCap(s.MoveIntent.Y, t.MaxSpeed, t.MaxPushSpeed, SelectSpeedRule(s, t, dt).Target);
  }

  lemma StepKeepsSpeedInvariant(s: State, t: Tuning, e: Event)
    requires OrderedCaps(t) && BoundedEvent(t, e)
    requires SpeedInvariant(s, t)
    ensures SpeedInvariant(Step(s, t, e), t)
  {
    if e.TickEvent? {
      TargetWithinCap(s, t, e.DeltaTime);
      StableStepRate(s, t, e.DeltaTime);
    }
  }

  /**
   * With ordered caps, directional input in [-1, 1] and stable frames, the
   * speed stays within the boosted cap in both directions.
   */
  lemma {:induction false} RunKeepsSpeedWithinCap(s: State, t: Tuning, events: seq<Event>)
    requires OrderedCaps(t)
    requires forall i :: 0 <= i < |events| ==> BoundedEvent(t, events[i])
    requires SpeedInvariant(s, t)
    ensures SpeedInvariant(Run(s, t, events), t)
    decreases |events|
  {
    if events != [] {
      StepKeepsSpeedInvariant(s, t, events[0]);
      RunKeepsSpeedWithinCap(Step(s, t, events[0]), t, events[1..]);
    }
  }

  /** The shipped character, fed bounded input at 1/11 s or faster, never exceeds full speed. */
  lemma DefaultSpeedWithinCap(events: seq<Event>)
    requires forall i :: 0 <= i < |events| ==> BoundedEvent(DefaultTuning, events[i])
    ensures -1.0 <= Run(Initial, DefaultTuning, events).CurrentSpeed <= 1.0
  {
    RunKeepsSpeedWithinCap(Initial, DefaultTuning, events);
  }
}
