/**
 * The skate-locomotion state machine as functions on values: the three input
 * handlers that record intent and the per-frame update that consumes it.
 * The engine's inputs (whether a controller possesses the character, the jump
 * counter) are parameters; its outputs (the two movement-input scales and
 * whether the camera recentres this frame) are part of the frame's result.
 */
module SkateLocomotion {
  import opened EngineMath
  import opened SkateState

  /** Directional input: recorded only while a controller possesses the character. */
  function Move(s: State, hasController: bool, x: real, y: real): (r: State)
    ensures r.MoveIntent == if hasController then Vec2(x, y) else s.MoveIntent
    ensures r.(MoveIntent := s.MoveIntent) == s
  {
    if hasController then s.(MoveIntent := Vec2(x, y)) else s
  }

  /**
   * Look input: restarts the auto-look delay whether or not a controller is
   * present (the camera rotation itself belongs to the engine).
   */
  function Look(s: State, t: Tuning, hasController: bool): (r: State)
    ensures r.AutoLookTimer == t.AutoLookDelay
    ensures r.(AutoLookTimer := s.AutoLookTimer) == s
  {
    s.(AutoLookTimer := t.AutoLookDelay)
  }

  /** Push input: accepted only while not jumping (jump count 0) and once the cooldown has run out. */
  function Push(s: State, jumpCurrentCount: int): (r: State)
    ensures r.PushIntent <==> s.PushIntent || (s.PushCooldownRemaining <= 0.0 && jumpCurrentCount == 0)
    ensures s.PushCooldownRemaining > 0.0 || jumpCurrentCount != 0 ==> r == s
    ensures r.(PushIntent := s.PushIntent) == s
  {
    if s.PushCooldownRemaining <= 0.0 && jumpCurrentCount == 0 then s.(PushIntent := true) else s
  }

  /** The speed a frame interpolates towards, and the fraction of the way it goes. */
  datatype SpeedRule = SpeedRule(Target: real, Rate: real)

  /** The frames on which the fast, boosted curve applies. */
  predicate OnBoostCurve(s: State) {
    s.PushIntent || (s.PushBoostRemaining > 0.0 && s.MoveIntent.Y > 0.0)
  }

  /**
   * The rule a frame follows, by situation: the boosted curve; forward input
   * above or at most the unboosted cap; no input; backward input (braking).
   */
  function SelectSpeedRule(s: State, t: Tuning, dt: real): (r: SpeedRule)
    ensures OnBoostCurve(s) ==>
      r == SpeedRule(s.MoveIntent.Y * t.MaxPushSpeed, t.PushMultiplier * dt)
    ensures !OnBoostCurve(s) && s.MoveIntent.Y > 0.0 && s.CurrentSpeed > t.MaxSpeed * s.MoveIntent.Y ==>
      r == SpeedRule(s.MoveIntent.Y * t.MaxSpeed, dt)
    ensures !OnBoostCurve(s) && s.MoveIntent.Y > 0.0 && s.CurrentSpeed <= t.MaxSpeed * s.MoveIntent.Y ==>
      r == SpeedRule(s.MoveIntent.Y * t.MaxSpeed, t.DefaultMultiplier * dt)
    ensures !s.PushIntent && s.MoveIntent.Y == 0.0 ==> r == SpeedRule(0.0, dt)
    ensures !s.PushIntent && s.MoveIntent.Y < 0.0 ==> r == SpeedRule(0.0, t.BrakeMultiplier * dt)
  {
    var y := s.MoveIntent.Y;
    if s.PushIntent then
      SpeedRule(y * t.MaxPushSpeed, t.PushMultiplier * dt)
    else if y > 0.0 then
      if s.PushBoostRemaining > 0.0 && y > 0.0 then
        SpeedRule(y * t.MaxPushSpeed, t.PushMultiplier * dt)
      else if s.CurrentSpeed > t.MaxSpeed * y then
        SpeedRule(y * t.MaxSpeed, dt)
      else
        SpeedRule(y * t.MaxSpeed, t.DefaultMultiplier * dt)
    else if y == 0.0 then
      SpeedRule(0.0, dt)
    else
      SpeedRule(0.0, t.BrakeMultiplier * dt)
  }

  /** A timer counts down only while it is positive; it is never clamped at zero. */
  function CountDown(timer: real, dt: real): real {
    if timer > 0.0 then timer - dt else timer
  }

  /**
   * What one frame produces: the next state, the scales handed to the engine
   * along the board's forward and right vectors, and whether auto-look runs.
   */
  datatype Frame = Frame(Next: State, ForwardInput: real, RightInput: real, AutoLook: bool)

  /**
   * One frame of `dt` seconds. A pending push fires (and restarts the cooldown
   * and the boost, leaving the auto-look timer alone); otherwise the three
   * timers count down. Either way the speed moves towards the selected target,
   * the move intent is handed on and cleared, and auto-look runs once its
   * timer has run out.
   */
  function Tick(s: State, t: Tuning, dt: real): (r: Frame)
    ensures r.Next.MoveIntent == ZeroVec
    ensures !r.Next.PushIntent
    ensures r.Next.Pushed <==> s.Pushed || s.PushIntent
    ensures s.PushIntent ==>
      && r.Next.PushCooldownRemaining == t.PushCooldown
      && r.Next.PushBoostRemaining == t.PushBoostDuration
      && r.Next.AutoLookTimer == s.AutoLookTimer
    ensures !s.PushIntent ==>
      && (s.PushCooldownRemaining > 0.0 ==> r.Next.PushCooldownRemaining == s.PushCooldownRemaining - dt)
      && (s.PushCooldownRemaining <= 0.0 ==> r.Next.PushCooldownRemaining == s.PushCooldownRemaining)
      && (s.PushBoostRemaining > 0.0 ==> r.Next.PushBoostRemaining == s.PushBoostRemaining - dt)
      && (s.PushBoostRemaining <= 0.0 ==> r.Next.PushBoostRemaining == s.PushBoostRemaining)
      && (s.AutoLookTimer > 0.0 ==> r.Next.AutoLookTimer == s.AutoLookTimer - dt)
      && (s.AutoLookTimer <= 0.0 ==> r.Next.AutoLookTimer == s.AutoLookTimer)
    ensures var rule := SelectSpeedRule(s, t, dt);
      && r.Next.CurrentSpeed == Lerp(s.CurrentSpeed, rule.Target, rule.Rate)
      && (0.0 <= rule.Rate <= 1.0 ==> Between(s.CurrentSpeed, rule.Target, r.Next.CurrentSpeed))
    ensures r.ForwardInput == r.Next.CurrentSpeed && r.RightInput == s.MoveIntent.X
    ensures r.AutoLook <==> r.Next.AutoLookTimer <= 0.0
  {
    var rule := SelectSpeedRule(s, t, dt);
    var speed := Lerp(s.CurrentSpeed, rule.Target, rule.Rate);
    assert 0.0 <= rule.Rate <= 1.0 ==> Between(s.CurrentSpeed, rule.Target, speed) by {
      if 0.0 <= rule.Rate <= 1.0 { LerpWithinSegment(s.CurrentSpeed, rule.Target, rule.Rate); }
    }
    var timed :=
      if s.PushIntent then
        s.(PushIntent := false, Pushed := true,
           PushCooldownRemaining := t.PushCooldown, PushBoostRemaining := t.PushBoostDuration)
      else
        s.(PushCooldownRemaining := CountDown(s.PushCooldownRemaining, dt),
           PushBoostRemaining := CountDown(s.PushBoostRemaining, dt),
           AutoLookTimer := CountDown(s.AutoLookTimer, dt));
    var next := timed.(CurrentSpeed := speed, MoveIntent := ZeroVec);
    Frame(next, speed, s.MoveIntent.X, AutoLookFires(next))
  }

  /** The auto-look trigger: the camera recentres once no look input arrived for the delay. */
  predicate AutoLookFires(s: State) {
    s.AutoLookTimer <= 0.0
  }

  /**
   * Frame times for which every rule's rate is a fraction in [0, 1], so that
   * no frame overshoots its target.
   */
  predicate StableStep(t: Tuning, dt: real) {
    && 0.0 <= dt <= 1.0
    && 0.0 <= t.PushMultiplier * dt <= 1.0
    && 0.0 <= t.DefaultMultiplier * dt <= 1.0
    && 0.0 <= t.BrakeMultiplier * dt <= 1.0
  }

  lemma StableStepRate(s: State, t: Tuning, dt: real)
    requires StableStep(t, dt)
    ensures 0.0 <= SelectSpeedRule(s, t, dt).Rate <= 1.0
  {
  }

  /** Under the default tuning, a frame is stable exactly when it lasts at most 1/11 s. */
  lemma DefaultStableStep(dt: real)
    ensures StableStep(DefaultTuning, dt) <==> 0.0 <= dt <= 1.0 / 11.0
  {
  }

  /**
   * Off push frames, with no forward input and a chosen rate in [0, 1], speed
   * decays towards zero: it never grows and never changes sign.
   */
  lemma CoastingAndBrakingNeverReverse(s: State, t: Tuning, dt: real)
    requires !s.PushIntent && s.MoveIntent.Y <= 0.0 && 0.0 <= s.CurrentSpeed
    requires 0.0 <= SelectSpeedRule(s, t, dt).Rate <= 1.0
    ensures 0.0 <= Tick(s, t, dt).Next.CurrentSpeed <= s.CurrentSpeed
  {
  }

  /**
   * A push frame does not look at the sign of the forward input: pushing while
   * holding backward drives a standing character to a negative speed.
   */
  lemma PushWithBackwardInputReverses()
    ensures var s := Initial.(PushIntent := true, MoveIntent := Vec2(0.0, -1.0));
      Tick(s, DefaultTuning, 0.05).Next.CurrentSpeed == -0.55
  {
  }

  /** From the initial state a push at jump count 0 is accepted: the cooldown starts at 0. */
  lemma InitialPushAccepted()
    ensures Push(Initial, 0).PushIntent
  {
  }

  /** From the initial state auto-look runs on the first frame: its timer starts at 0. */
  lemma InitialAutoLookActive(t: Tuning, dt: real)
    ensures Tick(Initial, t, dt).AutoLook
  {
  }
}
