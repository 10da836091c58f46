/**
 * The state and tuning of a skate-park character, with the default values
 * its declaration gives them. Engine floats are modelled as reals.
 */
module SkateState {

  /** A 2D input vector: X steers, Y is forward (> 0) or backward (< 0). */
  datatype Vec2 = Vec2(X: real, Y: real)

  const ZeroVec: Vec2 := Vec2(0.0, 0.0)

  /** The designer-editable tuning parameters ("PlayerStats"). */
  datatype Tuning = Tuning(
    DefaultMultiplier: real,  // rate factor when accelerating normally
    PushMultiplier: real,     // rate factor on a push frame and while boosted
    BrakeMultiplier: real,    // rate factor when braking (backward input)
    MaxSpeed: real,           // fraction of the movement component's top speed, unboosted
    MaxPushSpeed: real,       // the same fraction, boosted
    TurnRate: real,           // declared but not used by the locomotion update
    AutoLookDelay: real,      // seconds without look input before the camera recentres
    PushCooldown: real,       // seconds between accepted pushes
    PushBoostDuration: real)  // seconds the boosted curve lasts after a push

  /** The tuning the character is created with. */
  const DefaultTuning: Tuning := Tuning(
    DefaultMultiplier := 7.0,
    PushMultiplier := 11.0,
    BrakeMultiplier := 2.0,
    MaxSpeed := 0.65,
    MaxPushSpeed := 1.0,
    TurnRate := 0.001,
    AutoLookDelay := 5.0,
    PushCooldown := 3.0,
    PushBoostDuration := 2.0)

  /** The locomotion state that the input handlers and the per-frame update change. */
  datatype State = State(
    CurrentSpeed: real,           // persists across frames
    PushCooldownRemaining: real,  // countdown timers, decremented by the frame time
    PushBoostRemaining: real,
    AutoLookTimer: real,
    PushIntent: bool,             // a push was accepted and awaits the next frame
    Pushed: bool,                 // some push has fired
    MoveIntent: Vec2)             // this frame's directional input, cleared every frame

  /** The state the character is created with. */
  const Initial: State := State(
    CurrentSpeed := 0.0,
    PushCooldownRemaining := 0.0,
    PushBoostRemaining := 0.0,
    AutoLookTimer := 0.0,
    PushIntent := false,
    Pushed := false,
    MoveIntent := ZeroVec)

  /**
   * The default tuning orders the rates push > default > brake, keeps the
   * unboosted cap below the boosted one, and lets a boost end before the
   * cooldown does.
   */
  lemma DefaultTuningOrdering()
    ensures DefaultTuning.PushMultiplier > DefaultTuning.DefaultMultiplier > DefaultTuning.BrakeMultiplier > 0.0
    ensures 0.0 < DefaultTuning.MaxSpeed < DefaultTuning.MaxPushSpeed
    ensures DefaultTuning.PushCooldown > DefaultTuning.PushBoostDuration > 0.0
  {
  }
}
