/**
 * The character object itself: its fields, updated in place by the input
 * handlers and the per-frame update exactly as the spec functions of
 * SkateLocomotion describe.
 */
module SkateCharacter {
  import opened EngineMath
  import opened SkateState
  import SkateLocomotion

  class SkateParkCharacter {
    // Tuning ("PlayerStats"), editable by designers, not changed by any handler.
    var DefaultMultiplier: real
    var PushMultiplier: real
    var BrakeMultiplier: real
    var MaxSpeed: real
    var MaxPushSpeed: real
    var TurnRate: real
    var AutoLookDelay: real
    var PushCooldown: real
    var PushBoostDuration: real

    // Locomotion state.
    var Pushed: bool
    var AutoLookTimer: real
    var PushCooldownRemaining: real
    var PushBoostRemaining: real
    var CurrentSpeed: real
    var PushIntent: bool
    var MoveIntent: Vec2

    /** The tuning fields as a value. */
    function CurrentTuning(): Tuning
      reads this
    {
      Tuning(DefaultMultiplier, PushMultiplier, BrakeMultiplier, MaxSpeed, MaxPushSpeed,
             TurnRate, AutoLookDelay, PushCooldown, PushBoostDuration)
    }

    /** The locomotion fields as a value. */
    function CurrentState(): State
      reads this
    {
      State(CurrentSpeed, PushCooldownRemaining, PushBoostRemaining, AutoLookTimer,
            PushIntent, Pushed, MoveIntent)
    }

    /** A new character has the default tuning and is at rest with every timer at 0. */
    constructor ()
      ensures CurrentTuning() == DefaultTuning
      ensures CurrentState() == Initial
    {
      DefaultMultiplier := 7.0;
      PushMultiplier := 11.0;
      BrakeMultiplier := 2.0;
      MaxSpeed := 0.65;
      MaxPushSpeed := 1.0;
      TurnRate := 0.001;
      AutoLookDelay := 5.0;
      PushCooldown := 3.0;
      PushBoostDuration := 2.0;
      Pushed := false;
      AutoLookTimer := 0.0;
      PushCooldownRemaining := 0.0;
      PushBoostRemaining := 0.0;
      CurrentSpeed := 0.0;
      PushIntent := false;
      MoveIntent := ZeroVec;
    }

    /** Records this frame's directional input if a controller possesses the character. */
    method Move(hasController: bool, x: real, y: real)
      modifies this
      ensures CurrentState() == SkateLocomotion.Move(old(CurrentState()), hasController, x, y)
      ensures CurrentTuning() == old(CurrentTuning())
    {
      if hasController {
        MoveIntent := MoveIntent.(Y := y);
        MoveIntent := MoveIntent.(X := x);
      }
    }

    /** Restarts the auto-look delay, with or without a controller. */
    method Look(hasController: bool)
      modifies this
      ensures CurrentState() == SkateLocomotion.Look(old(CurrentState()), old(CurrentTuning()), hasController)
      ensures CurrentTuning() == old(CurrentTuning())
    {
      AutoLookTimer := AutoLookDelay;
      // The yaw and pitch input given to the controller are engine calls.
    }

    /** Accepts a push while not jumping (jump count 0) once the cooldown has run out. */
    method Push(jumpCurrentCount: int)
      modifies this
      ensures CurrentState() == SkateLocomotion.Push(old(CurrentState()), jumpCurrentCount)
      ensures CurrentTuning() == old(CurrentTuning())
    {
      if PushCooldownRemaining <= 0.0 && jumpCurrentCount == 0 {
        PushIntent := true;
      }
    }

    /**
     * One frame of `dt` seconds; returns the scales passed to the engine along
     * the board's forward and right vectors and whether auto-look runs.
     */
    method Tick(dt: real) returns (forward: real, right: real, autoLook: bool)
      modifies this
      ensures var f := SkateLocomotion.Tick(old(CurrentState()), old(CurrentTuning()), dt);
        && CurrentState() == f.Next
        && forward == f.ForwardInput && right == f.RightInput && autoLook == f.AutoLook
      ensures CurrentTuning() == old(CurrentTuning())
    {
      if PushIntent {
        PushIntent := false;
        Pushed := true;
        CurrentSpeed := Lerp(CurrentSpeed, MoveIntent.Y * MaxPushSpeed, PushMultiplier * dt);
        PushCooldownRemaining := PushCooldown;
        PushBoostRemaining := PushBoostDuration;
      } else {
        ApproachTargetSpeed(dt);
        if PushCooldownRemaining > 0.0 {
          PushCooldownRemaining := PushCooldownRemaining - dt;
        }
        if PushBoostRemaining > 0.0 {
          PushBoostRemaining := PushBoostRemaining - dt;
        }
        if AutoLookTimer > 0.0 {
          AutoLookTimer := AutoLookTimer - dt;
        }
      }

      forward := CurrentSpeed;
      right := MoveIntent.X;
      MoveIntent := ZeroVec;
      autoLook := TickAutoLook(dt);
    }

    /**
     * The speed update of a frame without a pending push: boosted while the
     * boost lasts and there is forward input, otherwise towards the unboosted
     * cap, towards rest, or braking.
     */
    method ApproachTargetSpeed(dt: real)
      requires !PushIntent
      modifies this`CurrentSpeed
      ensures var rule := SkateLocomotion.SelectSpeedRule(old(CurrentState()), CurrentTuning(), dt);
        CurrentSpeed == Lerp(old(CurrentSpeed), rule.Target, rule.Rate)
    {
      ghost var rule := SkateLocomotion.SelectSpeedRule(CurrentState(), CurrentTuning(), dt);
      if MoveIntent.Y > 0.0 {
        if PushBoostRemaining > 0.0 && MoveIntent.Y > 0.0 {
          assert rule == SkateLocomotion.SpeedRule(MoveIntent.Y * MaxPushSpeed, PushMultiplier * dt);
          CurrentSpeed := Lerp(CurrentSpeed, MoveIntent.Y * MaxPushSpeed, PushMultiplier * dt);
        } else if CurrentSpeed > MaxSpeed * MoveIntent.Y {
          assert rule == SkateLocomotion.SpeedRule(MoveIntent.Y * MaxSpeed, dt);
          CurrentSpeed := Lerp(CurrentSpeed, MoveIntent.Y * MaxSpeed, dt);
        } else {
          assert rule == SkateLocomotion.SpeedRule(MoveIntent.Y * MaxSpeed, DefaultMultiplier * dt);
          CurrentSpeed := Lerp(CurrentSpeed, MoveIntent.Y * MaxSpeed, DefaultMultiplier * dt);
        }
      } else if MoveIntent.Y == 0.0 {
        CurrentSpeed := Lerp(CurrentSpeed, 0.0, dt);
      } else {
        CurrentSpeed := Lerp(CurrentSpeed, 0.0, BrakeMultiplier * dt);
      }
    }

    /** Whether the camera recentres this frame (the rotation itself is engine work). */
    method TickAutoLook(dt: real) returns (fires: bool)
      ensures fires <==> SkateLocomotion.AutoLookFires(CurrentState())
    {
      fires := AutoLookTimer <= 0.0;
    }
  }

  /** A new character accepts its first push at jump count 0 and then sets off boosted. */
  method FirstPushScenario() {
    var c := new SkateParkCharacter();
    c.Move(true, 0.0, 1.0);
    c.Push(0);
    assert c.PushIntent;
    var forward, right, autoLook := c.Tick(0.05);
    assert c.Pushed && !c.PushIntent && c.MoveIntent == ZeroVec;
    assert c.PushCooldownRemaining == 3.0 && c.PushBoostRemaining == 2.0;
    assert forward == 0.55 && autoLook;
    c.Push(0);
    assert !c.PushIntent;
  }
}
