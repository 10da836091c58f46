# Skate-park character locomotion

A model of the locomotion state machine of `ASkateParkCharacter`, the
third-person skateboarding character of the SkatePark project. The character
keeps a persistent forward speed (`CurrentSpeed`), three countdown timers
(`PushCooldownRemaining`, `PushBoostRemaining`, `AutoLookTimer`), two one-shot
flags (`PushIntent`, `Pushed`) and one frame's directional input
(`MoveIntent`). Three input handlers record intent:

- `Move` stores the stick vector, but only while a controller possesses the character.
- `Look` restarts the auto-look delay.
- `Push` accepts a kick only while not jumping (jump count 0), and only after the cooldown has run out.

The per-frame `Tick` then does the following:

- It fires a pending push, or else counts the timers down.
- It moves the speed towards a target, at a rate chosen from the sign of the
  forward input and the boost timer.
- It hands the speed and the steering input to the engine's movement
  integrator.
- It clears the move intent.
- Once the auto-look timer has run out, it lets the camera recentre.

The project is organised as follows:

- `engine_math.dfy` (module `EngineMath`): the engine's linear interpolation,
  and the fact that it never overshoots.
- `skate_state.dfy` (module `SkateState`): the state, the designer tuning, and
  the values both start with.
- `locomotion.dfy` (module `SkateLocomotion`): each handler and the frame
  update as a function on values, with its effect on every field stated in
  its contract. Also the speed-rule selection and facts about single frames.
- `traces.dfy` (module `SkateTraces`): arbitrary sequences of handler calls
  and frames, and the invariants that hold along all of them.
- `character.dfy` (module `SkateCharacter`): the character as a class. Its
  fields are the header's fields, and its methods update them in place
  statement by statement, as the source does. Each method is proved to have
  exactly the effect of the matching function in `SkateLocomotion`.

The engine supplies two inputs, which are parameters here: whether a
controller is present, and the jump counter `JumpCurrentCount`. The frame
returns the two scalars passed to `AddMovementInput` and whether auto-look
runs.

Observations from the proofs:

- A push fires only once the cooldown is over. When the boost is no longer
  than the cooldown (the default is 2 s against 3 s), the boost has always
  ended by the time the next push can be accepted.
- Off push frames, with no forward input and a frame short enough that no
  rate exceeds 1, speed decays towards zero without changing sign. Under the
  default tuning that means a frame of at most 1/11 s.
- That decay does not hold on a push frame. There the target is the forward
  input times `MaxPushSpeed` whatever its sign, so a push while holding
  backward drives the character backwards (`PushWithBackwardInputReverses`).
- With stick input in [-1, 1] and such frames, the speed stays within
  ±`MaxPushSpeed`.

## Model

| member | source | states |
|---|---|---|
| `EngineMath.LerpWithinSegment` | Source/SkatePark/SkateParkCharacter.cpp:150-175 | the interpolation used by every speed update stays between the old speed and the target for a fraction in [0, 1], returning the old speed at 0 and the target at 1 |
| `SkateState.DefaultTuningOrdering` | Source/SkatePark/SkateParkCharacter.h:56-82 | default tuning: push rate 11 > default rate 7 > brake rate 2 > 0, 0 < MaxSpeed 0.65 < MaxPushSpeed 1, cooldown 3 > boost 2 > 0 |
| `SkateLocomotion.Move` | Source/SkatePark/SkateParkCharacter.cpp:109-118 | with a controller, MoveIntent becomes the input (X, Y); without one nothing changes; no other field is touched in either case |
| `SkateLocomotion.Look` | Source/SkatePark/SkateParkCharacter.cpp:120-132 | AutoLookTimer becomes AutoLookDelay whether or not a controller is present; no other field changes |
| `SkateLocomotion.Push` | Source/SkatePark/SkateParkCharacter.cpp:134-140 | PushIntent is set exactly when the cooldown is <= 0 and the jump count is 0 (or it was already set); otherwise the state is unchanged; no other field changes |
| `SkateLocomotion.SelectSpeedRule` | Source/SkatePark/SkateParkCharacter.cpp:146-176 | the target and rate per situation: boosted curve (push frame, or boost running with forward input) Y·MaxPushSpeed at PushMultiplier·dt; forward above the cap Y·MaxSpeed at dt; forward at most the cap Y·MaxSpeed at DefaultMultiplier·dt; no input 0 at dt; backward 0 at BrakeMultiplier·dt |
| `SkateLocomotion.Tick` | Source/SkatePark/SkateParkCharacter.cpp:142-196 | after any frame MoveIntent is (0, 0) and PushIntent is false, and Pushed is set iff it was set or a push was pending. A push frame sets the cooldown to PushCooldown and the boost to PushBoostDuration and leaves AutoLookTimer alone. Any other frame lowers each timer by exactly dt if it was > 0 and leaves it otherwise. The new speed is the interpolation by the selected rule and lies between the old speed and the target when the rate is in [0, 1]. The movement inputs are the new speed and the old MoveIntent.X. Auto-look fires iff the new AutoLookTimer is <= 0 |
| `SkateLocomotion.StableStepRate` | Source/SkatePark/SkateParkCharacter.cpp:150-175 | when dt and every multiplier times dt lie in [0, 1], the selected rate lies in [0, 1] |
| `SkateLocomotion.DefaultStableStep` | Source/SkatePark/SkateParkCharacter.h:56-62 | under the default tuning no rate exceeds 1 exactly when 0 <= dt <= 1/11 |
| `SkateLocomotion.CoastingAndBrakingNeverReverse` | Source/SkatePark/SkateParkCharacter.cpp:169-176 | off push frames, with forward input <= 0, a non-negative speed and a selected rate in [0, 1], the new speed is between 0 and the old speed |
| `SkateLocomotion.PushWithBackwardInputReverses` | Source/SkatePark/SkateParkCharacter.cpp:150 | a push frame from rest with input Y = -1 and dt = 0.05 under the default tuning gives speed -0.55 |
| `SkateLocomotion.InitialPushAccepted` | Source/SkatePark/SkateParkCharacter.h:107 | from the initial state a push with jump count 0 is accepted, because the cooldown starts at 0 |
| `SkateLocomotion.InitialAutoLookActive` | Source/SkatePark/SkateParkCharacter.cpp:194-197 | from the initial state auto-look fires on the first frame, for every tuning and dt, because the timer starts at 0 |
| `SkateTraces.InitialTimerInvariant` | Source/SkatePark/SkateParkCharacter.h:104-116 | the initial state satisfies the timer invariant: no pending push, no running boost |
| `SkateTraces.StepKeepsTimerInvariant` | Source/SkatePark/SkateParkCharacter.cpp:134-183 | every handler call and frame preserves: a pending push has cooldown <= 0, and a running boost is behind the cooldown by at least PushCooldown - PushBoostDuration (given boost <= cooldown in the tuning) |
| `SkateTraces.RunKeepsTimerInvariant` | Source/SkatePark/SkateParkCharacter.cpp:134-183 | the timer invariant holds after any sequence of handler calls and frames |
| `SkateTraces.BoostEndsBeforeNextPush` | Source/SkatePark/SkateParkCharacter.cpp:136-181 | from the initial state, after any sequence of events, with PushBoostDuration <= PushCooldown: whenever a push can be accepted the boost has run out, and a pending push has cooldown and boost both <= 0 |
| `SkateTraces.DefaultBoostEndsBeforeNextPush` | Source/SkatePark/SkateParkCharacter.h:78-82 | the same for the default tuning (3 s cooldown, 2 s boost): whenever a push can be accepted the boost has run out, and a pending push has cooldown and boost both <= 0 |
| `SkateTraces.PushedStaysSet` | Source/SkatePark/SkateParkCharacter.cpp:149 | once Pushed is true, no sequence of handler calls and frames clears it |
| `SkateTraces.ScaledTargetWithinCap` | Source/SkatePark/SkateParkCharacter.cpp:150-175 | rest, the forward input times MaxSpeed, and any input in [-1, 1] times MaxPushSpeed all lie within ±MaxPushSpeed when 0 <= MaxSpeed <= MaxPushSpeed |
| `SkateTraces.TargetWithinCap` | Source/SkatePark/SkateParkCharacter.cpp:146-176 | every selected target lies within ±MaxPushSpeed for input in [-1, 1] |
| `SkateTraces.StepKeepsSpeedInvariant` | Source/SkatePark/SkateParkCharacter.cpp:109-183 | a handler call with Y in [-1, 1], or a stable frame, keeps the speed within ±MaxPushSpeed and the stored Y in [-1, 1] |
| `SkateTraces.RunKeepsSpeedWithinCap` | Source/SkatePark/SkateParkCharacter.cpp:109-183 | the speed bound holds after any sequence of such events |
| `SkateTraces.DefaultSpeedWithinCap` | Source/SkatePark/SkateParkCharacter.h:56-69 | from the initial state with the default tuning, bounded input and frames of at most 1/11 s keep the speed in [-1, 1] |
| `SkateCharacter.SkateParkCharacter.constructor` | Source/SkatePark/SkateParkCharacter.h:56-119 | a new character has the default tuning and the initial state: speed 0, every timer 0, both flags false, MoveIntent (0, 0) |
| `SkateCharacter.SkateParkCharacter.Move` | Source/SkatePark/SkateParkCharacter.cpp:109-118 | updates the fields exactly as `SkateLocomotion.Move`; tuning unchanged |
| `SkateCharacter.SkateParkCharacter.Look` | Source/SkatePark/SkateParkCharacter.cpp:120-132 | updates the fields exactly as `SkateLocomotion.Look`; tuning unchanged |
| `SkateCharacter.SkateParkCharacter.Push` | Source/SkatePark/SkateParkCharacter.cpp:134-140 | updates the fields exactly as `SkateLocomotion.Push`; tuning unchanged |
| `SkateCharacter.SkateParkCharacter.Tick` | Source/SkatePark/SkateParkCharacter.cpp:142-192 | updates the fields and returns the movement inputs and the auto-look trigger exactly as `SkateLocomotion.Tick`; tuning unchanged |
| `SkateCharacter.SkateParkCharacter.ApproachTargetSpeed` | Source/SkatePark/SkateParkCharacter.cpp:156-176 | on a frame without a pending push, the new speed is the interpolation by `SelectSpeedRule`; only the speed changes |
| `SkateCharacter.SkateParkCharacter.TickAutoLook` | Source/SkatePark/SkateParkCharacter.cpp:194-201 | auto-look fires exactly when AutoLookTimer <= 0 |

## Left out

- Component set-up in the constructor is engine configuration: capsule, movement-component constants, camera boom, follow camera, skate mesh.
- Input-mapping registration in `BeginPlay` and action binding in `SetupPlayerInputComponent` are engine input plumbing.
- `PrepareJump` and `LineTraceBelow` depend on a line trace that a blueprint overrides, and on on-screen debug output.
- In `Look`, the yaw and pitch input given to the controller is an engine call; only the timer reset is modelled.
- In `TickAutoLook`, the rotation interpolation and `SetControlRotation` are engine rotator maths; only the `AutoLookTimer <= 0` trigger is modelled. Its `DeltaTime` parameter is kept but unused.
- `AddMovementInput` is an engine call; the model returns the two scales it receives (the speed and `MoveIntent.X`) from the frame instead.
- `Super::Tick`, the source of `JumpCurrentCount` and the `Controller` pointer belong to the engine; the latter two become parameters.
- IEEE single-precision rounding is not modelled. The float fields are reals, so `0.65f` is taken as exactly 0.65.
- Blueprint writes are outside the `Event` type. The header exposes `Pushed`, the three timers, `CurrentSpeed` and every tuning field as Blueprint-writable, and a derived Blueprint exists. The trace lemmas (`PushedStaysSet`, `BoostEndsBeforeNextPush`, `RunKeepsSpeedWithinCap`) therefore speak only of the four C++ entry points, with one tuning held fixed over the whole run.
- `SkateLocomotion.Tick`: the auto-look rotation calls `GetController()->SetControlRotation` without the controller check that `Move` and `Look` make. The model's `AutoLook` output reports only that the trigger fires; it does not model that a character without a controller dereferences a null controller on such a frame. Since the timer starts at 0, that includes the first frame (`InitialAutoLookActive`).
- `SkateParkGameMode` only looks up a blueprint pawn class. It is not part of this model.
- `SkateCharacter.SkateParkCharacter.Tick`: the speed update of a non-push frame (the nested branches of the source) is a separate method, `ApproachTargetSpeed`, which the frame calls. The statements and branch order are those of the source.
