# Parkour character controllers: the movement state machine

This project models the discrete movement-state machine of the two kinematic
character controllers of a Unity parkour game, and proves properties of it.

- `Assets/Scripts/Player/SamCharacterController.cs` is the main controller. It has impulse jumps, including double and
  wall jumps; a variable-hold jump with a charged launch off ledges;
  crouching and sliding; a one-shot additive-velocity queue; and two
  character states, `ParkourMode` and `PhoneMode`. In `PhoneMode` every
  modelled callback except `JumpCancelled` and `TransitionToState` does
  nothing.
- `Assets/Sam/KinematicCharacterController/WalkthroughFollowing/SamCharacterController.cs` is a simpler walkthrough draft of the same controller. It has impulse jumps, the
  additive-velocity queue and a crouch toggle that swaps between two capsule
  presets.

The project has four modules:

- `UnityMath` (`unity_math.dfy`): vectors over exact reals, plus the
  `Mathf` helpers the controllers use (`Clamp`, `Clamp01`, `Lerp`,
  `InverseLerp`, `Approximately`) and `Vector3.Project`.
- `JumpPolicy` (`jump_policy.dfy`): the jump bookkeeping both controllers
  share, as pure functions on a `JumpState` record.
  - It covers the request, consumed and double-jump-consumed flags, wall-jump
    arming, and the pre- and post-grounding ("coyote") grace timers.
  - Lemmas about runs of presses and physics ticks state the multi-tick
    properties.
  - It also holds the symbolic velocity, `Velocity`. A velocity update is
    recorded as the list of kicks, boosts and additions the callback
    applied; `Value` evaluates that list with the vector maths.
- `ParkourCharacter` (`parkour_controller.dfy`): the main controller, as a
  class whose fields are the controller's private fields. Each input and
  motor callback is a method. Its `ensures` tie the new fields to the
  `JumpPolicy` functions and to the pure functions beside the class. A
  `Valid` invariant is kept by every callback.
- `WalkthroughCharacter` (`walkthrough_controller.dfy`): the draft, built
  the same way.

Engine queries become callback parameters:

- the grounding snapshot (`IsStableOnGround`, `FoundAnyGround`,
  `GroundNormal`);
- the character's up axis and the motor speed;
- `Time.time`, `Time.deltaTime` and `Time.fixedDeltaTime`;
- the outcomes of the three ledge raycasts of the launch check;
- the overlap count of the uncrouch test.

The ground and air velocity blending is not modelled. The velocity callback
receives its result as `blendedVelocity`.

The seven jump fields of each controller are grouped into one record field,
`jump`:

| source field | model |
|---|---|
| `_jumpRequested` | `jump.requested` |
| `_jumpConsumed` | `jump.consumed` |
| `_doubleJumpConsumed` | `jump.doubleJumpConsumed` |
| `_jumpedThisFrame` | `jump.jumpedThisFrame` |
| `_canWallJump` | `jump.canWallJump` |
| `_timeSinceJumpRequested` | `jump.sinceRequested` |
| `_timeSinceLastAbleToJump` | `jump.sinceAbleToJump` |

The other private fields keep their names, without the underscore.

Behaviour of the code that the model keeps as written:

- **Hold direction.** A variable-hold charge gives the *minimum* scaled speed
  at a zero hold and the *maximum* at the cap (`ChargeStartsAtMin`,
  `ChargeAtCapIsMax`, `ChargeMonotone`).
- **No double jump in the main controller.** Its jump press clears the
  consumed flag, so a pending request is never consumed
  (`PendingUnconsumed`, the first conjunct of `Valid`). The double-jump
  branch of the impulse jump therefore never fires
  (`NoDoubleJumpWhenPressClearsConsumed`), and in
  `HandleImpulseJump` that branch is an `assert false`. The draft's press
  leaves the flag alone, and there the double jump does fire
  (`DoubleJumpNeedsAConsumedJump`).
- **Second primary jump in mid-air.** Because the main controller's press
  clears the consumed flag, a press within the post-grounding grace time
  after a jump off the ground fires the primary jump a second time, in the
  air. The draft refuses that jump (`SecondPrimaryJumpWithinGrace`).
- **Double and wall jump in one tick.** In the shared jump policy both can
  fire in the same update (`DoubleAndWallJumpTogether`). This is reachable in
  the draft; in the main controller the double jump never fires.
- **Default jump direction.** It is the ground normal in the main controller
  and the character's up axis in the draft (`JumpDirectionsOfTheDrafts`).
- **Unguarded jump release.** `JumpCancelled` is not dispatched on the
  character state, so it also acts in `PhoneMode`.
- **Jump button released by the launch cap.** When the launch hold reaches
  its cap, the jump button (not the launch button) is released.
- **Velocity queue in the variable-hold mode.** There the main controller
  drains the additive-velocity queue only inside the jump-charge and
  launch-charge blocks, so a velocity queued by `AddVelocity` waits for the
  next charged tick (`VariableJumpPhase`, `LaunchPhase`).
- **Crouch bindings.** The main controller's crouch callback is bound to
  both press and release, so each of them toggles. The draft's is bound to
  the press only.

## Model

| member | source | states |
|---|---|---|
| UnityMath.Project | Assets/Scripts/Player/SamCharacterController.cs:788 | `Vector3.Project` is zero for a (nearly) zero normal |
| UnityMath.ProjectResidualOrthogonal | Assets/Scripts/Player/SamCharacterController.cs:788 | for a non-degenerate normal, what `Vector3.Project` leaves of the velocity is orthogonal to the normal; along a unit normal the projection is the normal scaled by the speed along it |
| UnityMath.Clamp | Assets/Scripts/Player/SamCharacterController.cs:871 | the result lies in `[min, max]`, is the value inside the interval and the violated bound outside it |
| UnityMath.Clamp01 | Assets/Scripts/Player/SamCharacterController.cs:702 | the result lies in `[0, 1]` and is the input inside it |
| UnityMath.Lerp | Assets/Scripts/Player/SamCharacterController.cs:882 | the result lies between the endpoints, is `a` for `t <= 0` and `b` for `t >= 1` |
| UnityMath.InverseLerp | Assets/Scripts/Player/SamCharacterController.cs:882 | the result is a fraction in `[0, 1]`: 0 at `a`, 1 at `b`, 0 for a degenerate interval |
| UnityMath.LerpAntitone | Assets/Scripts/Player/SamCharacterController.cs:882-884 | `Lerp` towards a smaller endpoint shrinks as `t` grows |
| UnityMath.InverseLerpMonotone | Assets/Scripts/Player/SamCharacterController.cs:882-884 | `InverseLerp` over an increasing interval is monotone in its value |
| UnityMath.ApproximatelyReflexive | Assets/Scripts/Player/SamCharacterController.cs:873 | a value is approximately equal to itself (used by `ChargeJump` for the release at the cap) |
| JumpPolicy.ProcessRequest | Assets/Scripts/Player/SamCharacterController.cs:776-826 | a double jump fires iff a request is pending and its guard holds (double jumps allowed, jump consumed, double jump unused, airborne); the primary jump fires iff a request is pending and it has a wall contact or an unconsumed jump on jumpable ground or within the post-grounding grace |
| JumpPolicy.JumpEffects | Assets/Scripts/Player/SamCharacterController.cs:783-820 | a double jump sets its flag and clears the request; a primary jump marks the jump consumed and clears the request; either marks the tick; otherwise the request stays; the request timer grows by the step |
| JumpPolicy.WallJumpClearedByRequest | Assets/Scripts/Player/SamCharacterController.cs:825 | every processed request drops the wall-jump chance; without a request only the tick flag and the request timer change |
| JumpPolicy.DoubleAndWallJumpTogether | Assets/Sam/KinematicCharacterController/WalkthroughFollowing/SamCharacterController.cs:251-294 | in the shared policy (reachable in the draft), a pending wall jump fires in the same update as a double jump, since the primary gate is taken after the double jump |
| JumpPolicy.ThirdJumpRejected | Assets/Scripts/Player/SamCharacterController.cs:783-798 | after both jumps are used, without a wall contact nothing fires |
| JumpPolicy.AfterUpdateEffects | Assets/Scripts/Player/SamCharacterController.cs:1025-1045 | a request survives only while not older than the pre-grounding grace; jumpable ground resets both consumed flags unless a jump fired this tick and restarts the grace timer; otherwise the timer grows by the step |
| JumpPolicy.AtMostOneDoubleJumpPerAirborneSpell | Assets/Scripts/Player/SamCharacterController.cs:783-792 | while no tick ends on jumpable ground, at most one double jump fires, and none once it was used |
| JumpPolicy.PendingUnconsumedPreserved | Assets/Scripts/Player/SamCharacterController.cs:395-401 | "a pending request is unconsumed" survives a clearing press, a velocity update and an after-update, and under it no double jump fires |
| JumpPolicy.NoDoubleJumpWhenPressClearsConsumed | Assets/Scripts/Player/SamCharacterController.cs:783-792 | with a press that clears the consumed flag, no run of inputs ever fires a double jump |
| JumpPolicy.DoubleJumpNeedsAConsumedJump | Assets/Sam/KinematicCharacterController/WalkthroughFollowing/SamCharacterController.cs:147-152 | with the draft's press, a press in the air after a primary jump fires the double jump on the next tick; with the clearing press it does not |
| JumpPolicy.SecondPrimaryJumpWithinGrace | Assets/Scripts/Player/SamCharacterController.cs:391-408 | after a jump off the ground, a press within the post-grounding grace time fires a second primary jump in the air when the press clears the consumed flag, and not with the draft's press |
| JumpPolicy.AirborneTicksAccumulate | Assets/Scripts/Player/SamCharacterController.cs:1040-1044 | ticks spent off jumpable ground without a request add up in the time since the character could last jump and change no jump flag |
| JumpPolicy.CoyoteTime | Assets/Scripts/Player/SamCharacterController.cs:797 | `k` ticks of `dt` after leaving the ground, a press fires the primary jump iff `k * dt` is within the post-grounding grace |
| JumpPolicy.KickAlongUpSetsUpSpeed | Assets/Scripts/Player/SamCharacterController.cs:788 | with a unit up axis, a kick along the up axis leaves exactly the kick speed along it, whatever the vertical speed was before |
| JumpPolicy.ImpulseKicks | Assets/Sam/KinematicCharacterController/WalkthroughFollowing/SamCharacterController.cs:258-287 | with no jump fired, the velocity is unchanged |
| JumpPolicy.JumpDirectionsOfTheDrafts | Assets/Scripts/Player/SamCharacterController.cs:800-809 | both controllers jump off the wall normal or the unstable ground normal; elsewhere the main controller jumps along the ground normal and the draft along the up axis |
| JumpPolicy.DrainAddsOnce | Assets/Scripts/Player/SamCharacterController.cs:829-833 | draining adds the queued velocity exactly once and empties the queue, so a second drain adds nothing |
| ParkourCharacter.MaxGroundSpeed | Assets/Scripts/Player/SamCharacterController.cs:643-650 | the ground cap is the stable speed plus the slide speed while sliding, the crouch speed while crouching (not sliding), and the stable speed otherwise |
| ParkourCharacter.MaxAirSpeed | Assets/Scripts/Player/SamCharacterController.cs:671 | the air cap is the air speed plus the slide speed while sliding, and the air speed otherwise |
| ParkourCharacter.SlideBoostsSpeedCaps | Assets/Scripts/Player/SamCharacterController.cs:643-671 | sliding raises the ground and air caps by exactly the slide speed over the standing caps (so never below them for a non-negative slide speed); a crouch alone gives the crouch cap |
| ParkourCharacter.ChargeSpeed | Assets/Scripts/Player/SamCharacterController.cs:882-884 | a charged speed lies between the scaled minimum and maximum |
| ParkourCharacter.ChargeStartsAtMin | Assets/Scripts/Player/SamCharacterController.cs:882 | a zero hold charges the scaled minimum |
| ParkourCharacter.ChargeAtCapIsMax | Assets/Scripts/Player/SamCharacterController.cs:933-940 | a hold at a non-zero cap charges the scaled maximum |
| ParkourCharacter.ChargeMonotone | Assets/Scripts/Player/SamCharacterController.cs:882-884 | a longer hold never charges less |
| ParkourCharacter.HoldAfterReachesCap | Assets/Scripts/Player/SamCharacterController.cs:871 | after `n` held ticks the hold timer is `min(n * step, cap)` |
| ParkourCharacter.SlideDecay | Assets/Scripts/Player/SamCharacterController.cs:702 | a slide tick keeps a non-negative slide speed in `[0, speed]` and stops it once `rate * dt >= 1` |
| ParkourCharacter.SlideDecayRunBounded | Assets/Scripts/Player/SamCharacterController.cs:702-714 | over any number of slide ticks the slide speed stays within `[0, start]` |
| ParkourCharacter.ImpulseJumpVelocity | Assets/Scripts/Player/SamCharacterController.cs:816-817 | with no jump fired, the velocity is unchanged |
| ParkourCharacter.PrimaryJumpSetsUpSpeed | Assets/Scripts/Player/SamCharacterController.cs:816-817 | a primary jump along a unit up axis with a level move input leaves exactly the jump speed along the up axis |
| ParkourCharacter.VariableGuardWithinImpulseGuard | Assets/Scripts/Player/SamCharacterController.cs:848-852 | the variable-hold gate implies the impulse gate under the stable-ground policy, agrees with it without a wall contact, and is closed once the jump is consumed |
| ParkourCharacter.SamCharacterController.constructor | Assets/Scripts/Player/SamCharacterController.cs:301-308 | the initial fields: parkour mode, no request with the request timer at infinity, standing with the normal capsule, the slide speed at the slide gain, the launch button held, the last slide time, speeds and wall normal at zero; `Valid` holds |
| ParkourCharacter.SamCharacterController.TransitionToState | Assets/Scripts/Player/SamCharacterController.cs:314-320 | the state becomes the new state, and nothing else changes |
| ParkourCharacter.SamCharacterController.Jump | Assets/Scripts/Player/SamCharacterController.cs:391-408 | in parkour mode: a fresh request, the button held, the consumed flag cleared; in phone mode: nothing changes |
| ParkourCharacter.SamCharacterController.JumpCancelled | Assets/Scripts/Player/SamCharacterController.cs:410-416 | the button is released and the hold timer reset, in either state |
| ParkourCharacter.SamCharacterController.Crouch | Assets/Scripts/Player/SamCharacterController.cs:418-476 | the first press sets the crouch wish and holds the launch button; standing, a fast character slides if the cooldown has passed (stamping the slide time), and a slow one crouches; the next toggle clears the wish, ends the slide and restores the slide state; in phone mode nothing changes |
| ParkourCharacter.SamCharacterController.UpdateVelocity | Assets/Scripts/Player/SamCharacterController.cs:625-744 | in parkour mode: the speed cap of the old posture, the slide outcome, and the jump outcome of `HandleJump`; in phone mode: the given velocity, with nothing changed |
| ParkourCharacter.SamCharacterController.UpdateSpeedCaps | Assets/Scripts/Player/SamCharacterController.cs:633-671 | the ground cap on stable ground; the air cap in the air with a move input; no change otherwise |
| ParkourCharacter.SamCharacterController.SlideTick | Assets/Scripts/Player/SamCharacterController.cs:694-728 | while sliding, the slide speed decays, and the slide ends with the slide state restored once it reaches the minimum; when neither sliding nor crouching, the normal capsule |
| ParkourCharacter.SamCharacterController.HandleJump | Assets/Scripts/Player/SamCharacterController.cs:768-966 | the impulse branch is `ProcessRequest` plus the drained impulse velocity; the variable-hold branch advances the request timer and marks the tick exactly when its gate opens |
| ParkourCharacter.SamCharacterController.HandleImpulseJump | Assets/Scripts/Player/SamCharacterController.cs:773-835 | the jump fields become `ProcessRequest`'s; the velocity is the fired kicks, the forward boost and the queued velocity added once |
| ParkourCharacter.SamCharacterController.HandleVariableJump | Assets/Scripts/Player/SamCharacterController.cs:838-959 | the request timer grows, the tick is marked exactly when the variable-hold gate opens, and a released launch button leaves no launch active |
| ParkourCharacter.SamCharacterController.VariableJumpPhase | Assets/Scripts/Player/SamCharacterController.cs:840-895 | a request through the gate becomes a consumed jump straight up, otherwise only the timer and tick flag change; while held after the jump, the hold advances clamped to the cap, the button stays held iff the hold is not at the cap, the speeds are the charge of the hold, and the charged push and the drained queue give the velocity; otherwise the velocity, queue, hold, button and speeds are unchanged |
| ParkourCharacter.SamCharacterController.StartVariableJump | Assets/Scripts/Player/SamCharacterController.cs:840-866 | a request through the gate becomes a consumed jump straight up; otherwise only the timer and the tick flag change |
| ParkourCharacter.SamCharacterController.ChargeJump | Assets/Scripts/Player/SamCharacterController.cs:869-884 | the hold advances clamped to the cap; the button stays held iff the hold is not at the cap, so a step that reaches a non-negative cap releases it; up and forward speeds are the charge of the hold |
| ParkourCharacter.SamCharacterController.PushAndDrain | Assets/Scripts/Player/SamCharacterController.cs:886-894 | the kick, the forward push and the queued velocity, drained once |
| ParkourCharacter.SamCharacterController.DrainVelocityAdd | Assets/Scripts/Player/SamCharacterController.cs:829-833 | the queued velocity is added iff it is non-zero, and the queue is left empty |
| ParkourCharacter.SamCharacterController.LaunchPhase | Assets/Scripts/Player/SamCharacterController.cs:897-957 | an armed, unconsumed launch on stable ground fires upwards and is consumed; a push (launch hold clamped to its cap, launch speeds charged from it, jump speeds and jump button cleared at the cap) is applied exactly when a launch was active or fires now, otherwise the hold, speeds and button are unchanged; the launch stays active iff its button is held and it was, or is charging below the cap |
| ParkourCharacter.SamCharacterController.ActiveLaunch | Assets/Scripts/Player/SamCharacterController.cs:919-953 | an active launch: the launch hold advances clamped to its cap, the launch stays active iff below it, at the cap the jump speeds are zeroed and the jump button released, the launch speeds are the charge of the hold, and the push and the drained queue give the velocity; otherwise nothing changes |
| ParkourCharacter.SamCharacterController.CheckLaunchable | Assets/Scripts/Player/SamCharacterController.cs:972-1006 | a launch is armed, fresh and unconsumed, exactly when every launch condition holds; otherwise nothing changes |
| ParkourCharacter.SamCharacterController.FireLaunch | Assets/Scripts/Player/SamCharacterController.cs:897-917 | an armed, unconsumed launch on stable ground fires upwards, consuming the request and activating the launch; otherwise nothing changes |
| ParkourCharacter.SamCharacterController.ChargeLaunch | Assets/Scripts/Player/SamCharacterController.cs:919-940 | the launch hold advances clamped to the cap; the launch stays active iff below the cap; at the cap the jump speeds are zeroed and the jump button released; the launch speeds are the charge of the hold |
| ParkourCharacter.SamCharacterController.AfterCharacterUpdate | Assets/Scripts/Player/SamCharacterController.cs:1015-1076 | in parkour mode: the jump fields become `AfterUpdate`'s; a character that no longer wants to crouch stands up unless obstructed; in phone mode nothing changes |
| ParkourCharacter.SamCharacterController.UpdateJumpAfterMove | Assets/Scripts/Player/SamCharacterController.cs:1022-1045 | the jump fields become `AfterUpdate`'s |
| ParkourCharacter.SamCharacterController.TryUncrouch | Assets/Scripts/Player/SamCharacterController.cs:1049-1068 | with an overlap the crouched capsule stays; without one the character stands with the normal capsule |
| ParkourCharacter.SamCharacterController.OnMovementHit | Assets/Scripts/Player/SamCharacterController.cs:1097-1118 | a wall jump is armed off the hit normal exactly when in parkour mode, wall jumps are allowed, off stable ground and against an unstable surface; otherwise nothing changes |
| ParkourCharacter.SamCharacterController.AddVelocity | Assets/Scripts/Player/SamCharacterController.cs:1150-1164 | in parkour mode the velocity is added to the queue; in phone mode nothing changes |
| WalkthroughCharacter.DraftJumpVelocity | Assets/Sam/KinematicCharacterController/WalkthroughFollowing/SamCharacterController.cs:253-291 | with no jump fired, the velocity is unchanged |
| WalkthroughCharacter.DraftJumpSetsUpSpeed | Assets/Sam/KinematicCharacterController/WalkthroughFollowing/SamCharacterController.cs:258-287 | with a unit up axis, a jump off stable or no ground (with or without a double jump before it) or a lone double jump leaves exactly the jump speed along the up axis |
| WalkthroughCharacter.SamCharacterController.constructor | Assets/Sam/KinematicCharacterController/WalkthroughFollowing/SamCharacterController.cs:64-74 | no request with the timer at infinity, an empty queue, standing with the standing capsule |
| WalkthroughCharacter.SamCharacterController.Crouch | Assets/Sam/KinematicCharacterController/WalkthroughFollowing/SamCharacterController.cs:127-145 | the press toggles the crouch wish; the first press crouches with the crouched capsule at once; the capsule stays one of the two presets |
| WalkthroughCharacter.SamCharacterController.Jump | Assets/Sam/KinematicCharacterController/WalkthroughFollowing/SamCharacterController.cs:147-152 | a fresh request; the consumed flag is left alone |
| WalkthroughCharacter.SamCharacterController.UpdateVelocity | Assets/Sam/KinematicCharacterController/WalkthroughFollowing/SamCharacterController.cs:245-303 | the jump fields become `ProcessRequest`'s; the velocity is the fired kicks at the jump speed along the draft's jump direction, plus the queued velocity added once |
| WalkthroughCharacter.SamCharacterController.AfterCharacterUpdate | Assets/Sam/KinematicCharacterController/WalkthroughFollowing/SamCharacterController.cs:305-355 | the jump fields become `AfterUpdate`'s; a character that no longer wants to crouch stands up unless obstructed; the capsule stays one of the two presets |
| WalkthroughCharacter.SamCharacterController.UpdateJumpAfterMove | Assets/Sam/KinematicCharacterController/WalkthroughFollowing/SamCharacterController.cs:310-333 | the jump fields become `AfterUpdate`'s |
| WalkthroughCharacter.SamCharacterController.TryUncrouch | Assets/Sam/KinematicCharacterController/WalkthroughFollowing/SamCharacterController.cs:336-354 | with an overlap the crouched capsule is restored and the crouch kept; without one the standing capsule and no crouch |
| WalkthroughCharacter.SamCharacterController.OnMovementHit | Assets/Sam/KinematicCharacterController/WalkthroughFollowing/SamCharacterController.cs:368-377 | a wall jump is armed off the hit normal exactly when wall jumps are allowed, off stable ground and against an unstable surface; otherwise nothing changes |
| WalkthroughCharacter.SamCharacterController.AddVelocity | Assets/Sam/KinematicCharacterController/WalkthroughFollowing/SamCharacterController.cs:401-404 | the velocity is added to the queue |

## Left out

- **Rotation.** `UpdateRotation`, `HandleRotation`, `PostInputUpdate`,
  the orientation methods, and the character rotation of a wall jump
  (`Quaternion` maths).
- **Ground and air velocity blending.** Surface reorientation, the target
  speed lerp, air acceleration, gravity, drag and `ClampMagnitude`. These
  are vector numerics; the model takes their result as `blendedVelocity`.
- **Engine calls.** `ForceUnground`, the animator, `Debug` logging and
  drawing, `meshRoot.localScale`, input subscription, cursor and
  pause/exit handling, and the speed read-outs `_linearSpeed` and
  `_vectorVelocity`.
- **Engine queries.** `OnSlope`, the raycasts and the overlap test become
  boolean or count parameters.
- **Capsule dimensions of the main controller.** They are recorded as which
  of its two sizes was set last (`CapsuleSize`). Their numbers come from the
  motor at start.
- **Orientation sharpness.** It is recorded as which of its two values is in
  use (`OrientationSharpness`), because the restricted value is a division
  by a tuning value.
- **The draft's initial capsule.** The draft never sets its capsule before
  the first crouch. The model assumes the standing preset.
- **Floating point.** Single-precision arithmetic is modelled by exact reals.
  `sqrMagnitude > 0` is modelled as "the vector is non-zero", which is the
  same over the reals. Velocities are kept symbolic (`Velocity`), and their
  meaning is given by `Value`.
- **Order of the launch check.** The variable-hold jump runs it before
  clearing the tick flag and advancing the request timer; the source runs
  it after. The check neither reads nor writes the tick flag or the request
  timer, and writes only launch fields, so the outcome is the same.
- **Out-of-range character states.** The `default` branches that throw
  `ArgumentOutOfRangeException` are not modelled: `CharacterState` is a
  closed datatype, and only an explicit cast of an integer could produce
  such a value in the C# code.
- ParkourCharacter.SamCharacterController.HandleVariableJump: states the jump
  timer, the tick flag and launch deactivation, not the final velocity or the
  other fields. `VariableJumpPhase` and `LaunchPhase` state every field they
  change and their velocity, phase by phase. Composing the two contracts
  here made the proof too costly.
- ParkourCharacter.SamCharacterController.HandleJump: carries the same
  weaker variable-hold contract as `HandleVariableJump`.
- ParkourCharacter.SamCharacterController.UpdateVelocity: carries the same
  weaker variable-hold contract. It also does not restate the capsule and
  orientation effects of `SlideTick`.
