/** The parkour character controller: the discrete state of the main
    kinematic character controller (jump and double jump, the variable-hold
    jump and the ledge launch, crouching and sliding, the additive-velocity
    queue) and its two character states, the second of which (`PhoneMode`)
    ignores every callback.

    Engine queries are parameters of the callbacks: the grounding snapshot,
    the character's up axis, the motor speed, `Time.time` and the clocks,
    the ledge raycast outcomes and the uncrouch overlap count. The ground
    and air velocity blending is not modelled; the velocity callback takes
    its result as `blendedVelocity`. */
module ParkourCharacter {
  import opened UnityMath
  import opened JumpPolicy

  datatype CharacterState = ParkourMode | PhoneMode

  datatype JumpType = Impulse | VariableHold

  /** The two capsule dimension sets: the motor's dimensions recorded at
      start, and the crouched dimensions derived from them. */
  datatype CapsuleSize = NormalCapsule | CrouchedCapsule

  /** The orientation sharpness in use: the configured towards-movement
      sharpness, or that sharpness divided by the slide restriction. */
  datatype OrientationSharpness = TowardsMovementSharpness | SlideRestrictedSharpness

  /** The clocks a physics tick reads: the motor's step, `Time.deltaTime`
      (slide decay) and `Time.fixedDeltaTime` (hold timers). */
  datatype Clock = Clock(deltaTime: real, frameDeltaTime: real, fixedDeltaTime: real)

  /** The three ledge raycasts of the launch check: a surface below within
      reach, an obstacle ahead along that surface, and floor found below the
      point past the ledge. */
  datatype LedgeProbe = LedgeProbe(surfaceBelow: bool, forwardBlocked: bool, floorBeyondLedge: bool)

  /** The inspector tuning that the state machine reads. */
  datatype Config = Config(
    allowJumpingWhenSliding: bool,
    allowWallJump: bool,
    allowDoubleJump: bool,
    jumpScaleMultiplier: real,
    minJumpScalableUpSpeed: real,
    maxJumpScalableUpSpeed: real,
    minJumpScalableForwardSpeed: real,
    maxJumpScalableForwardSpeed: real,
    jumpPreGroundingGraceTime: real,
    jumpPostGroundingGraceTime: real,
    jumpType: JumpType,
    timeForMaxHeightJump: real,
    enableLaunching: bool,
    minPlayerVelocityToLaunch: real,
    timeForMaxDistanceLaunch: real,
    launchScaleMultiplier: real,
    minLaunchScalableUpSpeed: real,
    maxLaunchScalableUpSpeed: real,
    minLaunchScalableForwardSpeed: real,
    maxLaunchScalableForwardSpeed: real,
    maxStableMoveSpeed: real,
    maxAirMoveSpeed: real,
    maxCrouchSpeed: real,
    startSlideSpeedThreshold: real,
    slideSpeedGain: real,
    minimumSlideSpeed: real,
    slideCooldownTime: real,
    decelerationRate: real)
  {
    function Rules(): JumpRules {
      JumpRules(allowJumpingWhenSliding, allowDoubleJump, jumpPreGroundingGraceTime, jumpPostGroundingGraceTime)
    }
  }

  // ---------------------------------------------------------------------
  // Pure parts of the controller

  /** The ground speed cap: the stable speed plus the slide boost while
      sliding, the crouch speed while crouching, the stable speed otherwise. */
  function MaxGroundSpeed(c: Config, isSliding: bool, isCrouching: bool, slideSpeed: real): (cap: real)
    ensures isSliding ==> cap == c.maxStableMoveSpeed + slideSpeed
    ensures !isSliding && isCrouching ==> cap == c.maxCrouchSpeed
    ensures !isSliding && !isCrouching ==> cap == c.maxStableMoveSpeed
  {
    if !isSliding then (if isCrouching then c.maxCrouchSpeed else c.maxStableMoveSpeed)
    else c.maxStableMoveSpeed + slideSpeed
  }

  /** The air speed cap, boosted by the slide speed while sliding. */
  function MaxAirSpeed(c: Config, isSliding: bool, slideSpeed: real): (cap: real)
    ensures isSliding ==> cap == c.maxAirMoveSpeed + slideSpeed
    ensures !isSliding ==> cap == c.maxAirMoveSpeed
  {
    if !isSliding then c.maxAirMoveSpeed else c.maxAirMoveSpeed + slideSpeed
  }

  /** Sliding raises both caps by exactly the slide speed over the standing
      caps, so with a non-negative slide speed a sliding character is never
      capped below a standing one, on the ground or in the air; crouch
      (without a slide) changes only the ground cap. */
  lemma SlideBoostsSpeedCaps(c: Config, isCrouching: bool, slideSpeed: real)
    ensures MaxGroundSpeed(c, true, isCrouching, slideSpeed) - MaxGroundSpeed(c, false, false, slideSpeed) == slideSpeed
    ensures MaxAirSpeed(c, true, slideSpeed) - MaxAirSpeed(c, false, slideSpeed) == slideSpeed
    ensures slideSpeed >= 0.0 ==>
      MaxGroundSpeed(c, true, isCrouching, slideSpeed) >= MaxGroundSpeed(c, false, false, slideSpeed)
      && MaxAirSpeed(c, true, slideSpeed) >= MaxAirSpeed(c, false, slideSpeed)
    ensures MaxGroundSpeed(c, false, true, slideSpeed) == c.maxCrouchSpeed
  {}

  /** A charged speed for a hold of `hold` seconds out of `capTime`:
      `Lerp(max * scale, min * scale, 1 - InverseLerp(0, capTime, hold))`.
      It always lies between the scaled bounds. */
  function ChargeSpeed(maxSpeed: real, minSpeed: real, scale: real, capTime: real, hold: real): (speed: real)
    ensures Min(maxSpeed * scale, minSpeed * scale) <= speed <= Max(maxSpeed * scale, minSpeed * scale)
  {
    Lerp(maxSpeed * scale, minSpeed * scale, 1.0 - InverseLerp(0.0, capTime, hold))
  }

  /** At a zero hold the charge gives the scaled minimum speed. */
  lemma ChargeStartsAtMin(maxSpeed: real, minSpeed: real, scale: real, capTime: real)
    ensures ChargeSpeed(maxSpeed, minSpeed, scale, capTime, 0.0) == minSpeed * scale
  {}

  /** A hold that has reached a non-zero cap gives the scaled maximum speed. */
  lemma ChargeAtCapIsMax(maxSpeed: real, minSpeed: real, scale: real, capTime: real)
    requires capTime != 0.0
    ensures ChargeSpeed(maxSpeed, minSpeed, scale, capTime, capTime) == maxSpeed * scale
  {}

  /** A longer hold never gives a smaller charged speed (for ordered bounds). */
  lemma ChargeMonotone(maxSpeed: real, minSpeed: real, scale: real, capTime: real, h1: real, h2: real)
    requires 0.0 < capTime
    requires minSpeed * scale <= maxSpeed * scale
    requires h1 <= h2
    ensures ChargeSpeed(maxSpeed, minSpeed, scale, capTime, h1) <= ChargeSpeed(maxSpeed, minSpeed, scale, capTime, h2)
  {
    InverseLerpMonotone(0.0, capTime, h1, h2);
    LerpAntitone(maxSpeed * scale, minSpeed * scale,
                 1.0 - InverseLerp(0.0, capTime, h2), 1.0 - InverseLerp(0.0, capTime, h1));
  }

  /** The hold timer after `n` held ticks starting from a released button:
      each tick adds the fixed step and clamps to `[0, capTime]`. */
  function HoldAfter(step: real, capTime: real, n: nat): real
    decreases n
  {
    if n == 0 then 0.0 else Clamp(HoldAfter(step, capTime, n - 1) + step, 0.0, capTime)
  }

  /** The hold timer grows by the step each tick until it sticks at the cap. */
  lemma {:induction false} HoldAfterReachesCap(step: real, capTime: real, n: nat)
    requires 0.0 <= step && 0.0 <= capTime
    ensures HoldAfter(step, capTime, n) == Min((n as real) * step, capTime)
    decreases n
  {
    if n > 0 {
      HoldAfterReachesCap(step, capTime, n - 1);
      var before := ((n - 1) as real) * step;
      assert (n as real) * step == before + step by {
        assert (n as real) == ((n - 1) as real) + 1.0;
      }
    }
  }

  /** One slide tick's decay: `Lerp(slideSpeed, 0, rate * dt)`. A
      non-negative slide speed stays non-negative and never grows. */
  function SlideDecay(slideSpeed: real, decelerationRate: real, dt: real): (next: real)
    ensures slideSpeed >= 0.0 ==> 0.0 <= next <= slideSpeed
    ensures decelerationRate * dt >= 1.0 ==> next == 0.0
  {
    Lerp(slideSpeed, 0.0, decelerationRate * dt)
  }

  /** The slide speed after decaying over the given steps. */
  function SlideDecayRun(slideSpeed: real, decelerationRate: real, dts: seq<real>): real
    decreases |dts|
  {
    if dts == [] then slideSpeed
    else SlideDecayRun(SlideDecay(slideSpeed, decelerationRate, dts[0]), decelerationRate, dts[1..])
  }

  /** Over any number of slide ticks, a non-negative slide speed stays
      within `[0, slideSpeed]`. */
  lemma {:induction false} SlideDecayRunBounded(slideSpeed: real, decelerationRate: real, dts: seq<real>)
    requires slideSpeed >= 0.0
    ensures 0.0 <= SlideDecayRun(slideSpeed, decelerationRate, dts) <= slideSpeed
    decreases |dts|
  {
    if dts != [] {
      SlideDecayRunBounded(SlideDecay(slideSpeed, decelerationRate, dts[0]), decelerationRate, dts[1..]);
    }
  }

  /** The impulse jump's velocity changes: the kicks that fired, and after
      a primary jump the forward boost along the move input. */
  function ImpulseJumpVelocity(e: Velocity, jumps: Jumps, characterUp: Vec3, direction: Vec3, upSpeed: real,
                               moveInput: Vec3, forwardSpeed: real): (r: Velocity)
    ensures !jumps.doubleJump && !jumps.primaryJump ==> r == e
  {
    var kicked := ImpulseKicks(e, jumps, characterUp, direction, upSpeed);
    if jumps.primaryJump then Boosted(kicked, moveInput, forwardSpeed) else kicked
  }

  /** A primary jump straight along a unit up axis, with a move input
      level with it, leaves exactly the jump speed along the up axis. */
  lemma PrimaryJumpSetsUpSpeed(e: Velocity, characterUp: Vec3, upSpeed: real, moveInput: Vec3, forwardSpeed: real)
    requires SqrMagnitude(characterUp) == 1.0 && Dot(moveInput, characterUp) == 0.0
    ensures Dot(Value(ImpulseJumpVelocity(e, Jumps(false, true), characterUp, characterUp, upSpeed,
                                          moveInput, forwardSpeed)), characterUp) == upSpeed
  {
    var kicked := Kick(Value(e), characterUp, upSpeed, characterUp);
    KickAlongUpSetsUpSpeed(Value(e), upSpeed, characterUp);
    DotAdd(kicked, Scale(moveInput, forwardSpeed), characterUp);
    DotScale(moveInput, forwardSpeed, characterUp);
  }

  /** The velocity changes of a charged jump or launch: the kick along the
      jump direction, then the forward push along the move input. */
  function ChargedPush(e: Velocity, direction: Vec3, upSpeed: real, characterUp: Vec3,
                       moveInput: Vec3, maxForwardSpeed: real, charge: real): Velocity {
    Pushed(Kicked(e, direction, upSpeed, characterUp), moveInput, maxForwardSpeed, charge)
  }

  /** The launch check: launching enabled, sliding, stable on ground, faster
      than the launch threshold, surface found below, nothing ahead, and no
      floor below the point past the ledge. */
  predicate Launchable(c: Config, isSliding: bool, isStableOnGround: bool, baseSpeed: real, probe: LedgeProbe) {
    c.enableLaunching && isSliding && isStableOnGround && baseSpeed > c.minPlayerVelocityToLaunch
    && probe.surfaceBelow && !probe.forwardBlocked && !probe.floorBeyondLedge
  }

  /** The variable-hold jump's gate: an unconsumed request on stable ground
      or within the post-grounding grace time. */
  predicate VariableJumpGuard(r: JumpRules, s: JumpState, g: Grounding) {
    s.requested && !s.consumed && (g.isStableOnGround || s.sinceAbleToJump <= r.jumpPostGroundingGraceTime)
  }

  /** The variable-hold gate is the impulse gate without its wall-jump and
      sliding-ground allowances: it implies the impulse gate, and with a
      stable-ground policy the two agree unless a wall jump is pending. */
  lemma VariableGuardWithinImpulseGuard(r: JumpRules, s: JumpState, g: Grounding)
    ensures !r.allowJumpingWhenSliding ==>
      (VariableJumpGuard(r, s, g) ==> s.requested && PrimaryJumpGuard(r, s, g))
    ensures !r.allowJumpingWhenSliding && !s.canWallJump ==>
      (VariableJumpGuard(r, s, g) <==> s.requested && PrimaryJumpGuard(r, s, g))
    ensures s.consumed ==> !VariableJumpGuard(r, s, g)
  {}

  // ---------------------------------------------------------------------
  // The controller

  class SamCharacterController {
    const config: Config
    var currentCharacterState: CharacterState

    // Jumping: the impulse bookkeeping (`_jumpRequested`, `_jumpConsumed`,
    // `_doubleJumpConsumed`, `_jumpedThisFrame`, `_canWallJump`,
    // `_timeSinceJumpRequested`, `_timeSinceLastAbleToJump`) as one record
    var jump: JumpState
    var wallJumpNormal: Vec3
    var jumpButtonHeld: bool
    var holdDurationJump: real
    var jumpUpSpeed: real
    var jumpForwardSpeed: real
    var jumpDirection: Vec3

    // Launch
    var launchRequested: bool
    var launchActivated: bool
    var launchButtonHeld: bool
    var launchConsumed: bool
    var launchUpSpeed: real
    var launchForwardSpeed: real
    var holdDurationLaunch: real
    var launchDirection: Vec3

    // Crouch and slide
    var shouldBeCrouching: bool
    var isCrouching: bool
    var capsule: CapsuleSize
    var isSliding: bool
    var internalSlideSpeed: real
    var lastSlideTime: real
    var orientationSharpness: OrientationSharpness

    // Movement
    var internalMaxSpeed: real
    var internalMaxAirSpeed: real
    var internalVelocityAdd: Vec3

    /** The hold timers stay within their caps. */
    predicate HoldInvariant()
      reads this`holdDurationJump, this`holdDurationLaunch
    {
      && (config.timeForMaxHeightJump >= 0.0 ==> 0.0 <= holdDurationJump <= config.timeForMaxHeightJump)
      && (config.timeForMaxDistanceLaunch >= 0.0 ==> 0.0 <= holdDurationLaunch <= config.timeForMaxDistanceLaunch)
    }

    /** An armed launch is not yet consumed. */
    predicate LaunchInvariant()
      reads this`launchRequested, this`launchConsumed
    {
      launchRequested ==> !launchConsumed
    }

    /** A slide happens only while the crouch input is held and not while
        crouched, crouching and sliding use the crouched capsule, and the
        slide speed stays non-negative. */
    predicate PostureInvariant()
      reads this`isSliding, this`shouldBeCrouching, this`isCrouching, this`capsule, this`internalSlideSpeed
    {
      && (isSliding ==> shouldBeCrouching && !isCrouching)
      && (isCrouching || isSliding ==> capsule == CrouchedCapsule)
      && (config.slideSpeedGain >= 0.0 ==> internalSlideSpeed >= 0.0)
    }

    /** What every callback preserves; the first conjunct (a pending jump
        request is never consumed) is what makes the double jump unreachable. */
    predicate Valid()
      reads this`jump, this`holdDurationJump, this`holdDurationLaunch,
            this`launchRequested, this`launchConsumed,
            this`isSliding, this`shouldBeCrouching, this`isCrouching, this`capsule, this`internalSlideSpeed
    {
      PendingUnconsumed(jump) && HoldInvariant() && LaunchInvariant() && PostureInvariant()
    }

    /** The field initialisers together with `Start`, which sets the slide
        speed to the slide gain and the orientation sharpness to the
        towards-movement value. */
    constructor (config: Config)
      ensures this.config == config && Valid()
      ensures currentCharacterState == ParkourMode
      ensures jump == Initial
      ensures !jumpButtonHeld && holdDurationJump == 0.0 && jumpDirection == Zero
      ensures !launchRequested && !launchActivated && launchButtonHeld && !launchConsumed
      ensures holdDurationLaunch == 0.0 && launchDirection == Zero
      ensures !shouldBeCrouching && !isCrouching && !isSliding && capsule == NormalCapsule
      ensures internalSlideSpeed == config.slideSpeedGain && orientationSharpness == TowardsMovementSharpness
      ensures lastSlideTime == 0.0 && wallJumpNormal == Zero
      ensures jumpUpSpeed == 0.0 && jumpForwardSpeed == 0.0 && launchUpSpeed == 0.0 && launchForwardSpeed == 0.0
      ensures internalMaxSpeed == 0.0 && internalMaxAirSpeed == 0.0
      ensures internalVelocityAdd == Zero
    {
      this.config := config;
      currentCharacterState := ParkourMode;
      jump := Initial;
      wallJumpNormal := Zero;
      jumpButtonHeld, holdDurationJump, jumpUpSpeed, jumpForwardSpeed := false, 0.0, 0.0, 0.0;
      jumpDirection := Zero;
      launchRequested, launchActivated, launchButtonHeld, launchConsumed := false, false, true, false;
      launchUpSpeed, launchForwardSpeed, holdDurationLaunch := 0.0, 0.0, 0.0;
      launchDirection := Zero;
      shouldBeCrouching, isCrouching, capsule := false, false, NormalCapsule;
      isSliding, internalSlideSpeed, lastSlideTime := false, config.slideSpeedGain, 0.0;
      orientationSharpness := TowardsMovementSharpness;
      internalMaxSpeed, internalMaxAirSpeed := 0.0, 0.0;
      internalVelocityAdd := Zero;
    }

    /** Switching the character state; the enter and exit hooks do nothing. */
    method TransitionToState(newState: CharacterState)
      requires Valid()
      modifies this`currentCharacterState
      ensures Valid()
      ensures currentCharacterState == newState
    {
      currentCharacterState := newState;
    }

    /** The jump press: in parkour mode it records a fresh request, holds
        the jump button and clears the consumed flag. */
    method Jump()
      requires Valid()
      modifies this`jump, this`jumpButtonHeld
      ensures Valid()
      ensures currentCharacterState == ParkourMode ==> jump == Press(old(jump), true) && jumpButtonHeld
      ensures currentCharacterState == PhoneMode ==> unchanged(this)
    {
      match currentCharacterState
      case ParkourMode =>
        jump := jump.(sinceRequested := Finite(0.0), requested := true);
        jumpButtonHeld := true;
        jump := jump.(consumed := false);
      case PhoneMode =>
    }

    /** The jump release, in either character state: the button is no
        longer held and the hold timer restarts. */
    method JumpCancelled()
      requires Valid()
      modifies this`jumpButtonHeld, this`holdDurationJump
      ensures Valid()
      ensures !jumpButtonHeld && holdDurationJump == 0.0
    {
      jumpButtonHeld := false;
      holdDurationJump := 0.0;
    }

    /** The crouch input, on press and on release alike. When the crouch is
        not yet wanted, it becomes wanted and, unless already crouched, a
        fast enough character starts a slide (once the cooldown since the
        last slide has passed) and a slower one crouches. When it is wanted,
        it is dropped, any slide ends and the slide state is restored. */
    method Crouch(motorSpeed: real, time: real)
      requires Valid()
      modifies this`shouldBeCrouching, this`launchButtonHeld, this`holdDurationLaunch, this`isSliding,
               this`capsule, this`lastSlideTime, this`isCrouching, this`internalSlideSpeed, this`orientationSharpness
      ensures Valid()
      ensures currentCharacterState == PhoneMode ==> unchanged(this)
      ensures currentCharacterState == ParkourMode && !old(shouldBeCrouching) ==>
        && shouldBeCrouching && launchButtonHeld && holdDurationLaunch == 0.0
        && internalSlideSpeed == old(internalSlideSpeed) && orientationSharpness == old(orientationSharpness)
      ensures currentCharacterState == ParkourMode && !old(shouldBeCrouching) && !old(isCrouching) ==>
        var slides := motorSpeed >= config.startSlideSpeedThreshold && time - old(lastSlideTime) >= config.slideCooldownTime;
        var crouches := motorSpeed < config.startSlideSpeedThreshold;
        && (isSliding <==> slides)
        && (isCrouching <==> crouches)
        && lastSlideTime == (if slides then time else old(lastSlideTime))
        && capsule == (if slides || crouches then CrouchedCapsule else old(capsule))
      ensures currentCharacterState == ParkourMode && !old(shouldBeCrouching) && old(isCrouching) ==>
        isCrouching && !isSliding && capsule == old(capsule) && lastSlideTime == old(lastSlideTime)
      ensures currentCharacterState == ParkourMode && old(shouldBeCrouching) ==>
        && !shouldBeCrouching && !launchButtonHeld && !isSliding && holdDurationLaunch == 0.0
        && internalSlideSpeed == config.slideSpeedGain && orientationSharpness == TowardsMovementSharpness
        && isCrouching == old(isCrouching) && capsule == old(capsule) && lastSlideTime == old(lastSlideTime)
    {
      match currentCharacterState
      case ParkourMode =>
        if !shouldBeCrouching {
          shouldBeCrouching := true;
          launchButtonHeld := true;
          holdDurationLaunch := 0.0;
          if !isCrouching {
            if motorSpeed >= config.startSlideSpeedThreshold {
              if time - lastSlideTime >= config.slideCooldownTime {
                isSliding := true;
                capsule := CrouchedCapsule;
                lastSlideTime := time;
              }
            } else {
              isCrouching := true;
              capsule := CrouchedCapsule;
            }
          }
        } else {
          shouldBeCrouching := false;
          launchButtonHeld := false;
          isSliding := false;
          internalSlideSpeed := config.slideSpeedGain;
          orientationSharpness := TowardsMovementSharpness;
          holdDurationLaunch := 0.0;
        }
      case PhoneMode =>
    }

    /** The velocity callback. In parkour mode it records the speed cap of
        the current movement mode, runs the slide section and then the jump
        handling of the configured jump type; in phone mode it leaves the
        velocity and every field alone. */
    method UpdateVelocity(currentVelocity: Vec3, blendedVelocity: Vec3, moveInput: Vec3, g: Grounding,
                          characterUp: Vec3, clock: Clock, baseSpeed: real, probe: LedgeProbe)
      returns (v: Velocity)
      requires Valid()
      modifies this`internalMaxSpeed, this`internalMaxAirSpeed,
               this`internalSlideSpeed, this`orientationSharpness, this`isSliding, this`capsule,
               this`jump, this`jumpUpSpeed, this`jumpForwardSpeed, this`internalVelocityAdd, this`jumpDirection,
               this`holdDurationJump, this`jumpButtonHeld,
               this`launchRequested, this`launchConsumed, this`launchDirection, this`launchActivated,
               this`holdDurationLaunch, this`launchUpSpeed, this`launchForwardSpeed
      ensures Valid()
      ensures currentCharacterState == PhoneMode ==> v == Given(currentVelocity) && unchanged(this)
      ensures currentCharacterState == ParkourMode && g.isStableOnGround ==>
        internalMaxSpeed == MaxGroundSpeed(config, old(isSliding), old(isCrouching), old(internalSlideSpeed))
      ensures currentCharacterState == ParkourMode && !g.isStableOnGround && HasMagnitude(moveInput) ==>
        internalMaxAirSpeed == MaxAirSpeed(config, old(isSliding), old(internalSlideSpeed))
      ensures currentCharacterState == ParkourMode ==>
        var decayed := SlideDecay(old(internalSlideSpeed), config.decelerationRate, clock.frameDeltaTime);
        && (isSliding <==> old(isSliding) && decayed > config.minimumSlideSpeed)
        && internalSlideSpeed == (if !old(isSliding) then old(internalSlideSpeed)
                                  else if decayed > config.minimumSlideSpeed then decayed
                                  else config.slideSpeedGain)
      ensures currentCharacterState == ParkourMode && config.jumpType == Impulse ==>
        var (s, jumps) := ProcessRequest(config.Rules(), old(jump), g, clock.deltaTime);
        && jump == s
        && (v, internalVelocityAdd) == Drain(ImpulseJumpVelocity(Given(blendedVelocity), jumps, characterUp,
                                                                 ParkourJumpDirection(old(jump).canWallJump, wallJumpNormal, g),
                                                                 config.maxJumpScalableUpSpeed, moveInput,
                                                                 config.maxJumpScalableForwardSpeed),
                                             old(internalVelocityAdd))
      ensures currentCharacterState == ParkourMode && config.jumpType == VariableHold ==>
        && jump.sinceRequested == old(jump).sinceRequested.Plus(clock.deltaTime)
        && (jump.jumpedThisFrame <==> VariableJumpGuard(config.Rules(), old(jump), g))
        && (!launchButtonHeld ==> !launchActivated)
    {
      match currentCharacterState
      case ParkourMode =>
        UpdateSpeedCaps(moveInput, g);
        SlideTick(clock.frameDeltaTime);
        v := HandleJump(Given(blendedVelocity), moveInput, g, characterUp, clock, baseSpeed, probe);
      case PhoneMode =>
        v := Given(currentVelocity);
    }

    /** The speed caps of the movement section: on stable ground the ground
        cap; in the air, with a move input, the air cap. */
    method UpdateSpeedCaps(moveInput: Vec3, g: Grounding)
      modifies this`internalMaxSpeed, this`internalMaxAirSpeed
      ensures g.isStableOnGround ==>
        internalMaxSpeed == MaxGroundSpeed(config, isSliding, isCrouching, internalSlideSpeed)
        && internalMaxAirSpeed == old(internalMaxAirSpeed)
      ensures !g.isStableOnGround && HasMagnitude(moveInput) ==>
        internalMaxAirSpeed == MaxAirSpeed(config, isSliding, internalSlideSpeed)
        && internalMaxSpeed == old(internalMaxSpeed)
      ensures !g.isStableOnGround && !HasMagnitude(moveInput) ==> unchanged(this)
    {
      if g.isStableOnGround {
        internalMaxSpeed := MaxGroundSpeed(config, isSliding, isCrouching, internalSlideSpeed);
      } else if HasMagnitude(moveInput) {
        internalMaxAirSpeed := MaxAirSpeed(config, isSliding, internalSlideSpeed);
      }
    }

    /** The jump handling, by the configured jump type. */
    method HandleJump(e: Velocity, moveInput: Vec3, g: Grounding, characterUp: Vec3, clock: Clock,
                      baseSpeed: real, probe: LedgeProbe)
      returns (w: Velocity)
      requires Valid()
      modifies this`jump, this`jumpUpSpeed, this`jumpForwardSpeed, this`internalVelocityAdd, this`jumpDirection,
               this`holdDurationJump, this`jumpButtonHeld,
               this`launchRequested, this`launchConsumed, this`launchDirection, this`launchActivated,
               this`holdDurationLaunch, this`launchUpSpeed, this`launchForwardSpeed
      ensures Valid()
      ensures config.jumpType == Impulse ==>
        var (s, jumps) := ProcessRequest(config.Rules(), old(jump), g, clock.deltaTime);
        && jump == s
        && (w, internalVelocityAdd) == Drain(ImpulseJumpVelocity(e, jumps, characterUp,
                                                                 ParkourJumpDirection(old(jump).canWallJump, wallJumpNormal, g),
                                                                 config.maxJumpScalableUpSpeed, moveInput,
                                                                 config.maxJumpScalableForwardSpeed),
                                             old(internalVelocityAdd))
      ensures config.jumpType == VariableHold ==>
        && jump.sinceRequested == old(jump).sinceRequested.Plus(clock.deltaTime)
        && (jump.jumpedThisFrame <==> VariableJumpGuard(config.Rules(), old(jump), g))
        && (!launchButtonHeld ==> !launchActivated)
    {
      match config.jumpType {
        case Impulse =>
          w := HandleImpulseJump(e, moveInput, g, characterUp, clock.deltaTime);
        case VariableHold =>
          w := HandleVariableJump(e, moveInput, g, characterUp, clock, baseSpeed, probe);
      }
    }

    /** The slide section: a sliding character's slide speed decays and its
        turning is restricted; once the speed has fallen to the minimum the
        slide ends and the slide state is restored. A character neither
        sliding nor crouching gets the normal capsule back. */
    method SlideTick(frameDeltaTime: real)
      requires Valid()
      modifies this`internalSlideSpeed, this`orientationSharpness, this`isSliding, this`capsule
      ensures Valid()
      ensures old(isSliding) ==>
        var decayed := SlideDecay(old(internalSlideSpeed), config.decelerationRate, frameDeltaTime);
        && capsule == old(capsule)
        && (decayed <= config.minimumSlideSpeed ==>
              !isSliding && internalSlideSpeed == config.slideSpeedGain
              && orientationSharpness == TowardsMovementSharpness)
        && (decayed > config.minimumSlideSpeed ==>
              isSliding && internalSlideSpeed == decayed && orientationSharpness == SlideRestrictedSharpness)
      ensures !old(isSliding) ==>
        && !isSliding && internalSlideSpeed == old(internalSlideSpeed)
        && orientationSharpness == old(orientationSharpness)
        && capsule == (if isCrouching then old(capsule) else NormalCapsule)
    {
      if isSliding {
        internalSlideSpeed := SlideDecay(internalSlideSpeed, config.decelerationRate, frameDeltaTime);
        orientationSharpness := SlideRestrictedSharpness;
        if internalSlideSpeed <= config.minimumSlideSpeed {
          isSliding := false;
          internalSlideSpeed := config.slideSpeedGain;
          orientationSharpness := TowardsMovementSharpness;
        }
      } else if !isCrouching {
        capsule := NormalCapsule;
      }
    }

    /** The impulse jump: the jump bookkeeping of `ProcessRequest`, the
        double-jump kick along the up axis, the primary kick along the jump
        direction plus the forward boost along the move input, and then the
        queued additive velocity, added once and cleared. */
    method HandleImpulseJump(e: Velocity, moveInput: Vec3, g: Grounding, characterUp: Vec3, deltaTime: real)
      returns (w: Velocity)
      requires Valid()
      modifies this`jumpUpSpeed, this`jump, this`internalVelocityAdd
      ensures Valid()
      ensures var (s, jumps) := ProcessRequest(config.Rules(), old(jump), g, deltaTime);
        && jump == s
        && (w, internalVelocityAdd) == Drain(ImpulseJumpVelocity(e, jumps, characterUp,
                                                                 ParkourJumpDirection(old(jump).canWallJump, wallJumpNormal, g),
                                                                 config.maxJumpScalableUpSpeed, moveInput,
                                                                 config.maxJumpScalableForwardSpeed),
                                             old(internalVelocityAdd))
      ensures jumpUpSpeed == config.maxJumpScalableUpSpeed
    {
      PendingUnconsumedPreserved(config.Rules(), jump, g, g, deltaTime);
      jumpUpSpeed := config.maxJumpScalableUpSpeed;
      jump := jump.(jumpedThisFrame := false, sinceRequested := jump.sinceRequested.Plus(deltaTime));
      w := e;
      if jump.requested {
        if config.allowDoubleJump {
          if jump.consumed && !jump.doubleJumpConsumed && AirborneForDoubleJump(config.allowJumpingWhenSliding, g) {
            // Dead: the press clears the consumed flag, so a pending request
            // is never consumed (the first conjunct of `Valid`); the C#
            // controller would kick along the up axis here.
            assert false;
          }
        }
        if jump.canWallJump
           || (!jump.consumed
               && (OnJumpableGround(config.allowJumpingWhenSliding, g)
                   || jump.sinceAbleToJump <= config.jumpPostGroundingGraceTime))
        {
          var jumpDirection := g.groundNormal;
          if jump.canWallJump {
            jumpDirection := wallJumpNormal;
          } else if g.foundAnyGround && !g.isStableOnGround {
            jumpDirection := g.groundNormal;
          }
          w := Kicked(w, jumpDirection, jumpUpSpeed, characterUp);
          w := Boosted(w, moveInput, config.maxJumpScalableForwardSpeed);
          jump := jump.(requested := false, consumed := true, jumpedThisFrame := true);
        }
        jump := jump.(canWallJump := false);
      }
      w := DrainVelocityAdd(w);
    }

    /** The variable-hold jump: the launch check while sliding, the jump
        phase and the launch phase. (The C# controller runs the launch check after
        clearing the tick flag and advancing the request timer; the check
        touches only the launch fields, so running it first is the same.) */
    method HandleVariableJump(e: Velocity, moveInput: Vec3, g: Grounding, characterUp: Vec3, clock: Clock,
                              baseSpeed: real, probe: LedgeProbe)
      returns (w: Velocity)
      requires Valid()
      modifies this`jump, this`jumpDirection, this`holdDurationJump, this`jumpUpSpeed, this`jumpForwardSpeed,
               this`jumpButtonHeld, this`internalVelocityAdd, this`launchRequested, this`launchConsumed,
               this`launchDirection, this`launchActivated, this`holdDurationLaunch, this`launchUpSpeed,
               this`launchForwardSpeed
      ensures Valid()
      ensures jump.sinceRequested == old(jump).sinceRequested.Plus(clock.deltaTime)
      ensures jump.jumpedThisFrame <==> VariableJumpGuard(config.Rules(), old(jump), g)
      ensures !launchButtonHeld ==> !launchActivated
    {
      if isSliding {
        CheckLaunchable(g, baseSpeed, probe);
      }
      w := VariableJumpPhase(e, moveInput, g, characterUp, clock);
      w := LaunchPhase(w, moveInput, g, characterUp, clock.fixedDeltaTime);
    }

    /** The jump phase of the variable-hold jump: the jump start, then,
        while the button is held after the jump, the charge and its push. */
    method VariableJumpPhase(e: Velocity, moveInput: Vec3, g: Grounding, characterUp: Vec3, clock: Clock)
      returns (w: Velocity)
      requires Valid()
      modifies this`jump, this`jumpDirection, this`holdDurationJump, this`jumpUpSpeed, this`jumpForwardSpeed,
               this`jumpButtonHeld, this`internalVelocityAdd
      ensures Valid()
      ensures jump.sinceRequested == old(jump).sinceRequested.Plus(clock.deltaTime)
      ensures jump.jumpedThisFrame <==> VariableJumpGuard(config.Rules(), old(jump), g)
      ensures old(jumpButtonHeld) && jump.consumed ==>
        (w, internalVelocityAdd) == Drain(ChargedPush(e, jumpDirection, jumpUpSpeed, characterUp, moveInput,
                                                      config.maxJumpScalableForwardSpeed, jumpForwardSpeed),
                                          old(internalVelocityAdd))
      ensures !(old(jumpButtonHeld) && jump.consumed) ==>
        w == e && internalVelocityAdd == old(internalVelocityAdd) && holdDurationJump == old(holdDurationJump)
      ensures var fires := VariableJumpGuard(config.Rules(), old(jump), g);
        var s0 := old(jump).(jumpedThisFrame := false, sinceRequested := old(jump).sinceRequested.Plus(clock.deltaTime));
        && (fires ==> jump == s0.(requested := false, consumed := true, jumpedThisFrame := true)
                      && jumpDirection == WorldUp)
        && (!fires ==> jump == s0 && jumpDirection == old(jumpDirection))
      ensures old(jumpButtonHeld) && jump.consumed ==>
        var capTime := config.timeForMaxHeightJump;
        && holdDurationJump == Clamp(old(holdDurationJump) + clock.fixedDeltaTime, 0.0, capTime)
        && (jumpButtonHeld <==> !Approximately(holdDurationJump, capTime))
        && jumpUpSpeed == ChargeSpeed(config.maxJumpScalableUpSpeed, config.minJumpScalableUpSpeed,
                                      config.jumpScaleMultiplier, capTime, holdDurationJump)
        && jumpForwardSpeed == ChargeSpeed(config.maxJumpScalableForwardSpeed, config.minJumpScalableForwardSpeed,
                                           config.jumpScaleMultiplier, capTime, holdDurationJump)
      ensures !(old(jumpButtonHeld) && jump.consumed) ==>
        jumpButtonHeld == old(jumpButtonHeld) && jumpUpSpeed == old(jumpUpSpeed)
        && jumpForwardSpeed == old(jumpForwardSpeed)
    {
      StartVariableJump(g, clock.deltaTime);
      w := e;
      if jumpButtonHeld && jump.consumed {
        ChargeJump(clock.fixedDeltaTime);
        w := PushAndDrain(w, jumpDirection, jumpUpSpeed, characterUp, moveInput,
                          config.maxJumpScalableForwardSpeed, jumpForwardSpeed);
      }
    }

    /** The launch phase of the variable-hold jump: firing an armed launch,
        the charge and push while it is active, and deactivation once the
        launch button is released. */
    method LaunchPhase(e: Velocity, moveInput: Vec3, g: Grounding, characterUp: Vec3, fixedDeltaTime: real)
      returns (w: Velocity)
      requires Valid()
      modifies this`holdDurationLaunch, this`jumpUpSpeed, this`jumpForwardSpeed, this`jumpButtonHeld,
               this`launchActivated, this`launchUpSpeed, this`launchForwardSpeed, this`internalVelocityAdd,
               this`launchDirection, this`launchRequested, this`launchConsumed
      ensures Valid()
      ensures !launchButtonHeld ==> !launchActivated
      ensures var charges := (old(launchConsumed) && old(launchActivated))
                             || (old(launchRequested) && !old(launchConsumed) && g.isStableOnGround);
        && (charges ==>
              (w, internalVelocityAdd) == Drain(ChargedPush(e, launchDirection, launchUpSpeed, characterUp, moveInput,
                                                            config.maxLaunchScalableForwardSpeed, launchForwardSpeed),
                                                old(internalVelocityAdd)))
        && (!charges ==> w == e && internalVelocityAdd == old(internalVelocityAdd))
      ensures var fires := old(launchRequested) && !old(launchConsumed) && g.isStableOnGround;
        && (fires ==> launchDirection == WorldUp && !launchRequested && launchConsumed)
        && (!fires ==> launchDirection == old(launchDirection) && launchRequested == old(launchRequested)
                       && launchConsumed == old(launchConsumed))
      ensures var charges := (old(launchConsumed) && old(launchActivated))
                             || (old(launchRequested) && !old(launchConsumed) && g.isStableOnGround);
        var capTime := config.timeForMaxDistanceLaunch;
        && (launchActivated <==> launchButtonHeld && (if charges then holdDurationLaunch < capTime else old(launchActivated)))
        && (charges ==>
              && holdDurationLaunch == Clamp(old(holdDurationLaunch) + fixedDeltaTime, 0.0, capTime)
              && (holdDurationLaunch >= capTime ==> jumpUpSpeed == 0.0 && jumpForwardSpeed == 0.0 && !jumpButtonHeld)
              && (holdDurationLaunch < capTime ==>
                    jumpUpSpeed == old(jumpUpSpeed) && jumpForwardSpeed == old(jumpForwardSpeed)
                    && jumpButtonHeld == old(jumpButtonHeld))
              && launchUpSpeed == ChargeSpeed(config.maxLaunchScalableUpSpeed, config.minLaunchScalableUpSpeed,
                                              config.launchScaleMultiplier, capTime, holdDurationLaunch)
              && launchForwardSpeed == ChargeSpeed(config.maxLaunchScalableForwardSpeed, config.minLaunchScalableForwardSpeed,
                                                   config.launchScaleMultiplier, capTime, holdDurationLaunch))
        && (!charges ==>
              && holdDurationLaunch == old(holdDurationLaunch)
              && jumpUpSpeed == old(jumpUpSpeed) && jumpForwardSpeed == old(jumpForwardSpeed)
              && jumpButtonHeld == old(jumpButtonHeld)
              && launchUpSpeed == old(launchUpSpeed) && launchForwardSpeed == old(launchForwardSpeed))
    {
      FireLaunch(g);
      w := ActiveLaunch(e, moveInput, characterUp, fixedDeltaTime);
      if !launchButtonHeld {
        launchActivated := false;
      }
    }

    /** An active launch: its charge, then its push. */
    method ActiveLaunch(e: Velocity, moveInput: Vec3, characterUp: Vec3, fixedDeltaTime: real)
      returns (w: Velocity)
      requires Valid()
      modifies this`holdDurationLaunch, this`jumpUpSpeed, this`jumpForwardSpeed, this`jumpButtonHeld,
               this`launchActivated, this`launchUpSpeed, this`launchForwardSpeed, this`internalVelocityAdd
      ensures Valid()
      ensures old(launchConsumed) && old(launchActivated) ==>
        (w, internalVelocityAdd) == Drain(ChargedPush(e, launchDirection, launchUpSpeed, characterUp, moveInput,
                                                      config.maxLaunchScalableForwardSpeed, launchForwardSpeed),
                                          old(internalVelocityAdd))
      ensures old(launchConsumed) && old(launchActivated) ==>
        var capTime := config.timeForMaxDistanceLaunch;
        && holdDurationLaunch == Clamp(old(holdDurationLaunch) + fixedDeltaTime, 0.0, capTime)
        && (launchActivated <==> holdDurationLaunch < capTime)
        && (holdDurationLaunch >= capTime ==> jumpUpSpeed == 0.0 && jumpForwardSpeed == 0.0 && !jumpButtonHeld)
        && (holdDurationLaunch < capTime ==>
              jumpUpSpeed == old(jumpUpSpeed) && jumpForwardSpeed == old(jumpForwardSpeed)
              && jumpButtonHeld == old(jumpButtonHeld))
        && launchUpSpeed == ChargeSpeed(config.maxLaunchScalableUpSpeed, config.minLaunchScalableUpSpeed,
                                        config.launchScaleMultiplier, capTime, holdDurationLaunch)
        && launchForwardSpeed == ChargeSpeed(config.maxLaunchScalableForwardSpeed, config.minLaunchScalableForwardSpeed,
                                             config.launchScaleMultiplier, capTime, holdDurationLaunch)
      ensures !(old(launchConsumed) && old(launchActivated)) ==>
        w == e && unchanged(this)
    {
      w := e;
      if launchConsumed && launchActivated {
        ChargeLaunch(fixedDeltaTime);
        w := PushAndDrain(w, launchDirection, launchUpSpeed, characterUp, moveInput,
                          config.maxLaunchScalableForwardSpeed, launchForwardSpeed);
      }
    }

    /** The start of a variable-hold jump: the tick flag is cleared, the
        request timer grows, and a request that passes the gate becomes a
        consumed jump straight up. */
    method StartVariableJump(g: Grounding, deltaTime: real)
      requires Valid()
      modifies this`jump, this`jumpDirection
      ensures Valid()
      ensures var fires := VariableJumpGuard(config.Rules(), old(jump), g);
        var s0 := old(jump).(jumpedThisFrame := false, sinceRequested := old(jump).sinceRequested.Plus(deltaTime));
        && (fires ==> jump == s0.(requested := false, consumed := true, jumpedThisFrame := true)
                      && jumpDirection == WorldUp)
        && (!fires ==> jump == s0 && jumpDirection == old(jumpDirection))
    {
      jump := jump.(jumpedThisFrame := false, sinceRequested := jump.sinceRequested.Plus(deltaTime));
      if jump.requested {
        if !jump.consumed {
          if g.isStableOnGround || jump.sinceAbleToJump <= config.jumpPostGroundingGraceTime {
            jumpDirection := WorldUp;
            jump := jump.(requested := false, consumed := true, jumpedThisFrame := true);
          }
        }
      }
    }

    /** The jump charge, while the button is held after the jump: the hold
        timer advances by the fixed step within `[0, timeForMaxHeightJump]`,
        a hold that has reached the cap releases the button, and the up and
        forward speeds are charged from the hold. */
    method ChargeJump(fixedDeltaTime: real)
      requires Valid()
      requires jumpButtonHeld && jump.consumed
      modifies this`holdDurationJump, this`jumpUpSpeed, this`jumpForwardSpeed, this`jumpButtonHeld
      ensures Valid()
      ensures var capTime := config.timeForMaxHeightJump;
        && holdDurationJump == Clamp(old(holdDurationJump) + fixedDeltaTime, 0.0, capTime)
        && (jumpButtonHeld <==> !Approximately(holdDurationJump, capTime))
        && jumpUpSpeed == ChargeSpeed(config.maxJumpScalableUpSpeed, config.minJumpScalableUpSpeed,
                                      config.jumpScaleMultiplier, capTime, holdDurationJump)
        && jumpForwardSpeed == ChargeSpeed(config.maxJumpScalableForwardSpeed, config.minJumpScalableForwardSpeed,
                                           config.jumpScaleMultiplier, capTime, holdDurationJump)
      ensures 0.0 <= config.timeForMaxHeightJump <= old(holdDurationJump) + fixedDeltaTime ==> !jumpButtonHeld
    {
      var capTime := config.timeForMaxHeightJump;
      ApproximatelyReflexive(capTime);
      holdDurationJump := Clamp(holdDurationJump + fixedDeltaTime, 0.0, capTime);
      if Approximately(holdDurationJump, capTime) {
        jumpUpSpeed := 0.0;
        jumpForwardSpeed := 0.0;
        jumpButtonHeld := false;
      }
      jumpUpSpeed := ChargeSpeed(config.maxJumpScalableUpSpeed, config.minJumpScalableUpSpeed,
                                 config.jumpScaleMultiplier, capTime, holdDurationJump);
      jumpForwardSpeed := ChargeSpeed(config.maxJumpScalableForwardSpeed, config.minJumpScalableForwardSpeed,
                                      config.jumpScaleMultiplier, capTime, holdDurationJump);
    }

    /** A charged jump or launch: its push, then the queued additive
        velocity, added once and cleared. */
    method PushAndDrain(e: Velocity, direction: Vec3, upSpeed: real, characterUp: Vec3, moveInput: Vec3,
                        maxForwardSpeed: real, charge: real)
      returns (w: Velocity)
      modifies this`internalVelocityAdd
      ensures (w, internalVelocityAdd) == Drain(ChargedPush(e, direction, upSpeed, characterUp, moveInput,
                                                            maxForwardSpeed, charge),
                                                old(internalVelocityAdd))
    {
      w := Kicked(e, direction, upSpeed, characterUp);
      w := Pushed(w, moveInput, maxForwardSpeed, charge);
      w := DrainVelocityAdd(w);
    }

    /** Draining the queued additive velocity, as `Drain` says: added when it
        has a magnitude, and the queue left empty. */
    method DrainVelocityAdd(e: Velocity) returns (w: Velocity)
      modifies this`internalVelocityAdd
      ensures (w, internalVelocityAdd) == Drain(e, old(internalVelocityAdd))
    {
      w := e;
      if HasMagnitude(internalVelocityAdd) {
        w := Added(w, internalVelocityAdd);
        internalVelocityAdd := Zero;
      }
    }

    /** The launch check run while sliding: a launchable ledge arms a fresh,
        unconsumed launch; otherwise nothing changes. */
    method CheckLaunchable(g: Grounding, baseSpeed: real, probe: LedgeProbe)
      requires Valid()
      modifies this`launchRequested, this`launchConsumed
      ensures Valid()
      ensures Launchable(config, isSliding, g.isStableOnGround, baseSpeed, probe) ==> launchRequested && !launchConsumed
      ensures !Launchable(config, isSliding, g.isStableOnGround, baseSpeed, probe) ==> unchanged(this)
    {
      if !config.enableLaunching { return; }
      if !isSliding { return; }
      if !g.isStableOnGround { return; }
      if baseSpeed <= config.minPlayerVelocityToLaunch { return; }
      if !probe.surfaceBelow { return; }
      if probe.forwardBlocked { return; }
      if probe.floorBeyondLedge { return; }
      launchRequested := true;
      launchConsumed := false;
    }

    /** Firing an armed launch: only on stable ground, and only once, since
        firing consumes the request. */
    method FireLaunch(g: Grounding)
      requires Valid()
      modifies this`launchDirection, this`launchRequested, this`launchConsumed, this`launchActivated
      ensures Valid()
      ensures old(launchRequested) && !old(launchConsumed) && g.isStableOnGround ==>
        launchDirection == WorldUp && !launchRequested && launchConsumed && launchActivated
      ensures !(old(launchRequested) && !old(launchConsumed) && g.isStableOnGround) ==> unchanged(this)
    {
      if launchRequested {
        if !launchConsumed {
          if g.isStableOnGround {
            launchDirection := WorldUp;
            launchRequested := false;
            launchConsumed := true;
            launchActivated := true;
          }
        }
      }
    }

    /** The launch charge, while a fired launch is active: its hold timer
        advances within `[0, timeForMaxDistanceLaunch]`; reaching the cap
        deactivates the launch, zeroes the jump speeds and releases the jump
        button; the launch speeds are charged from the hold. */
    method ChargeLaunch(fixedDeltaTime: real)
      requires Valid()
      requires launchConsumed && launchActivated
      modifies this`holdDurationLaunch, this`jumpUpSpeed, this`jumpForwardSpeed, this`jumpButtonHeld,
               this`launchActivated, this`launchUpSpeed, this`launchForwardSpeed
      ensures Valid()
      ensures var capTime := config.timeForMaxDistanceLaunch;
        && holdDurationLaunch == Clamp(old(holdDurationLaunch) + fixedDeltaTime, 0.0, capTime)
        && (launchActivated <==> holdDurationLaunch < capTime)
        && (holdDurationLaunch >= capTime ==> jumpUpSpeed == 0.0 && jumpForwardSpeed == 0.0 && !jumpButtonHeld)
        && (holdDurationLaunch < capTime ==>
              jumpUpSpeed == old(jumpUpSpeed) && jumpForwardSpeed == old(jumpForwardSpeed)
              && jumpButtonHeld == old(jumpButtonHeld))
        && launchUpSpeed == ChargeSpeed(config.maxLaunchScalableUpSpeed, config.minLaunchScalableUpSpeed,
                                        config.launchScaleMultiplier, capTime, holdDurationLaunch)
        && launchForwardSpeed == ChargeSpeed(config.maxLaunchScalableForwardSpeed, config.minLaunchScalableForwardSpeed,
                                             config.launchScaleMultiplier, capTime, holdDurationLaunch)
    {
      var capTime := config.timeForMaxDistanceLaunch;
      holdDurationLaunch := Clamp(holdDurationLaunch + fixedDeltaTime, 0.0, capTime);
      if holdDurationLaunch >= capTime {
        jumpUpSpeed := 0.0;
        jumpForwardSpeed := 0.0;
        jumpButtonHeld := false;
        launchActivated := false;
      }
      launchUpSpeed := ChargeSpeed(config.maxLaunchScalableUpSpeed, config.minLaunchScalableUpSpeed,
                                   config.launchScaleMultiplier, capTime, holdDurationLaunch);
      launchForwardSpeed := ChargeSpeed(config.maxLaunchScalableForwardSpeed, config.minLaunchScalableForwardSpeed,
                                        config.launchScaleMultiplier, capTime, holdDurationLaunch);
    }

    /** The after-update callback: in parkour mode the jump bookkeeping of
        `AfterUpdate`, then the uncrouch attempt, which keeps the crouched
        capsule when the standing capsule would overlap something. */
    method AfterCharacterUpdate(g: Grounding, deltaTime: real, overlapCount: nat)
      requires Valid()
      modifies this`jump, this`capsule, this`isCrouching
      ensures Valid()
      ensures currentCharacterState == PhoneMode ==> unchanged(this)
      ensures currentCharacterState == ParkourMode ==>
        jump == AfterUpdate(config.Rules(), old(jump), g, deltaTime)
      ensures currentCharacterState == ParkourMode && old(isCrouching) && !shouldBeCrouching ==>
        && (overlapCount > 0 ==> isCrouching && capsule == CrouchedCapsule)
        && (overlapCount == 0 ==> !isCrouching && capsule == NormalCapsule)
      ensures currentCharacterState == ParkourMode && !(old(isCrouching) && !shouldBeCrouching) ==>
        isCrouching == old(isCrouching) && capsule == old(capsule)
    {
      match currentCharacterState
      case ParkourMode =>
        UpdateJumpAfterMove(g, deltaTime);
        TryUncrouch(overlapCount);
      case PhoneMode =>
    }

    /** The jump bookkeeping after the move, as `AfterUpdate` says: a request
        older than the pre-grounding grace expires, and jumpable ground resets
        the consumed flags (unless a jump started this tick) and the
        time-since-grounded. */
    method UpdateJumpAfterMove(g: Grounding, deltaTime: real)
      requires Valid()
      modifies this`jump
      ensures Valid()
      ensures jump == AfterUpdate(config.Rules(), old(jump), g, deltaTime)
    {
      PendingUnconsumedPreserved(config.Rules(), jump, g, g, deltaTime);
      if jump.requested && jump.sinceRequested.Exceeds(config.jumpPreGroundingGraceTime) {
        jump := jump.(requested := false);
      }
      if OnJumpableGround(config.allowJumpingWhenSliding, g) {
        if !jump.jumpedThisFrame {
          jump := jump.(doubleJumpConsumed := false, consumed := false);
        }
        jump := jump.(sinceAbleToJump := 0.0);
      } else {
        jump := jump.(sinceAbleToJump := jump.sinceAbleToJump + deltaTime);
      }
    }

    /** The uncrouch attempt of a character no longer wanting to crouch: the
        standing capsule is tried and kept unless it overlaps something. */
    method TryUncrouch(overlapCount: nat)
      requires Valid()
      modifies this`capsule, this`isCrouching
      ensures Valid()
      ensures old(isCrouching) && !shouldBeCrouching ==>
        && (overlapCount > 0 ==> isCrouching && capsule == CrouchedCapsule)
        && (overlapCount == 0 ==> !isCrouching && capsule == NormalCapsule)
      ensures !(old(isCrouching) && !shouldBeCrouching) ==> unchanged(this)
    {
      if isCrouching && !shouldBeCrouching {
        capsule := NormalCapsule;
        if overlapCount > 0 {
          capsule := CrouchedCapsule;
        } else {
          isCrouching := false;
        }
      }
    }

    /** A movement hit arms a wall jump off the hit normal, only in parkour
        mode, with wall jumps allowed, off stable ground and against an
        unstable surface. */
    method OnMovementHit(hitNormal: Vec3, hitIsStable: bool, g: Grounding)
      requires Valid()
      modifies this`jump, this`wallJumpNormal
      ensures Valid()
      ensures currentCharacterState == ParkourMode && ArmsWallJump(config.allowWallJump, g.isStableOnGround, hitIsStable) ==>
        jump == old(jump).(canWallJump := true) && wallJumpNormal == hitNormal
      ensures !(currentCharacterState == ParkourMode && ArmsWallJump(config.allowWallJump, g.isStableOnGround, hitIsStable)) ==>
        unchanged(this)
    {
      match currentCharacterState
      case ParkourMode =>
        if config.allowWallJump && !g.isStableOnGround && !hitIsStable {
          jump := jump.(canWallJump := true);
          wallJumpNormal := hitNormal;
        }
      case PhoneMode =>
    }

    /** Queueing an additive velocity, in parkour mode only. */
    method AddVelocity(velocity: Vec3)
      requires Valid()
      modifies this`internalVelocityAdd
      ensures Valid()
      ensures currentCharacterState == ParkourMode ==> internalVelocityAdd == Add(old(internalVelocityAdd), velocity)
      ensures currentCharacterState == PhoneMode ==> unchanged(this)
    {
      match currentCharacterState
      case ParkourMode =>
        internalVelocityAdd := Add(internalVelocityAdd, velocity);
      case PhoneMode =>
    }
  }
}
