/** The walkthrough draft of the character controller: the kinematic
    character controller's walkthrough with impulse jumps (double and wall
    jumps behind switches), a one-shot additive velocity and a crouch
    toggle that swaps the capsule. It shares the jump bookkeeping of
    `JumpPolicy`, with a press that leaves the consumed flag alone. */
module WalkthroughCharacter {
  import opened UnityMath
  import opened JumpPolicy

  /** The capsule given to `Motor.SetCapsuleDimensions(radius, height, yOffset)`. */
  datatype CapsuleDimensions = CapsuleDimensions(radius: real, height: real, yOffset: real)

  const CrouchedCapsule: CapsuleDimensions := CapsuleDimensions(0.5, 1.0, 0.5)
  const StandingCapsule: CapsuleDimensions := CapsuleDimensions(0.5, 2.0, 1.0)

  /** The inspector settings that the jump and crouch logic reads. */
  datatype Config = Config(
    allowJumpingWhenSliding: bool,
    allowDoubleJump: bool,
    allowWallJump: bool,
    jumpSpeed: real,
    jumpPreGroundingGraceTime: real,
    jumpPostGroundingGraceTime: real)
  {
    function Rules(): JumpRules {
      JumpRules(allowJumpingWhenSliding, allowDoubleJump, jumpPreGroundingGraceTime, jumpPostGroundingGraceTime)
    }
  }

  /** The velocity the draft's impulse section returns before the additive
      velocity: the kicks that fired, at the configured jump speed, with the
      primary kick along the draft's jump direction. */
  function DraftJumpVelocity(config: Config, e: Velocity, jumps: Jumps, canWallJump: bool, wallJumpNormal: Vec3,
                             g: Grounding, characterUp: Vec3): (r: Velocity)
    ensures !jumps.doubleJump && !jumps.primaryJump ==> r == e
  {
    ImpulseKicks(e, jumps, characterUp, WalkthroughJumpDirection(canWallJump, wallJumpNormal, g, characterUp),
                 config.jumpSpeed)
  }

  /** With a unit up axis, a jump off stable or no ground (no wall contact)
      leaves exactly the jump speed along the up axis, whether or not a
      double jump fired before it in the same update; a lone double jump
      does the same. */
  lemma DraftJumpSetsUpSpeed(config: Config, e: Velocity, jumps: Jumps, canWallJump: bool, wallJumpNormal: Vec3,
                             g: Grounding, characterUp: Vec3)
    requires SqrMagnitude(characterUp) == 1.0
    requires jumps.primaryJump ==> !canWallJump && !(g.foundAnyGround && !g.isStableOnGround)
    requires jumps.doubleJump || jumps.primaryJump
    ensures Dot(Value(DraftJumpVelocity(config, e, jumps, canWallJump, wallJumpNormal, g, characterUp)), characterUp)
            == config.jumpSpeed
  {
    var afterDouble := if jumps.doubleJump then Kicked(e, characterUp, config.jumpSpeed, characterUp) else e;
    if jumps.primaryJump {
      KickAlongUpSetsUpSpeed(Value(afterDouble), config.jumpSpeed, characterUp);
    } else {
      KickAlongUpSetsUpSpeed(Value(e), config.jumpSpeed, characterUp);
    }
  }

  class SamCharacterController {
    const config: Config

    // The jump fields (`_jumpRequested`, `_jumpConsumed`, `_jumpedThisFrame`,
    // `_timeSinceJumpRequested`, `_timeSinceLastAbleToJump`,
    // `_doubleJumpConsumed`, `_canWallJump`) as one record
    var jump: JumpState
    var wallJumpNormal: Vec3
    var internalVelocityAdd: Vec3
    var shouldBeCrouching: bool
    var isCrouching: bool
    // The motor's capsule, as last set by this controller
    var capsule: CapsuleDimensions

    /** The capsule matches the crouch state. */
    predicate Valid()
      reads this`isCrouching, this`capsule
    {
      capsule == if isCrouching then CrouchedCapsule else StandingCapsule
    }

    /** The field initialisers, with the character standing. */
    constructor (config: Config)
      ensures this.config == config && Valid()
      ensures jump == Initial && internalVelocityAdd == Zero
      ensures !shouldBeCrouching && !isCrouching && capsule == StandingCapsule
    {
      this.config := config;
      jump := Initial;
      wallJumpNormal := Zero;
      internalVelocityAdd := Zero;
      shouldBeCrouching := false;
      isCrouching := false;
      capsule := StandingCapsule;
    }

    /** The crouch input, bound to the press only: it toggles the wish to
        crouch, and a first press while standing crouches at once. */
    method Crouch()
      requires Valid()
      modifies this`shouldBeCrouching, this`isCrouching, this`capsule
      ensures Valid()
      ensures shouldBeCrouching == !old(shouldBeCrouching)
      ensures !old(shouldBeCrouching) ==> isCrouching && capsule == CrouchedCapsule
      ensures old(shouldBeCrouching) ==> isCrouching == old(isCrouching) && capsule == old(capsule)
    {
      if !shouldBeCrouching {
        shouldBeCrouching := true;
        if !isCrouching {
          isCrouching := true;
          capsule := CrouchedCapsule;
        }
      } else {
        shouldBeCrouching := false;
      }
    }

    /** The jump press: a fresh request; the consumed flag is left alone. */
    method Jump()
      modifies this`jump
      ensures jump == Press(old(jump), false)
    {
      jump := jump.(sinceRequested := Finite(0.0), requested := true);
    }

    /** The jump and additive-velocity sections of the velocity callback,
        given the velocity after the ground or air movement. */
    method UpdateVelocity(blendedVelocity: Vec3, g: Grounding, characterUp: Vec3, deltaTime: real)
      returns (v: Velocity)
      modifies this`jump, this`internalVelocityAdd
      ensures var (s, jumps) := ProcessRequest(config.Rules(), old(jump), g, deltaTime);
        && jump == s
        && (v, internalVelocityAdd) == Drain(DraftJumpVelocity(config, Given(blendedVelocity), jumps,
                                                               old(jump).canWallJump, wallJumpNormal, g, characterUp),
                                             old(internalVelocityAdd))
    {
      jump := jump.(jumpedThisFrame := false, sinceRequested := jump.sinceRequested.Plus(deltaTime));
      v := Given(blendedVelocity);
      if jump.requested {
        if config.allowDoubleJump {
          if jump.consumed && !jump.doubleJumpConsumed && AirborneForDoubleJump(config.allowJumpingWhenSliding, g) {
            v := Kicked(v, characterUp, config.jumpSpeed, characterUp);
            jump := jump.(requested := false, doubleJumpConsumed := true, jumpedThisFrame := true);
          }
        }
        if jump.canWallJump
           || (!jump.consumed
               && (OnJumpableGround(config.allowJumpingWhenSliding, g)
                   || jump.sinceAbleToJump <= config.jumpPostGroundingGraceTime))
        {
          var jumpDirection := characterUp;
          if jump.canWallJump {
            jumpDirection := wallJumpNormal;
          } else if g.foundAnyGround && !g.isStableOnGround {
            jumpDirection := g.groundNormal;
          }
          v := Kicked(v, jumpDirection, config.jumpSpeed, characterUp);
          jump := jump.(requested := false, consumed := true, jumpedThisFrame := true);
        }
        jump := jump.(canWallJump := false);
      }
      if HasMagnitude(internalVelocityAdd) {
        v := Added(v, internalVelocityAdd);
        internalVelocityAdd := Zero;
      }
    }

    /** The after-update callback: the jump bookkeeping of `AfterUpdate`,
        then the uncrouch attempt, which keeps the crouched capsule when the
        standing capsule would overlap something. */
    method AfterCharacterUpdate(g: Grounding, deltaTime: real, overlapCount: nat)
      requires Valid()
      modifies this`jump, this`capsule, this`isCrouching
      ensures Valid()
      ensures jump == AfterUpdate(config.Rules(), old(jump), g, deltaTime)
      ensures old(isCrouching) && !shouldBeCrouching ==>
        && (overlapCount > 0 ==> isCrouching && capsule == CrouchedCapsule)
        && (overlapCount == 0 ==> !isCrouching && capsule == StandingCapsule)
      ensures !(old(isCrouching) && !shouldBeCrouching) ==> isCrouching == old(isCrouching) && capsule == old(capsule)
    {
      UpdateJumpAfterMove(g, deltaTime);
      TryUncrouch(overlapCount);
    }

    /** The jump bookkeeping after the move, as `AfterUpdate` says. */
    method UpdateJumpAfterMove(g: Grounding, deltaTime: real)
      modifies this`jump
      ensures jump == AfterUpdate(config.Rules(), old(jump), g, deltaTime)
    {
      if jump.requested && jump.sinceRequested.Exceeds(config.jumpPreGroundingGraceTime) {
        jump := jump.(requested := false);
      }
      if OnJumpableGround(config.allowJumpingWhenSliding, g) {
        if !jump.jumpedThisFrame {
          jump := jump.(doubleJumpConsumed := false, consumed := false);
        }
        jump := jump.(sinceAbleToJump := 0.0);
      } else {
        jump := jump.(sinceAbleToJump := jump.sinceAbleToJump + deltaTime);
      }
    }

    /** The uncrouch attempt: the standing capsule is tried and kept unless
        it overlaps something. */
    method TryUncrouch(overlapCount: nat)
      requires Valid()
      modifies this`capsule, this`isCrouching
      ensures Valid()
      ensures old(isCrouching) && !shouldBeCrouching ==>
        && (overlapCount > 0 ==> isCrouching && capsule == CrouchedCapsule)
        && (overlapCount == 0 ==> !isCrouching && capsule == StandingCapsule)
      ensures !(old(isCrouching) && !shouldBeCrouching) ==> unchanged(this)
    {
      if isCrouching && !shouldBeCrouching {
        capsule := StandingCapsule;
        if overlapCount > 0 {
          capsule := CrouchedCapsule;
        } else {
          isCrouching := false;
        }
      }
    }

    /** A movement hit arms a wall jump off the hit normal, when wall jumps
        are allowed, off stable ground and against an unstable surface. */
    method OnMovementHit(hitNormal: Vec3, hitIsStable: bool, g: Grounding)
      modifies this`jump, this`wallJumpNormal
      ensures ArmsWallJump(config.allowWallJump, g.isStableOnGround, hitIsStable) ==>
        jump == old(jump).(canWallJump := true) && wallJumpNormal == hitNormal
      ensures !ArmsWallJump(config.allowWallJump, g.isStableOnGround, hitIsStable) ==> unchanged(this)
    {
      if config.allowWallJump && !g.isStableOnGround && !hitIsStable {
        jump := jump.(canWallJump := true);
        wallJumpNormal := hitNormal;
      }
    }

    /** Queueing an additive velocity. */
    method AddVelocity(velocity: Vec3)
      modifies this`internalVelocityAdd
      ensures internalVelocityAdd == Add(old(internalVelocityAdd), velocity)
    {
      internalVelocityAdd := Add(internalVelocityAdd, velocity);
    }
  }
}
