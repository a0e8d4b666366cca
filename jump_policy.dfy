/** The impulse-jump bookkeeping that both character controllers share:
    the request / consumed / double-jump-consumed flags, wall-jump arming,
    and the two grace timers (a request is kept for the pre-grounding grace
    time; a jump is still allowed for the post-grounding, "coyote", grace
    time after leaving jumpable ground).

    The state is a record of exactly the fields the controllers keep; each
    controller's methods are proved to update their fields as the functions
    here say, and the multi-tick properties are proved about the functions. */
module JumpPolicy {
  import opened UnityMath

  /** What the motor's ground probe reports (`GroundingStatus`). */
  datatype Grounding = Grounding(isStableOnGround: bool, foundAnyGround: bool, groundNormal: Vec3)

  /** A duration that may be infinite: the time since the last jump request
      starts at `Mathf.Infinity`, and infinity absorbs every finite step. */
  datatype Elapsed = Infinite | Finite(seconds: real)
  {
    function Plus(dt: real): Elapsed {
      match this
      case Infinite => Infinite
      case Finite(t) => Finite(t + dt)
    }

    /** `elapsed > limit` for a finite limit; infinity exceeds every limit. */
    predicate Exceeds(limit: real) {
      Infinite? || seconds > limit
    }
  }

  /** The tuning that the jump bookkeeping reads. */
  datatype JumpRules = JumpRules(
    allowJumpingWhenSliding: bool,
    allowDoubleJump: bool,
    jumpPreGroundingGraceTime: real,
    jumpPostGroundingGraceTime: real)

  /** The controllers' jump fields. */
  datatype JumpState = JumpState(
    requested: bool,           // _jumpRequested
    consumed: bool,            // _jumpConsumed
    doubleJumpConsumed: bool,  // _doubleJumpConsumed
    jumpedThisFrame: bool,     // _jumpedThisFrame
    canWallJump: bool,         // _canWallJump
    sinceRequested: Elapsed,   // _timeSinceJumpRequested
    sinceAbleToJump: real)     // _timeSinceLastAbleToJump

  /** The state before any input: no request, and the request timer at infinity. */
  const Initial: JumpState := JumpState(false, false, false, false, false, Infinite, 0.0)

  /** Which of the two impulse jumps fired during one velocity update. */
  datatype Jumps = Jumps(doubleJump: bool, primaryJump: bool)

  /** The ground test of the primary jump and of the post-update reset:
      any ground when jumping off sliding slopes is allowed, stable ground otherwise. */
  predicate OnJumpableGround(allowJumpingWhenSliding: bool, g: Grounding) {
    if allowJumpingWhenSliding then g.foundAnyGround else g.isStableOnGround
  }

  /** The airborne test of the double jump: no ground at all when jumping
      off sliding slopes is allowed, no stable ground otherwise. */
  predicate AirborneForDoubleJump(allowJumpingWhenSliding: bool, g: Grounding) {
    if allowJumpingWhenSliding then !g.foundAnyGround else !g.isStableOnGround
  }

  predicate DoubleJumpGuard(r: JumpRules, s: JumpState, g: Grounding) {
    r.allowDoubleJump && s.consumed && !s.doubleJumpConsumed
    && AirborneForDoubleJump(r.allowJumpingWhenSliding, g)
  }

  /** The primary jump: a pending wall jump, or an unconsumed jump on
      jumpable ground or within the post-grounding grace time. */
  predicate PrimaryJumpGuard(r: JumpRules, s: JumpState, g: Grounding) {
    s.canWallJump
    || (!s.consumed
        && (OnJumpableGround(r.allowJumpingWhenSliding, g)
            || s.sinceAbleToJump <= r.jumpPostGroundingGraceTime))
  }

  /** The jump input. With `clearsConsumed` (the parkour controller) the
      press also clears the consumed flag; the walkthrough draft leaves it. */
  function Press(s: JumpState, clearsConsumed: bool): JumpState {
    s.(requested := true, sinceRequested := Finite(0.0),
       consumed := if clearsConsumed then false else s.consumed)
  }

  /** The impulse-jump section of the velocity update: advance the request
      timer, then, if a request is pending, try the double jump and then
      (independently) the primary jump, and drop any wall-jump chance. */
  function ProcessRequest(r: JumpRules, s: JumpState, g: Grounding, dt: real): (out: (JumpState, Jumps))
    ensures out.1.doubleJump <==> s.requested && DoubleJumpGuard(r, s, g)
    ensures out.1.primaryJump <==> s.requested && PrimaryJumpGuard(r, s, g)
  {
    var s0 := s.(jumpedThisFrame := false, sinceRequested := s.sinceRequested.Plus(dt));
    if !s0.requested then (s0, Jumps(false, false))
    else
      var (s1, double) := DoubleJumpStep(r, s0, g);
      var (s2, primary) := PrimaryJumpStep(r, s1, g);
      (s2.(canWallJump := false), Jumps(double, primary))
  }

  /** The double-jump branch: when its guard holds, it consumes the request
      and the double jump and marks the tick; the flag says whether it fired. */
  function DoubleJumpStep(r: JumpRules, s: JumpState, g: Grounding): (JumpState, bool) {
    if DoubleJumpGuard(r, s, g) then (s.(requested := false, doubleJumpConsumed := true, jumpedThisFrame := true), true)
    else (s, false)
  }

  /** The primary-jump branch: when its guard holds, it consumes the request
      and the jump and marks the tick; the flag says whether it fired. */
  function PrimaryJumpStep(r: JumpRules, s: JumpState, g: Grounding): (JumpState, bool) {
    if PrimaryJumpGuard(r, s, g) then (s.(requested := false, consumed := true, jumpedThisFrame := true), true)
    else (s, false)
  }

  /** The jump section of the after-update callback: expire an old request,
      then reset the consumed flags on jumpable ground (unless a jump fired
      this tick) and restart the grace timer, or let the timer grow. */
  function AfterUpdate(r: JumpRules, s: JumpState, g: Grounding, dt: real): JumpState {
    var s0 := if s.requested && s.sinceRequested.Exceeds(r.jumpPreGroundingGraceTime) then s.(requested := false) else s;
    if OnJumpableGround(r.allowJumpingWhenSliding, g) then
      var s1 := if !s0.jumpedThisFrame then s0.(doubleJumpConsumed := false, consumed := false) else s0;
      s1.(sinceAbleToJump := 0.0)
    else
      s0.(sinceAbleToJump := s0.sinceAbleToJump + dt)
  }

  /** `OnMovementHit`: a wall jump is armed only when wall jumps are allowed,
      the character is not on stable ground and the hit surface is unstable. */
  predicate ArmsWallJump(allowWallJump: bool, isStableOnGround: bool, hitIsStable: bool) {
    allowWallJump && !isStableOnGround && !hitIsStable
  }

  // ---------------------------------------------------------------------
  // Velocity changes

  /** A velocity returned by a callback, kept as the changes the callback
      applied to the velocity it was given, in order; `Value` evaluates them
      with the vector maths. */
  datatype Velocity =
    | Given(v: Vec3)
    | Kicked(base: Velocity, direction: Vec3, speed: real, characterUp: Vec3)
    | Boosted(base: Velocity, moveInput: Vec3, speed: real)
    | Pushed(base: Velocity, moveInput: Vec3, maxSpeed: real, charge: real)
    | Added(base: Velocity, add: Vec3)

  /** `v += direction * speed - Vector3.Project(v, characterUp)`: replace
      the velocity's part along the up axis by an impulse along `direction`. */
  function Kick(v: Vec3, direction: Vec3, speed: real, characterUp: Vec3): Vec3 {
    Add(v, Sub(Scale(direction, speed), Project(v, characterUp)))
  }

  /** The vector a list of changes produces. */
  function Value(e: Velocity): Vec3 {
    match e
    case Given(v) => v
    case Kicked(base, direction, speed, characterUp) => Kick(Value(base), direction, speed, characterUp)
    case Boosted(base, moveInput, speed) => Add(Value(base), Scale(moveInput, speed))
    case Pushed(base, moveInput, maxSpeed, charge) => Add(Value(base), Scale(moveInput, maxSpeed * charge))
    case Added(base, add) => Add(Value(base), add)
  }

  /** With a unit up axis, a kick along the up axis leaves exactly the kick
      speed along that axis, whatever the vertical speed was before: a
      double jump cancels a fall. */
  lemma KickAlongUpSetsUpSpeed(v: Vec3, speed: real, characterUp: Vec3)
    requires SqrMagnitude(characterUp) == 1.0
    ensures Dot(Kick(v, characterUp, speed, characterUp), characterUp) == speed
  {
    var d := Dot(v, characterUp);
    assert Project(v, characterUp) == Scale(characterUp, d);
    DotAdd(v, Sub(Scale(characterUp, speed), Scale(characterUp, d)), characterUp);
    DotSub(Scale(characterUp, speed), Scale(characterUp, d), characterUp);
    DotScale(characterUp, speed, characterUp);
    DotScale(characterUp, d, characterUp);
  }

  /** The impulse kicks that fired: the double jump along the up axis, then
      the primary jump along `direction`, both at `speed`. */
  function ImpulseKicks(e: Velocity, jumps: Jumps, characterUp: Vec3, direction: Vec3, speed: real): (r: Velocity)
    ensures !jumps.doubleJump && !jumps.primaryJump ==> r == e
  {
    var afterDouble := if jumps.doubleJump then Kicked(e, characterUp, speed, characterUp) else e;
    if jumps.primaryJump then Kicked(afterDouble, direction, speed, characterUp) else afterDouble
  }

  /** Direction of the primary jump in the parkour controller: the wall
      normal for a wall jump, otherwise the ground normal (the C# controller's
      second branch, for unstable ground, assigns the same value). */
  function ParkourJumpDirection(canWallJump: bool, wallJumpNormal: Vec3, g: Grounding): Vec3 {
    if canWallJump then wallJumpNormal
    else if g.foundAnyGround && !g.isStableOnGround then g.groundNormal
    else g.groundNormal
  }

  /** Direction of the primary jump in the walkthrough draft, in priority
      order: wall normal, ground normal on unstable ground, character up. */
  function WalkthroughJumpDirection(canWallJump: bool, wallJumpNormal: Vec3, g: Grounding, characterUp: Vec3): Vec3 {
    if canWallJump then wallJumpNormal
    else if g.foundAnyGround && !g.isStableOnGround then g.groundNormal
    else characterUp
  }

  /** The two drafts choose the same direction for a wall jump and off
      unstable ground; elsewhere the parkour controller jumps along the
      ground normal and the draft along the character's up axis. */
  lemma JumpDirectionsOfTheDrafts(canWallJump: bool, wallJumpNormal: Vec3, g: Grounding, characterUp: Vec3)
    ensures canWallJump || (g.foundAnyGround && !g.isStableOnGround) ==>
      ParkourJumpDirection(canWallJump, wallJumpNormal, g) == WalkthroughJumpDirection(canWallJump, wallJumpNormal, g, characterUp)
    ensures !canWallJump && !(g.foundAnyGround && !g.isStableOnGround) ==>
      ParkourJumpDirection(canWallJump, wallJumpNormal, g) == g.groundNormal
      && WalkthroughJumpDirection(canWallJump, wallJumpNormal, g, characterUp) == characterUp
  {}

  /** Draining the one-shot additive velocity: added when it has a
      magnitude, and the queue zeroed. */
  function Drain(e: Velocity, add: Vec3): (Velocity, Vec3) {
    if HasMagnitude(add) then (Added(e, add), Zero) else (e, add)
  }

  /** The drain adds the queued velocity exactly once: the result is always
      worth `e + add` and leaves an empty queue, so a second drain without a
      new addition changes nothing. */
  lemma DrainAddsOnce(e: Velocity, add: Vec3)
    ensures Value(Drain(e, add).0) == Add(Value(e), add)
    ensures Drain(e, add).1 == Zero
    ensures Drain(Drain(e, add).0, Drain(e, add).1) == (Drain(e, add).0, Zero)
  {
    AddZero(Value(e));
  }

  // ---------------------------------------------------------------------
  // Properties of one velocity update

  /** A double jump sets its flag and clears the request; a primary jump
      marks the jump consumed and clears the request; either marks the tick. */
  lemma JumpEffects(r: JumpRules, s: JumpState, g: Grounding, dt: real)
    ensures var (s', j) := ProcessRequest(r, s, g, dt);
      && (j.doubleJump ==> s'.doubleJumpConsumed && !s'.requested && s'.jumpedThisFrame)
      && (j.primaryJump ==> s'.consumed && !s'.requested && s'.jumpedThisFrame)
      && (!j.doubleJump && !j.primaryJump ==> !s'.jumpedThisFrame && s'.requested == s.requested)
      && s'.sinceRequested == s.sinceRequested.Plus(dt)
      && s'.sinceAbleToJump == s.sinceAbleToJump
  {}

  /** Processing a request always drops the wall-jump chance; without a
      request the wall-jump flag and the jump flags stay as they were. */
  lemma WallJumpClearedByRequest(r: JumpRules, s: JumpState, g: Grounding, dt: real)
    ensures s.requested ==> !ProcessRequest(r, s, g, dt).0.canWallJump
    ensures !s.requested ==>
      ProcessRequest(r, s, g, dt).0 == s.(jumpedThisFrame := false, sinceRequested := s.sinceRequested.Plus(dt))
  {}

  /** A double jump and a wall jump can fire in the same update: the
      primary guard is taken again after the double jump, and a pending
      wall jump passes it. */
  lemma DoubleAndWallJumpTogether(r: JumpRules, s: JumpState, g: Grounding, dt: real)
    requires s.requested && s.canWallJump && DoubleJumpGuard(r, s, g)
    ensures ProcessRequest(r, s, g, dt).1 == Jumps(true, true)
  {}

  /** After a primary and a double jump, a further request with no wall
      contact fires nothing. */
  lemma ThirdJumpRejected(r: JumpRules, s: JumpState, g: Grounding, dt: real)
    requires s.consumed && s.doubleJumpConsumed && !s.canWallJump
    ensures ProcessRequest(r, s, g, dt).1 == Jumps(false, false)
  {}

  /** The after-update phase: a request survives only while not older than
      the pre-grounding grace time; jumpable ground resets both consumed
      flags unless a jump fired this tick; the grace timer restarts on
      jumpable ground and grows by the step otherwise. */
  lemma AfterUpdateEffects(r: JumpRules, s: JumpState, g: Grounding, dt: real)
    ensures var s' := AfterUpdate(r, s, g, dt);
      && (s'.requested <==> s.requested && !s.sinceRequested.Exceeds(r.jumpPreGroundingGraceTime))
      && (OnJumpableGround(r.allowJumpingWhenSliding, g) ==>
            s'.sinceAbleToJump == 0.0
            && (s.jumpedThisFrame ==> s'.consumed == s.consumed && s'.doubleJumpConsumed == s.doubleJumpConsumed)
            && (!s.jumpedThisFrame ==> !s'.consumed && !s'.doubleJumpConsumed))
      && (!OnJumpableGround(r.allowJumpingWhenSliding, g) ==>
            s'.sinceAbleToJump == s.sinceAbleToJump + dt
            && s'.consumed == s.consumed && s'.doubleJumpConsumed == s.doubleJumpConsumed)
      && s'.canWallJump == s.canWallJump && s'.jumpedThisFrame == s.jumpedThisFrame
      && s'.sinceRequested == s.sinceRequested
  {}

  // ---------------------------------------------------------------------
  // Several ticks

  /** One physics tick of the jump bookkeeping: the velocity update sees the
      grounding before the move, the after-update callback the grounding
      after it. */
  function Tick(r: JumpRules, s: JumpState, before: Grounding, after: Grounding, dt: real): (JumpState, Jumps) {
    var (s1, j) := ProcessRequest(r, s, before, dt);
    (AfterUpdate(r, s1, after, dt), j)
  }

  /** An input to the jump bookkeeping: a press, or a physics tick. */
  datatype Input = PressJump | Step(before: Grounding, after: Grounding, dt: real)

  /** The state after a run of inputs, and how many double jumps fired in it. */
  function Run(r: JumpRules, clearsConsumed: bool, s: JumpState, inputs: seq<Input>): (JumpState, nat)
    decreases |inputs|
  {
    if inputs == [] then (s, 0)
    else
      match inputs[0]
      case PressJump => Run(r, clearsConsumed, Press(s, clearsConsumed), inputs[1..])
      case Step(before, after, dt) =>
        var (s1, j) := Tick(r, s, before, after, dt);
        var (s2, n) := Run(r, clearsConsumed, s1, inputs[1..]);
        (s2, n + if j.doubleJump then 1 else 0)
  }

  /** The ticks of a run all end off jumpable ground. */
  predicate StaysAirborne(r: JumpRules, inputs: seq<Input>) {
    forall i :: 0 <= i < |inputs| && inputs[i].Step? ==>
      !OnJumpableGround(r.allowJumpingWhenSliding, inputs[i].after)
  }

  /** While the character does not touch jumpable ground, at most one
      double jump fires, and none once it has been used. */
  lemma {:induction false} AtMostOneDoubleJumpPerAirborneSpell(r: JumpRules, clearsConsumed: bool, s: JumpState, inputs: seq<Input>)
    requires StaysAirborne(r, inputs)
    ensures Run(r, clearsConsumed, s, inputs).1 <= if s.doubleJumpConsumed then 0 else 1
    ensures s.doubleJumpConsumed ==> Run(r, clearsConsumed, s, inputs).0.doubleJumpConsumed
    ensures Run(r, clearsConsumed, s, inputs).1 == 1 ==> Run(r, clearsConsumed, s, inputs).0.doubleJumpConsumed
    decreases |inputs|
  {
    if inputs != [] {
      assert StaysAirborne(r, inputs[1..]) by {
        forall i | 0 <= i < |inputs[1..]| && inputs[1..][i].Step?
          ensures !OnJumpableGround(r.allowJumpingWhenSliding, inputs[1..][i].after)
        {
          assert inputs[1..][i] == inputs[i + 1];
        }
      }
      match inputs[0]
      case PressJump =>
        AtMostOneDoubleJumpPerAirborneSpell(r, clearsConsumed, Press(s, clearsConsumed), inputs[1..]);
      case Step(before, after, dt) =>
        assert !OnJumpableGround(r.allowJumpingWhenSliding, inputs[0].after);
        var (s1, j) := Tick(r, s, before, after, dt);
        assert j.doubleJump ==> s1.doubleJumpConsumed;
        assert s.doubleJumpConsumed ==> s1.doubleJumpConsumed && !j.doubleJump;
        AtMostOneDoubleJumpPerAirborneSpell(r, clearsConsumed, s1, inputs[1..]);
    }
  }

  /** A press that clears the consumed flag keeps "a pending request was
      never consumed" true through every input. */
  predicate PendingUnconsumed(s: JumpState) {
    s.requested ==> !s.consumed
  }

  lemma PendingUnconsumedPreserved(r: JumpRules, s: JumpState, before: Grounding, after: Grounding, dt: real)
    requires PendingUnconsumed(s)
    ensures PendingUnconsumed(Press(s, true))
    ensures PendingUnconsumed(ProcessRequest(r, s, before, dt).0)
    ensures PendingUnconsumed(AfterUpdate(r, s, after, dt))
    ensures !ProcessRequest(r, s, before, dt).1.doubleJump
  {}

  /** Consequently, when the press clears the consumed flag (the parkour
      controller), the double-jump branch never fires, whatever the inputs. */
  lemma {:induction false} NoDoubleJumpWhenPressClearsConsumed(r: JumpRules, s: JumpState, inputs: seq<Input>)
    requires PendingUnconsumed(s)
    ensures Run(r, true, s, inputs).1 == 0
    ensures PendingUnconsumed(Run(r, true, s, inputs).0)
    decreases |inputs|
  {
    if inputs != [] {
      match inputs[0]
      case PressJump =>
        PendingUnconsumedPreserved(r, s, Grounding(false, false, Zero), Grounding(false, false, Zero), 0.0);
        NoDoubleJumpWhenPressClearsConsumed(r, Press(s, true), inputs[1..]);
      case Step(before, after, dt) =>
        var (s1, j) := Tick(r, s, before, after, dt);
        PendingUnconsumedPreserved(r, s, before, after, dt);
        PendingUnconsumedPreserved(r, ProcessRequest(r, s, before, dt).0, before, after, dt);
        NoDoubleJumpWhenPressClearsConsumed(r, s1, inputs[1..]);
    }
  }

  /** Where the press leaves the consumed flag alone (the walkthrough
      draft), a press in the air after a primary jump fires the double jump
      on the next tick; where the press clears the flag, the same inputs
      fire none. */
  lemma DoubleJumpNeedsAConsumedJump(r: JumpRules, s: JumpState, g: Grounding, after: Grounding, dt: real)
    requires r.allowDoubleJump && s.consumed && !s.doubleJumpConsumed
    requires !OnJumpableGround(r.allowJumpingWhenSliding, g)
    ensures Run(r, false, s, [PressJump, Step(g, after, dt)]).1 == 1
    ensures Run(r, true, s, [PressJump, Step(g, after, dt)]).1 == 0
  {
    var inputs := [PressJump, Step(g, after, dt)];
    assert inputs[1..] == [Step(g, after, dt)];
    assert inputs[1..][1..] == [];
    forall clearsConsumed: bool
      ensures Run(r, clearsConsumed, s, inputs).1
              == if Tick(r, Press(s, clearsConsumed), g, after, dt).1.doubleJump then 1 else 0
    {
      var pressed := Press(s, clearsConsumed);
      assert Run(r, clearsConsumed, s, inputs) == Run(r, clearsConsumed, pressed, inputs[1..]);
      var (s1, j) := Tick(r, pressed, g, after, dt);
      assert Run(r, clearsConsumed, s1, []) == (s1, 0);
    }
    assert ProcessRequest(r, Press(s, false), g, dt).1.doubleJump;
    assert !ProcessRequest(r, Press(s, true), g, dt).1.doubleJump;
  }

  /** A second primary jump in mid-air: after a jump off the ground, a press
      within the post-grounding grace time fires the primary jump again when
      the press clears the consumed flag; with the draft's press it does not. */
  lemma SecondPrimaryJumpWithinGrace(r: JumpRules, s: JumpState, ground: Grounding, air: Grounding, dt: real)
    requires !s.requested && !s.consumed && !s.canWallJump && s.sinceAbleToJump == 0.0
    requires OnJumpableGround(r.allowJumpingWhenSliding, ground)
    requires !OnJumpableGround(r.allowJumpingWhenSliding, air)
    requires 0.0 < dt <= r.jumpPostGroundingGraceTime
    ensures var t1 := Tick(r, Press(s, true), ground, air, dt);
      t1.1.primaryJump && Tick(r, Press(t1.0, true), air, air, dt).1.primaryJump
    ensures var t1 := Tick(r, Press(s, false), ground, air, dt);
      t1.1.primaryJump && !Tick(r, Press(t1.0, false), air, air, dt).1.primaryJump
  {
  }

  /** `k` ticks without a request, spent off jumpable ground. */
  function AirborneTicks(r: JumpRules, s: JumpState, g: Grounding, dt: real, k: nat): JumpState
    decreases k
  {
    if k == 0 then s else AirborneTicks(r, Tick(r, s, g, g, dt).0, g, dt, k - 1)
  }

  lemma {:induction false} AirborneTicksAccumulate(r: JumpRules, s: JumpState, g: Grounding, dt: real, k: nat)
    requires !s.requested
    requires !OnJumpableGround(r.allowJumpingWhenSliding, g)
    ensures var s' := AirborneTicks(r, s, g, dt, k);
      && !s'.requested && s'.consumed == s.consumed && s'.canWallJump == s.canWallJump
      && s'.doubleJumpConsumed == s.doubleJumpConsumed
      && s'.sinceAbleToJump == s.sinceAbleToJump + (k as real) * dt
    decreases k
  {
    if k > 0 {
      var s1 := Tick(r, s, g, g, dt).0;
      assert s1.sinceAbleToJump == s.sinceAbleToJump + dt;
      AirborneTicksAccumulate(r, s1, g, dt, k - 1);
      assert ((k - 1) as real) * dt + dt == (k as real) * dt;
    }
  }

  /** Coyote time: a character that left jumpable ground `k` ticks of `dt`
      ago without jumping can still jump exactly while `k * dt` is within
      the post-grounding grace time. */
  lemma CoyoteTime(r: JumpRules, clearsConsumed: bool, s: JumpState, g: Grounding, dt: real, k: nat, dt': real)
    requires !s.requested && !s.consumed && !s.canWallJump && s.sinceAbleToJump == 0.0
    requires !OnJumpableGround(r.allowJumpingWhenSliding, g)
    ensures var pressed := Press(AirborneTicks(r, s, g, dt, k), clearsConsumed);
      ProcessRequest(r, pressed, g, dt').1.primaryJump <==> (k as real) * dt <= r.jumpPostGroundingGraceTime
  {
    AirborneTicksAccumulate(r, s, g, dt, k);
  }
}
