/**
  The discrete control logic of the first-person character controller
  (PlayerCharacter.cs): stances, input latches, ground/air timers, the
  jump/coyote/jump-buffer controller and the crouch capsule reconciler.

  Every callback the motor invokes is given here as a pure function from the
  controller's fields before the callback to its fields afterwards. The class
  in player_character.dfy runs the same callbacks imperatively and is proved
  to agree with these functions.

  Vector arithmetic is modelled exactly where it is aligned with the
  character's up axis (gravity, jump, wall-run zeroing); every other vector
  computation (tangent projection, exponential lerp, slide friction, slope
  and steering, air control) is a result handed in through `Geometry`.
*/
module Movement {

  /** The crouch button's edge for one frame. */
  datatype CrouchInput = None | Toggle

  /** The locomotion mode. */
  datatype Stance = Stand | Crouch | Slide | WallRun

  /** A horizontal vector: world x and z. The character only yaws, so its
      forward and right axes are horizontal too. */
  datatype Planar = Planar(x: real, z: real)
  {
    function Plus(other: Planar): Planar { Planar(x + other.x, z + other.z) }
    function Scale(k: real): Planar { Planar(k * x, k * z) }
    function SqrMagnitude(): real { x * x + z * z }
  }

  const ZeroPlanar := Planar(0.0, 0.0)

  /** A velocity, split into its horizontal part and its component along the
      character's up axis, which is world up. */
  datatype Velocity = Velocity(planar: Planar, vertical: real)
  {
    function Scale(k: real): Velocity { Velocity(planar.Scale(k), k * vertical) }
    function SqrMagnitude(): real { planar.SqrMagnitude() + vertical * vertical }
  }

  const ZeroVelocity := Velocity(ZeroPlanar, 0.0)

  /** `|v| < bound`, for a vector whose squared magnitude is `sqrMagnitude`. */
  predicate MagnitudeBelow(sqrMagnitude: real, bound: real)
  {
    0.0 < bound && sqrMagnitude < bound * bound
  }

  /** `|v| <= bound`, for a vector whose squared magnitude is `sqrMagnitude`. */
  predicate MagnitudeAtMost(sqrMagnitude: real, bound: real)
  {
    0.0 <= bound && sqrMagnitude <= bound * bound
  }

  /** The two encodings above are the comparisons they stand for. */
  lemma MagnitudeComparisons(magnitude: real, bound: real)
    requires 0.0 <= magnitude
    ensures MagnitudeBelow(magnitude * magnitude, bound) <==> magnitude < bound
    ensures MagnitudeAtMost(magnitude * magnitude, bound) <==> magnitude <= bound
  {
    if 0.0 < bound {
      // bound * bound - magnitude * magnitude factors with a positive second factor
      var gap, sum := bound - magnitude, bound + magnitude;
      assert gap * sum == bound * bound - magnitude * magnitude;
      if gap > 0.0 {
        assert gap * sum > 0.0;
      } else if gap < 0.0 {
        assert gap * sum < 0.0;
      }
    } else if bound == 0.0 {
      assert bound * bound == 0.0;
      assert 0.0 < magnitude ==> magnitude * magnitude > 0.0;
    }
  }

  /** Mathf.Max(a, b): `a` when it is the larger, `b` otherwise. */
  function MaxReal(a: real, b: real): (r: real)
    ensures r >= a && r >= b
    ensures r == a || r == b
  {
    if a > b then a else b
  }

  /** What the controller keeps about one simulation step: whether it ended
      stably grounded, its stance and the motor's resolved velocity. The
      acceleration observable is not part of this model. */
  datatype CharacterState = CharacterState(grounded: bool, stance: Stance, velocity: Velocity)

  /** A C# default-initialised CharacterState. */
  const DefaultState := CharacterState(false, Stand, ZeroVelocity)

  /** One frame of player input. `move` holds the raw Move axes as (x, z);
      the look rotation and the shoot button are not part of this model. */
  datatype CharacterInput = CharacterInput(
    move: Planar,
    jump: bool,
    jumpSustain: bool,
    wallRun: bool,
    crouch: CrouchInput)

  /** The W, A and D keys as the keyboard reports them during the step. */
  datatype Keys = Keys(w: bool, a: bool, d: bool)

  /** The three wall probes (forward, right, left). */
  datatype Walls = Walls(forward: bool, right: bool, left: bool)
  {
    predicate Any() { forward || right || left }
  }

  const NoWalls := Walls(false, false, false)

  /** A wall is found in a direction whose key is held: the wall-run trigger. */
  predicate WallRunKeyed(walls: Walls, keys: Keys)
  {
    (walls.left && keys.a) || (walls.right && keys.d) || (walls.forward && keys.w)
  }

  /** The wall-run jump condition: some wall is found while the key that
      points away from it is not held. */
  predicate DetachJump(walls: Walls, keys: Keys)
  {
    (walls.left && !keys.d) || (walls.right && !keys.a) || (walls.forward && !keys.w)
  }

  /** Some side or back wall-hop fires. */
  predicate HopKeyed(walls: Walls, keys: Keys)
  {
    (walls.right && keys.a) || (walls.left && keys.d) || (walls.forward && keys.w)
  }

  /** The tunable constants the discrete logic reads. */
  datatype Config = Config(
    jumpSpeed: real,
    coyoteTime: real,
    jumpSustainGravity: real,
    gravity: real,
    slideStartSpeed: real,
    slideEndSpeed: real,
    wallRunForce: real,
    maxWallSpeed: real,
    standHeight: real,
    crouchHeight: real)

  /** The values the script declares; wallRunForce and maxWallSpeed have no
      initialiser there, so they start at zero. */
  const Defaults := Config(
    jumpSpeed := 20.0,
    coyoteTime := 0.2,
    jumpSustainGravity := 0.4,
    gravity := -90.0,
    slideStartSpeed := 25.0,
    slideEndSpeed := 15.0,
    wallRunForce := 0.0,
    maxWallSpeed := 0.0,
    standHeight := 2.0,
    crouchHeight := 1.0)

  /** Results of the vector computations this model does not carry out. */
  datatype Geometry = Geometry(
    forward: Planar,           // the character's forward axis
    right: Planar,             // the character's right axis
    tangentMoves: bool,        // the move input's direction, made tangent to the ground, is non-zero
    entrySpeed: real,          // magnitude of the velocity a starting slide redirects
    entryDirection: Velocity,  // ground-tangent direction of that velocity
    groundMove: Velocity,      // the walk/crouch velocity after the exponential lerp
    slideMove: Velocity,       // the slide velocity after friction, slope and steering
    airForce: Planar)          // the air-control force after its speed cap and slope guard

  /** The controller's private fields. The capsule height belongs to the
      motor; it is kept here because the controller is its only writer. */
  datatype Fields = Fields(
    state: CharacterState,
    lastState: CharacterState,
    tempState: CharacterState,
    move: Planar,
    requestedJump: bool,
    requestedSustainedJump: bool,
    requestedCrouch: bool,
    requestedCrouchInAir: bool,
    requestedWallRun: bool,
    timeSinceUngrounded: real,
    timeSinceJumpRequest: real,
    ungroundedDueToJump: bool,
    walls: Walls,
    capsuleHeight: real)

  /** The fields right after Initialize: everything at its C# default, the
      stance Stand and the last state a copy of the state. */
  function Initial(capsuleHeight: real): (r: Fields)
    ensures r.state.stance == Stand && r.lastState == r.state
    ensures !r.requestedJump && !r.requestedCrouch && !r.requestedCrouchInAir
  {
    Fields(
      DefaultState, DefaultState, DefaultState, ZeroPlanar,
      false, false, false, false, false,
      0.0, 0.0, false, NoWalls, capsuleHeight)
  }

  // ---------------------------------------------------------------- input

  /** The jump latch: a sticky OR-latch whose age restarts only on its
      rising edge. */
  function LatchJump(s: Fields, jump: bool): (r: Fields)
    ensures r.requestedJump <==> s.requestedJump || jump
    ensures !s.requestedJump && jump ==> r.timeSinceJumpRequest == 0.0
    ensures s.requestedJump || !jump ==> r.timeSinceJumpRequest == s.timeSinceJumpRequest
    ensures r == s.(requestedJump := r.requestedJump, timeSinceJumpRequest := r.timeSinceJumpRequest)
  {
    var latched := s.requestedJump || jump;
    s.(requestedJump := latched,
       timeSinceJumpRequest := if latched && !s.requestedJump then 0.0 else s.timeSinceJumpRequest)
  }

  /** The crouch latch: a toggle whose rising edge records whether it
      happened in the air and whose falling edge clears that record. */
  function LatchCrouch(s: Fields, crouch: CrouchInput): (r: Fields)
    ensures crouch == Toggle <==> r.requestedCrouch != s.requestedCrouch
    ensures !s.requestedCrouch && r.requestedCrouch ==> r.requestedCrouchInAir == !s.state.grounded
    ensures s.requestedCrouch && !r.requestedCrouch ==> !r.requestedCrouchInAir
    ensures s.requestedCrouch == r.requestedCrouch ==> r.requestedCrouchInAir == s.requestedCrouchInAir
    ensures r == s.(requestedCrouch := r.requestedCrouch, requestedCrouchInAir := r.requestedCrouchInAir)
  {
    var latched := if crouch == Toggle then !s.requestedCrouch else s.requestedCrouch;
    s.(requestedCrouch := latched,
       requestedCrouchInAir :=
         if latched && !s.requestedCrouch then !s.state.grounded
         else if !latched && s.requestedCrouch then false
         else s.requestedCrouchInAir)
  }

  /** UpdateInput: latch one frame of input: the jump latch, the crouch
      latch, and the move axes, the sustain flag and the wall-run latch.
      Each of these writes fields no other one reads or writes, so the order
      in which they are taken is immaterial. */
  function InputStep(s: Fields, input: CharacterInput): (r: Fields)
    ensures r.requestedJump <==> s.requestedJump || input.jump
    ensures !s.requestedJump && input.jump ==> r.timeSinceJumpRequest == 0.0
    ensures s.requestedJump || !input.jump ==> r.timeSinceJumpRequest == s.timeSinceJumpRequest
    ensures input.crouch == Toggle <==> r.requestedCrouch != s.requestedCrouch
    ensures !s.requestedCrouch && r.requestedCrouch ==> r.requestedCrouchInAir == !s.state.grounded
    ensures s.requestedCrouch && !r.requestedCrouch ==> !r.requestedCrouchInAir
    ensures s.requestedCrouch == r.requestedCrouch ==> r.requestedCrouchInAir == s.requestedCrouchInAir
    ensures r.requestedSustainedJump == input.jumpSustain && r.move == input.move
    ensures r.requestedWallRun <==> s.requestedWallRun || input.wallRun
    ensures r == s.(move := r.move, requestedJump := r.requestedJump,
                    timeSinceJumpRequest := r.timeSinceJumpRequest,
                    requestedSustainedJump := r.requestedSustainedJump,
                    requestedCrouch := r.requestedCrouch,
                    requestedCrouchInAir := r.requestedCrouchInAir,
                    requestedWallRun := r.requestedWallRun)
  {
    LatchCrouch(LatchJump(s, input.jump), input.crouch)
      .(move := input.move,
        requestedSustainedJump := input.jumpSustain,
        requestedWallRun := s.requestedWallRun || input.wallRun)
  }

  // ---------------------------------------------------- before the motor

  /** The stance BeforeCharacterUpdate leaves: crouch entry, then wall-run
      entry (`enter`: a keyed wall while not stably grounded), then wall-run
      exit when no wall is found at all. */
  function BeforeStance(stance: Stance, requestedCrouch: bool, enter: bool, anyWall: bool): (r: Stance)
    requires enter ==> anyWall
    ensures r == WallRun <==> enter || (stance == WallRun && anyWall)
    ensures stance == WallRun && !anyWall ==> r == Stand
    ensures stance == Stand && r != WallRun ==> r == (if requestedCrouch then Crouch else Stand)
    ensures stance !in {Stand, WallRun} && r != WallRun ==> r == stance
  {
    var afterCrouch := if requestedCrouch && stance == Stand then Crouch else stance;
    var afterEnter := if enter then WallRun else afterCrouch;
    if !anyWall && afterEnter == WallRun then Stand else afterEnter
  }

  /** BeforeCharacterUpdate: snapshot the state, crouch when a crouch is
      requested while standing, store the wall probes, then enter or leave
      the wall run. `stable` is the motor's grounding report at this point. */
  function BeforeStep(s: Fields, cfg: Config, stable: bool, probe: Walls, keys: Keys): (r: Fields)
    ensures r.tempState == s.state
    ensures r.walls == probe
    ensures r.state.stance == WallRun <==>
              (WallRunKeyed(probe, keys) && !stable) || (s.state.stance == WallRun && probe.Any())
    ensures r.state.stance == WallRun ==> probe.Any()
    ensures s.requestedCrouch && s.state.stance == Stand ==>
              r.capsuleHeight == cfg.crouchHeight && r.state.stance in {Crouch, WallRun}
    ensures !(s.requestedCrouch && s.state.stance == Stand) ==> r.capsuleHeight == s.capsuleHeight
    ensures s.state.stance == WallRun && !probe.Any() ==> r.state.stance == Stand
    ensures s.state.stance !in {Stand, WallRun} && r.state.stance != WallRun ==>
              r.state.stance == s.state.stance
    ensures s.state.stance == Stand && r.state.stance != WallRun ==>
              r.state.stance == (if s.requestedCrouch then Crouch else Stand)
    ensures r == s.(tempState := s.state, state := s.state.(stance := r.state.stance),
                    walls := probe, capsuleHeight := r.capsuleHeight)
  {
    var crouching := s.requestedCrouch && s.state.stance == Stand;
    var enter := WallRunKeyed(probe, keys) && !stable;
    assert enter ==> probe.Any();
    s.(tempState := s.state,
       state := s.state.(stance := BeforeStance(s.state.stance, s.requestedCrouch, enter,
                                                probe.left || probe.right || probe.forward)),
       walls := probe,
       capsuleHeight := if crouching then cfg.crouchHeight else s.capsuleHeight)
  }

  // ------------------------------------------------------------- velocity

  /** The ground/air timers: stable ground resets the time since
      ungrounding and the jump-caused flag; in the air the time grows by `dt`. */
  function Timers(s: Fields, stable: bool, dt: real): (r: Fields)
    ensures stable ==> r.timeSinceUngrounded == 0.0 && !r.ungroundedDueToJump
    ensures !stable ==> r.timeSinceUngrounded == s.timeSinceUngrounded + dt &&
                        r.ungroundedDueToJump == s.ungroundedDueToJump
    ensures r == s.(timeSinceUngrounded := r.timeSinceUngrounded,
                    ungroundedDueToJump := r.ungroundedDueToJump)
  {
    if stable then s.(timeSinceUngrounded := 0.0, ungroundedDueToJump := false)
    else s.(timeSinceUngrounded := s.timeSinceUngrounded + dt)
  }

  /** The ground movement is the input's tangent direction scaled by the
      input's magnitude, so it is non-zero exactly when both are. */
  predicate Moving(s: Fields, geo: Geometry)
  {
    s.move != ZeroPlanar && geo.tangentMoves
  }

  /** The slide-start condition: stably grounded (checked by the caller),
      moving, crouching, and last stance Stand or last frame airborne. */
  predicate SlideStarts(s: Fields, geo: Geometry)
  {
    Moving(s, geo) && s.state.stance == Crouch && (s.lastState.stance == Stand || !s.lastState.grounded)
  }

  /** What the geometry's slide-entry speed is in the source: from the
      ground, the magnitude of the incoming velocity; from the air, the
      magnitude of the last state's velocity projected onto the ground,
      which is never more than that velocity's own magnitude. */
  predicate EntryGeometry(s: Fields, v: Velocity, geo: Geometry)
  {
    && 0.0 <= geo.entrySpeed
    && (s.lastState.grounded ==> geo.entrySpeed * geo.entrySpeed == v.SqrMagnitude())
    && (!s.lastState.grounded ==> geo.entrySpeed * geo.entrySpeed <= s.lastState.velocity.SqrMagnitude())
  }

  /** Squaring is monotone on non-negative reals. */
  lemma SquareMonotone(smaller: real, larger: real)
    requires 0.0 <= smaller <= larger
    ensures smaller * smaller <= larger * larger
  {
    var gap, sum := larger - smaller, larger + smaller;
    assert gap * sum == larger * larger - smaller * smaller;
    assert gap * sum >= 0.0;
  }

  /** The speed a starting slide gets: at least `slideStartSpeed`, except
      when falling in without a crouch requested in the air, where the
      floor is zero. */
  function SlideStartSpeed(cfg: Config, s: Fields, speed: real): (r: real)
    ensures r >= speed
    ensures s.lastState.grounded || s.requestedCrouchInAir ==>
              r >= cfg.slideStartSpeed && (r == speed || r == cfg.slideStartSpeed)
    ensures !s.lastState.grounded && !s.requestedCrouchInAir ==>
              r >= 0.0 && (r == speed || r == 0.0)
  {
    var effective := if !s.lastState.grounded && !s.requestedCrouchInAir then 0.0 else cfg.slideStartSpeed;
    MaxReal(effective, speed)
  }

  /** With the source's entry speed, a slide from the ground is at least
      as fast as the incoming velocity. */
  lemma GroundEntryCovers(s: Fields, cfg: Config, v: Velocity, geo: Geometry)
    ensures EntryGeometry(s, v, geo) && s.lastState.grounded ==>
              MagnitudeAtMost(v.SqrMagnitude(), SlideStartSpeed(cfg, s, geo.entrySpeed))
  {
    if EntryGeometry(s, v, geo) && s.lastState.grounded {
      SquareMonotone(geo.entrySpeed, SlideStartSpeed(cfg, s, geo.entrySpeed));
    }
  }

  /** Start sliding: the stance becomes Slide and the velocity is redirected
      along the ground at the slide start speed. The assignment that clears
      the crouch-in-air flag only runs when the flag is already false. */
  function StartSlide(s: Fields, cfg: Config, v: Velocity, geo: Geometry): (r: (Fields, Velocity))
    ensures SlideStarts(s, geo) ==>
              r.0.state.stance == Slide &&
              r.1 == geo.entryDirection.Scale(SlideStartSpeed(cfg, s, geo.entrySpeed))
    ensures !SlideStarts(s, geo) ==> r == (s, v)
    ensures r.0.state.stance == Slide && s.state.stance != Slide ==> s.move != ZeroPlanar
    // from the ground the slide speed is never below the incoming speed
    ensures EntryGeometry(s, v, geo) && SlideStarts(s, geo) && s.lastState.grounded ==>
              MagnitudeAtMost(v.SqrMagnitude(), SlideStartSpeed(cfg, s, geo.entrySpeed))
    // falling in without a crouch request in the air carries momentum and adds none
    ensures EntryGeometry(s, v, geo) && SlideStarts(s, geo) && !s.lastState.grounded && !s.requestedCrouchInAir ==>
              0.0 <= SlideStartSpeed(cfg, s, geo.entrySpeed) &&
              SlideStartSpeed(cfg, s, geo.entrySpeed) * SlideStartSpeed(cfg, s, geo.entrySpeed)
                <= s.lastState.velocity.SqrMagnitude()
    ensures r.0 == s.(state := s.state.(stance := r.0.state.stance))
  {
    if SlideStarts(s, geo) then
      GroundEntryCovers(s, cfg, v, geo);
      var inAirFlag := if !s.lastState.grounded && !s.requestedCrouchInAir then false
                       else s.requestedCrouchInAir;
      (s.(state := s.state.(stance := Slide), requestedCrouchInAir := inAirFlag),
       geo.entryDirection.Scale(SlideStartSpeed(cfg, s, geo.entrySpeed)))
    else
      (s, v)
  }

  /** Grounded movement: Stand and Crouch follow the walk/crouch lerp, a
      slide continues and drops to Crouch once slower than `slideEndSpeed`,
      a wall run is left alone. */
  function GroundMove(s: Fields, cfg: Config, v: Velocity, geo: Geometry): (r: (Fields, Velocity))
    ensures s.state.stance in {Stand, Crouch} ==> r == (s, geo.groundMove)
    ensures s.state.stance == Slide ==>
              r.1 == geo.slideMove &&
              (r.0.state.stance == Crouch <==> MagnitudeBelow(geo.slideMove.SqrMagnitude(), cfg.slideEndSpeed)) &&
              (r.0.state.stance == Slide <==> !MagnitudeBelow(geo.slideMove.SqrMagnitude(), cfg.slideEndSpeed))
    ensures s.state.stance == WallRun ==> r == (s, v)
    ensures r.0 == s.(state := s.state.(stance := r.0.state.stance))
  {
    match s.state.stance
    case Stand => (s, geo.groundMove)
    case Crouch => (s, geo.groundMove)
    case Slide =>
      var stopped := MagnitudeBelow(geo.slideMove.SqrMagnitude(), cfg.slideEndSpeed);
      (if stopped then s.(state := s.state.(stance := Crouch)) else s, geo.slideMove)
    case WallRun => (s, v)
  }

  /** The wall-run block: the vertical component is zeroed and, while the
      planar speed is at most `maxWallSpeed`, the character is pushed along
      the wall (up it, when the wall is ahead) and into it. */
  function WallRunVelocity(s: Fields, cfg: Config, v: Velocity, geo: Geometry, dt: real): (r: Velocity)
    ensures r.vertical == (if s.walls.forward && MagnitudeAtMost(v.planar.SqrMagnitude(), cfg.maxWallSpeed)
                           then cfg.wallRunForce * dt else 0.0)
    ensures !MagnitudeAtMost(v.planar.SqrMagnitude(), cfg.maxWallSpeed) ==> r == Velocity(v.planar, 0.0)
  {
    var flat := Velocity(v.planar, 0.0);
    if MagnitudeAtMost(flat.SqrMagnitude(), cfg.maxWallSpeed) then
      var push := cfg.wallRunForce * dt;
      var along := if !s.walls.forward then Velocity(flat.planar.Plus(geo.forward.Scale(push)), flat.vertical)
                   else Velocity(flat.planar, flat.vertical + push);
      var stick := cfg.wallRunForce / 5.0 * dt;
      var inward := if s.walls.right then geo.right.Scale(stick)
                    else if s.walls.left then geo.right.Scale(-stick)
                    else geo.forward.Scale(stick);
      Velocity(along.planar.Plus(inward), along.vertical)
    else
      flat
  }

  /** The air-move block: with move input, the planar air-control force is
      added; the vertical component is untouched. */
  function AirControl(s: Fields, v: Velocity, geo: Geometry): (r: Velocity)
    ensures r.vertical == v.vertical
    ensures s.move == ZeroPlanar ==> r == v
  {
    if s.move != ZeroPlanar then Velocity(v.planar.Plus(geo.airForce), v.vertical) else v
  }

  /** The gravity block: gravity is added to the vertical component, scaled
      by `jumpSustainGravity` while jump is held and the character is
      rising; the planar part is untouched. */
  function Gravity(s: Fields, cfg: Config, v: Velocity, dt: real): (r: Velocity)
    ensures r.planar == v.planar
    ensures !(s.requestedSustainedJump && v.vertical > 0.0) ==> r.vertical == v.vertical + cfg.gravity * dt
    ensures s.requestedSustainedJump && v.vertical > 0.0 ==>
              r.vertical == v.vertical + cfg.gravity * cfg.jumpSustainGravity * dt
  {
    var effectiveGravity := if s.requestedSustainedJump && v.vertical > 0.0
                            then cfg.gravity * cfg.jumpSustainGravity else cfg.gravity;
    Velocity(v.planar, v.vertical + effectiveGravity * dt)
  }

  /** The airborne velocity: a wall run follows the wall-run block and
      skips gravity; otherwise air control, then gravity. */
  function AirVelocity(s: Fields, cfg: Config, v: Velocity, geo: Geometry, dt: real): Velocity
  {
    if s.state.stance == WallRun then WallRunVelocity(s, cfg, v, geo, dt)
    else Gravity(s, cfg, AirControl(s, v, geo), dt)
  }

  /** The result of the velocity callback: the new fields, the velocity
      handed back to the motor, and whether the motor was told to unground. */
  datatype Motion = Motion(fields: Fields, velocity: Velocity, unground: bool)

  /** The coyote window: recently ungrounded, and not by a jump. */
  predicate CanCoyoteJump(s: Fields, cfg: Config)
  {
    s.timeSinceUngrounded < cfg.coyoteTime && !s.ungroundedDueToJump
  }

  /** A wall hop: a planar push plus an upward boost of 1.5 jump speeds. */
  function Hop(v: Velocity, push: Planar, cfg: Config): (r: Velocity)
    ensures r.vertical - v.vertical == cfg.jumpSpeed * 1.5
    ensures r.planar == v.planar.Plus(push)
  {
    Velocity(v.planar.Plus(push), v.vertical + cfg.jumpSpeed * 1.5)
  }

  /** How many wall hops fire: the side hops off a right wall with A held
      and off a left wall with D held, and the back hop off a forward wall
      with W held. */
  function HopCount(walls: Walls, keys: Keys): (r: nat)
    ensures r <= 3
    ensures r == 0 <==> !HopKeyed(walls, keys)
  {
    (if walls.right && keys.a then 1 else 0)
      + (if walls.left && keys.d then 1 else 0)
      + (if walls.forward && keys.w then 1 else 0)
  }

  /** The planar push of the hops that fire: half a jump speed away from a
      side wall, and half a jump speed along the forward axis, towards a
      forward wall, for the back hop. */
  function HopPush(walls: Walls, keys: Keys, cfg: Config, geo: Geometry): Planar
  {
    (if walls.right && keys.a then geo.right.Scale(-cfg.jumpSpeed * 0.5) else ZeroPlanar)
      .Plus(if walls.left && keys.d then geo.right.Scale(cfg.jumpSpeed * 0.5) else ZeroPlanar)
      .Plus(if walls.forward && keys.w then geo.forward.Scale(cfg.jumpSpeed * 0.5) else ZeroPlanar)
  }

  /** Vector addition regroups. */
  lemma PlusRegroups(v: Planar, a: Planar, b: Planar, c: Planar)
    ensures v.Plus(a).Plus(b).Plus(c) == v.Plus(a.Plus(b).Plus(c))
  {
  }

  /** The vertical speed `count` hops add: 1.5 jump speeds each. */
  function HopLift(jumpSpeed: real, count: nat): real
  {
    jumpSpeed * 1.5 * (count as real)
  }

  /** The lift of `count` hops is non-negative for a non-negative jump
      speed, and at least one hop's lift when any hop fires. */
  lemma HopLiftBounds(jumpSpeed: real, count: nat)
    requires count <= 3
    ensures jumpSpeed >= 0.0 ==> HopLift(jumpSpeed, count) >= 0.0
    ensures jumpSpeed >= 0.0 && count > 0 ==> HopLift(jumpSpeed, count) >= jumpSpeed * 1.5
  {
    HopLiftUnfolds(jumpSpeed, count);
  }

  /** The lift of up to three hops as repeated addition. */
  lemma HopLiftUnfolds(jumpSpeed: real, count: nat)
    requires count <= 3
    ensures var lift := jumpSpeed * 1.5;
            HopLift(jumpSpeed, count) == if count == 0 then 0.0 else if count == 1 then lift
                                         else if count == 2 then lift + lift else lift + lift + lift
  {
  }

  /** One hop, when its wall and key match. */
  function HopIf(v: Velocity, fires: bool, push: Planar, cfg: Config): (r: Velocity)
    ensures r.planar == v.planar.Plus(if fires then push else ZeroPlanar)
    ensures r.vertical == v.vertical + (if fires then cfg.jumpSpeed * 1.5 else 0.0)
  {
    if fires then Hop(v, push, cfg) else v
  }

  /** The hops that fire, applied in the source's order: right-wall side
      hop, left-wall side hop, back hop. */
  function HopVelocity(v: Velocity, walls: Walls, keys: Keys, cfg: Config, geo: Geometry): Velocity
  {
    var right := HopIf(v, walls.right && keys.a, geo.right.Scale(-cfg.jumpSpeed * 0.5), cfg);
    var left := HopIf(right, walls.left && keys.d, geo.right.Scale(cfg.jumpSpeed * 0.5), cfg);
    HopIf(left, walls.forward && keys.w, geo.forward.Scale(cfg.jumpSpeed * 0.5), cfg)
  }

  /** The keyed hops add up: each adds its push and 1.5 jump speeds of
      vertical speed, whatever the order. */
  lemma HopVelocityAdds(v: Velocity, walls: Walls, keys: Keys, cfg: Config, geo: Geometry)
    ensures HopVelocity(v, walls, keys, cfg, geo).vertical == v.vertical + HopLift(cfg.jumpSpeed, HopCount(walls, keys))
    ensures HopVelocity(v, walls, keys, cfg, geo).planar == v.planar.Plus(HopPush(walls, keys, cfg, geo))
  {
    HopLiftUnfolds(cfg.jumpSpeed, HopCount(walls, keys));
    PlusRegroups(v.planar,
                 if walls.right && keys.a then geo.right.Scale(-cfg.jumpSpeed * 0.5) else ZeroPlanar,
                 if walls.left && keys.d then geo.right.Scale(cfg.jumpSpeed * 0.5) else ZeroPlanar,
                 if walls.forward && keys.w then geo.forward.Scale(cfg.jumpSpeed * 0.5) else ZeroPlanar);
  }

  /** A granted jump (ground or coyote): the jump, crouch and crouch-in-air
      requests are consumed, the motor is told to unground, and the vertical
      speed is raised to at least `jumpSpeed` but never lowered. */
  function GrantJump(s: Fields, cfg: Config, v: Velocity): (r: Motion)
    ensures !r.fields.requestedJump && !r.fields.requestedCrouch && !r.fields.requestedCrouchInAir
    ensures r.fields.ungroundedDueToJump && r.unground
    ensures r.velocity.vertical >= cfg.jumpSpeed && r.velocity.vertical >= v.vertical
    ensures r.velocity.vertical == v.vertical || r.velocity.vertical == cfg.jumpSpeed
    ensures r.velocity.planar == v.planar
    ensures r.fields == s.(requestedJump := false, requestedCrouch := false,
                           requestedCrouchInAir := false, ungroundedDueToJump := true)
  {
    var target := MaxReal(v.vertical, cfg.jumpSpeed);
    Motion(s.(requestedJump := false, requestedCrouch := false, requestedCrouchInAir := false,
              ungroundedDueToJump := true),
           Velocity(v.planar, v.vertical + (target - v.vertical)),
           true)
  }

  /** The fields after the detach jump off a wall run: the jump, crouch
      and crouch-in-air requests are consumed and the character stands,
      ungrounded by a jump. */
  function DetachFields(s: Fields): Fields
  {
    s.(requestedJump := false, requestedCrouch := false, requestedCrouchInAir := false,
       state := s.state.(stance := Stand), ungroundedDueToJump := true)
  }

  /** A jump requested during a wall run: the detach jump (consumes the
      requests, stands, ungrounds, boosts the vertical speed by 1.5 times the
      shortfall to `jumpSpeed`), then each keyed side or back hop, which
      leave the request pending. */
  function WallRunJump(s: Fields, cfg: Config, v: Velocity, keys: Keys, geo: Geometry): (r: Motion)
    ensures r.unground <==> DetachJump(s.walls, keys)
    ensures DetachJump(s.walls, keys) ==>
              r.fields == s.(requestedJump := false, requestedCrouch := false, requestedCrouchInAir := false,
                             state := s.state.(stance := Stand), ungroundedDueToJump := true)
    ensures !DetachJump(s.walls, keys) ==> r.fields == s
  {
    var detach := DetachJump(s.walls, keys);
    var s1 := if detach then DetachFields(s) else s;
    var v1 := if detach
              then Velocity(v.planar, v.vertical + (MaxReal(v.vertical, cfg.jumpSpeed) - v.vertical) * 1.5)
              else v;
    Motion(s1, HopVelocity(v1, s.walls, keys, cfg, geo), detach)
  }

  /** The velocity a wall-run jump hands back: the detach boost and every
      keyed hop add up in the same step, so a detach lifts the vertical
      speed to at least `max(old, jumpSpeed)` and hops alone add at least
      one hop's lift; with neither the velocity is untouched. */
  lemma WallRunJumpVelocity(s: Fields, cfg: Config, v: Velocity, keys: Keys, geo: Geometry)
    ensures var r := WallRunJump(s, cfg, v, keys, geo);
            r.velocity.vertical ==
              (if DetachJump(s.walls, keys) then v.vertical + (MaxReal(v.vertical, cfg.jumpSpeed) - v.vertical) * 1.5
               else v.vertical)
              + HopLift(cfg.jumpSpeed, HopCount(s.walls, keys))
    ensures WallRunJump(s, cfg, v, keys, geo).velocity.planar == v.planar.Plus(HopPush(s.walls, keys, cfg, geo))
    ensures DetachJump(s.walls, keys) && !HopKeyed(s.walls, keys) ==>
              WallRunJump(s, cfg, v, keys, geo).velocity
                == Velocity(v.planar, v.vertical + (MaxReal(v.vertical, cfg.jumpSpeed) - v.vertical) * 1.5)
    ensures DetachJump(s.walls, keys) && cfg.jumpSpeed >= 0.0 ==>
              WallRunJump(s, cfg, v, keys, geo).velocity.vertical >= MaxReal(v.vertical, cfg.jumpSpeed)
    ensures !DetachJump(s.walls, keys) && HopKeyed(s.walls, keys) && cfg.jumpSpeed >= 0.0 ==>
              WallRunJump(s, cfg, v, keys, geo).velocity.vertical >= v.vertical + cfg.jumpSpeed * 1.5
    ensures !DetachJump(s.walls, keys) && !HopKeyed(s.walls, keys) ==> WallRunJump(s, cfg, v, keys, geo).velocity == v
  {
    var v1 := if DetachJump(s.walls, keys)
              then Velocity(v.planar, v.vertical + (MaxReal(v.vertical, cfg.jumpSpeed) - v.vertical) * 1.5)
              else v;
    HopVelocityAdds(v1, s.walls, keys, cfg, geo);
    HopLiftBounds(cfg.jumpSpeed, HopCount(s.walls, keys));
  }

  /** A wall-run jump is the detach jump (when it fires) followed by the
      keyed hops, read off the fields and velocity the detach leaves. */
  lemma WallRunJumpComposes(s: Fields, cfg: Config, v: Velocity, keys: Keys, geo: Geometry,
                            detached: Fields, lifted: Velocity)
    requires detached == if DetachJump(s.walls, keys) then DetachFields(s) else s
    requires lifted == if DetachJump(s.walls, keys)
                       then Velocity(v.planar, v.vertical + (MaxReal(v.vertical, cfg.jumpSpeed) - v.vertical) * 1.5)
                       else v
    ensures WallRunJump(s, cfg, v, keys, geo).fields == detached
    ensures WallRunJump(s, cfg, v, keys, geo).velocity == HopVelocity(lifted, s.walls, keys, cfg, geo)
    ensures WallRunJump(s, cfg, v, keys, geo).unground == DetachJump(s.walls, keys)
  {
  }

  /** A request that can be neither granted nor used on a wall ages by `dt`
      and is dropped once its age reaches `coyoteTime`. */
  function BufferJump(s: Fields, cfg: Config, v: Velocity, dt: real): (r: Motion)
    ensures r.fields.timeSinceJumpRequest == s.timeSinceJumpRequest + dt
    ensures r.fields.requestedJump <==> r.fields.timeSinceJumpRequest < cfg.coyoteTime
    ensures r.velocity == v && !r.unground
    ensures r.fields == s.(requestedJump := r.fields.requestedJump,
                           timeSinceJumpRequest := r.fields.timeSinceJumpRequest)
  {
    var age := s.timeSinceJumpRequest + dt;
    Motion(s.(timeSinceJumpRequest := age, requestedJump := age < cfg.coyoteTime), v, false)
  }

  /** The jump controller. A pending request is granted on stable ground or
      inside the coyote window; during a wall run it detaches and/or hops;
      otherwise it is buffered. */
  function JumpStep(s: Fields, cfg: Config, v: Velocity, stable: bool, keys: Keys, dt: real, geo: Geometry): (r: Motion)
    ensures !s.requestedJump ==> r == Motion(s, v, false)
    ensures s.requestedJump && (stable || CanCoyoteJump(s, cfg)) ==>
              && !r.fields.requestedJump && !r.fields.requestedCrouch && !r.fields.requestedCrouchInAir
              && r.fields.ungroundedDueToJump && r.unground && r.velocity.vertical >= cfg.jumpSpeed
              && r.fields.state == s.state
    ensures s.requestedJump && !(stable || CanCoyoteJump(s, cfg)) && s.state.stance == WallRun ==>
              && (r.fields.requestedJump <==> !DetachJump(s.walls, keys))
              && r.fields.state.stance == (if DetachJump(s.walls, keys) then Stand else WallRun)
              && r.fields.timeSinceJumpRequest == s.timeSinceJumpRequest
    ensures s.requestedJump && !(stable || CanCoyoteJump(s, cfg)) && s.state.stance != WallRun ==>
              && r.fields.timeSinceJumpRequest == s.timeSinceJumpRequest + dt
              && (r.fields.requestedJump <==> r.fields.timeSinceJumpRequest < cfg.coyoteTime)
              && r.velocity == v && !r.unground
  {
    if !s.requestedJump then
      Motion(s, v, false)
    else if stable || CanCoyoteJump(s, cfg) then
      GrantJump(s, cfg, v)
    else if s.state.stance == WallRun then
      WallRunJump(s, cfg, v, keys, geo)
    else
      BufferJump(s, cfg, v, dt)
  }

  /** UpdateVelocity: the ground/air timers, then the grounded branch (slide
      start, move or continue slide) or the airborne branch (wall run or air
      control, then gravity), then the jump controller. */
  function VelocityStep(s: Fields, cfg: Config, v: Velocity, dt: real, stable: bool, keys: Keys, geo: Geometry): (r: Motion)
    ensures stable ==> r.fields.timeSinceUngrounded == 0.0
    ensures !stable ==> r.fields.timeSinceUngrounded == s.timeSinceUngrounded + dt
    ensures r.fields.ungroundedDueToJump ==> r.unground || (!stable && s.ungroundedDueToJump)
    ensures r.fields.requestedJump ==> s.requestedJump
    ensures !s.requestedJump ==> !r.unground
    // jump granted on the ground or inside the coyote window
    ensures s.requestedJump && (stable || (s.timeSinceUngrounded + dt < cfg.coyoteTime && !s.ungroundedDueToJump)) ==>
              && !r.fields.requestedJump && !r.fields.requestedCrouch && !r.fields.requestedCrouchInAir
              && r.fields.ungroundedDueToJump && r.unground && r.velocity.vertical >= cfg.jumpSpeed
    // jump buffered
    ensures s.requestedJump && !stable && !(s.timeSinceUngrounded + dt < cfg.coyoteTime && !s.ungroundedDueToJump)
              && s.state.stance != WallRun ==>
              && r.fields.timeSinceJumpRequest == s.timeSinceJumpRequest + dt
              && (r.fields.requestedJump <==> r.fields.timeSinceJumpRequest < cfg.coyoteTime)
              && !r.unground
    ensures r.fields.timeSinceJumpRequest != s.timeSinceJumpRequest ==>
              r.fields.timeSinceJumpRequest == s.timeSinceJumpRequest + dt
    // stance
    ensures r.fields.state.stance == Slide ==> stable || s.state.stance == Slide
    ensures r.fields.state.stance == WallRun ==> s.state.stance == WallRun
    ensures s.state.stance == Stand ==> r.fields.state.stance == Stand
    ensures stable && (SlideStarts(s, geo) || s.state.stance == Slide) ==>
              r.fields.state.stance ==
                (if MagnitudeBelow(geo.slideMove.SqrMagnitude(), cfg.slideEndSpeed) then Crouch else Slide)
    ensures !stable && s.state.stance != WallRun ==> r.fields.state.stance == s.state.stance
    // the incoming vertical speed is replaced
    ensures !stable && s.state.stance == WallRun && !s.requestedJump ==>
              r.velocity.vertical ==
                (if s.walls.forward && MagnitudeAtMost(v.planar.SqrMagnitude(), cfg.maxWallSpeed)
                 then cfg.wallRunForce * dt else 0.0)
    ensures r.fields.requestedCrouchInAir ==> s.requestedCrouchInAir
    ensures r.fields.requestedCrouch ==> s.requestedCrouch
    ensures r.fields == s.(state := s.state.(stance := r.fields.state.stance),
                           requestedJump := r.fields.requestedJump,
                           requestedCrouch := r.fields.requestedCrouch,
                           requestedCrouchInAir := r.fields.requestedCrouchInAir,
                           timeSinceUngrounded := r.fields.timeSinceUngrounded,
                           timeSinceJumpRequest := r.fields.timeSinceJumpRequest,
                           ungroundedDueToJump := r.fields.ungroundedDueToJump)
  {
    var timed := Timers(s, stable, dt);
    if stable then
      var started := StartSlide(timed, cfg, v, geo);
      var moved := GroundMove(started.0, cfg, started.1, geo);
      JumpStep(moved.0, cfg, moved.1, stable, keys, dt, geo)
    else
      JumpStep(timed, cfg, AirVelocity(timed, cfg, v, geo, dt), stable, keys, dt, geo)
  }

  // ------------------------------------------------ after ground probing

  /** PostGroundingUpdate: a slide that lost stable ground becomes a crouch.
      Nothing else changes. */
  function PostGroundingStep(s: Fields, stable: bool): (r: Fields)
    ensures !stable ==> r.state.stance != Slide
    ensures stable ==> r == s
    ensures r.state.stance != s.state.stance ==> s.state.stance == Slide && r.state.stance == Crouch
    ensures r == s.(state := s.state.(stance := r.state.stance))
  {
    if !stable && s.state.stance == Slide then s.(state := s.state.(stance := Crouch)) else s
  }

  // ----------------------------------------------------- after the motor

  /** AfterCharacterUpdate: when crouch is no longer requested and the
      stance is not Stand, try the standing capsule; an overlap at standing
      height re-latches the crouch and restores the crouch capsule, no
      overlap commits the standing capsule and (unless wall-running) the
      Stand stance. Then the grounding and resolved velocity are committed
      and the last state becomes the snapshot taken by BeforeStep. */
  function AfterStep(s: Fields, cfg: Config, overlaps: nat, stable: bool, motorVelocity: Velocity): (r: Fields)
    ensures s.requestedCrouch || s.state.stance == Stand ==>
              r.state.stance == s.state.stance && r.capsuleHeight == s.capsuleHeight &&
              r.requestedCrouch == s.requestedCrouch
    ensures !s.requestedCrouch && s.state.stance != Stand && overlaps > 0 ==>
              r.requestedCrouch && r.capsuleHeight == cfg.crouchHeight && r.state.stance == s.state.stance
    ensures !s.requestedCrouch && s.state.stance != Stand && overlaps == 0 ==>
              !r.requestedCrouch && r.capsuleHeight == cfg.standHeight &&
              r.state.stance == (if s.state.stance == WallRun then WallRun else Stand)
    ensures !r.requestedCrouch && r.state.stance != Stand ==> r.capsuleHeight == cfg.standHeight
    ensures r.lastState == s.tempState
    ensures r.state.grounded == stable && r.state.velocity == motorVelocity
    ensures r == s.(state := CharacterState(stable, r.state.stance, motorVelocity),
                    lastState := s.tempState,
                    requestedCrouch := r.requestedCrouch,
                    capsuleHeight := r.capsuleHeight)
  {
    var uncrouched :=
      if !s.requestedCrouch && s.state.stance != Stand then
        if overlaps > 0 then
          s.(requestedCrouch := true, capsuleHeight := cfg.crouchHeight)
        else
          s.(capsuleHeight := cfg.standHeight,
             state := s.state.(stance := if s.state.stance != WallRun then Stand else s.state.stance))
      else s;
    uncrouched.(state := uncrouched.state.(grounded := stable, velocity := motorVelocity),
                lastState := s.tempState)
  }

  // ---------------------------------------------------------- whole step

  /** What the motor and the world supply for one simulation step.
      `stableBefore` is the grounding report seen by BeforeCharacterUpdate,
      `stable` the one seen after ground probing; `velocity` is the motor's
      velocity handed to UpdateVelocity and `motorVelocity` the one it
      resolves; `overlaps` counts colliders overlapping the standing capsule. */
  datatype Frame = Frame(
    dt: real,
    stableBefore: bool,
    probe: Walls,
    keys: Keys,
    stable: bool,
    velocity: Velocity,
    geo: Geometry,
    overlaps: nat,
    motorVelocity: Velocity)

  /** One simulation step: the four callbacks, with UpdateVelocity before
      PostGroundingUpdate. The motor calls PostGroundingUpdate first;
      PostGroundingCommutes shows the two orders give the same fields. The
      rotation callback only aims the capsule and is not part of this model. */
  function Step(s: Fields, cfg: Config, f: Frame): Fields
  {
    var before := BeforeStep(s, cfg, f.stableBefore, f.probe, f.keys);
    var moved := VelocityStep(before, cfg, f.velocity, f.dt, f.stable, f.keys, f.geo);
    var probed := PostGroundingStep(moved.fields, f.stable);
    AfterStep(probed, cfg, f.overlaps, f.stable, f.motorVelocity)
  }

  /** Between simulation steps the game loop may deliver any number of
      input frames; a tick is one or the other. */
  datatype Tick = Input(input: CharacterInput) | Simulate(frame: Frame)

  function ApplyTick(s: Fields, cfg: Config, t: Tick): Fields
  {
    match t
    case Input(input) => InputStep(s, input)
    case Simulate(f) => Step(s, cfg, f)
  }

  function Run(s: Fields, cfg: Config, ticks: seq<Tick>): Fields
    decreases |ticks|
  {
    if ticks == [] then s else Run(ApplyTick(s, cfg, ticks[0]), cfg, ticks[1..])
  }
}
