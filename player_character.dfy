/**
  The character controller as the object the motor calls back into
  (PlayerCharacter.cs). Each callback updates the fields in place, in the
  source's statement order (except UpdateInput, which takes its two latches
  before its plain assignments; they write disjoint fields, so the result
  is the same), and names in its `modifies` clause exactly the
  fields it may write. Its postcondition ties the new fields to the step
  function of module Movement applied to the old ones, so everything proved
  about those functions holds of the object.

  The longer callbacks are split into one method per commented block of the
  source (jump latch, crouch latch, slide start, ground move, air move, the
  three jump outcomes). Most block methods are proved against the Movement
  function for that block; CrouchDown, CheckWalls, UpdateWallRun and
  BufferJumpRequest state their new fields directly, and their callers are
  proved against the Movement functions through those postconditions.
*/
module Character {
  import opened Movement

  class PlayerCharacter {
    const config: Config

    var state: CharacterState
    var lastState: CharacterState
    var tempState: CharacterState

    var requestedMovement: Planar
    var requestedJump: bool
    var requestedSustainedJump: bool
    var requestedCrouch: bool
    var requestedCrouchInAir: bool
    var requestedWallRun: bool

    var timeSinceUngrounded: real
    var timeSinceJumpRequest: real
    var ungroundedDueToJump: bool

    var isWallRight: bool
    var isWallLeft: bool
    var isWallForward: bool

    /** The motor capsule's height, which only this controller sets. */
    var capsuleHeight: real

    /** The fields as one value. */
    function Snapshot(): Fields
      reads this
    {
      Fields(
        state, lastState, tempState, requestedMovement,
        requestedJump, requestedSustainedJump, requestedCrouch, requestedCrouchInAir, requestedWallRun,
        timeSinceUngrounded, timeSinceJumpRequest, ungroundedDueToJump,
        Walls(isWallForward, isWallRight, isWallLeft),
        capsuleHeight)
    }

    /** A freshly created controller (all fields at their defaults) on which
        Initialize has run: stance Stand, last state a copy of the state. */
    constructor Initialize(config: Config, capsuleHeight: real)
      ensures this.config == config
      ensures Snapshot() == Initial(capsuleHeight)
    {
      this.config := config;
      state := DefaultState;
      tempState := DefaultState;
      requestedMovement := ZeroPlanar;
      requestedJump, requestedSustainedJump := false, false;
      requestedCrouch, requestedCrouchInAir, requestedWallRun := false, false, false;
      timeSinceUngrounded, timeSinceJumpRequest := 0.0, 0.0;
      ungroundedDueToJump := false;
      isWallRight, isWallLeft, isWallForward := false, false, false;
      this.capsuleHeight := capsuleHeight;
      new;
      state := state.(stance := Stand);
      lastState := state;
    }

    // -------------------------------------------------------------- input

    method UpdateInput(input: CharacterInput)
      modifies this`requestedMovement, this`requestedJump, this`timeSinceJumpRequest,
               this`requestedSustainedJump, this`requestedCrouch, this`requestedCrouchInAir,
               this`requestedWallRun
      ensures Snapshot() == InputStep(old(Snapshot()), input)
    {
      LatchJumpRequest(input.jump);
      LatchCrouchRequest(input.crouch);
      requestedMovement := input.move;
      requestedSustainedJump := input.jumpSustain;
      requestedWallRun := requestedWallRun || input.wallRun;
    }

    /** The jump block: the sticky request and its age. */
    method LatchJumpRequest(jump: bool)
      modifies this`requestedJump, this`timeSinceJumpRequest
      ensures Snapshot() == LatchJump(old(Snapshot()), jump)
    {
      var wasRequestingJump := requestedJump;
      requestedJump := requestedJump || jump;
      if requestedJump && !wasRequestingJump {
        timeSinceJumpRequest := 0.0;
      }
    }

    /** The crouch block: the toggle and its in-air record. */
    method LatchCrouchRequest(crouch: CrouchInput)
      modifies this`requestedCrouch, this`requestedCrouchInAir
      ensures Snapshot() == LatchCrouch(old(Snapshot()), crouch)
    {
      var wasRequestingCrouch := requestedCrouch;
      if crouch == Toggle {
        requestedCrouch := !requestedCrouch;
      }
      if requestedCrouch && !wasRequestingCrouch {
        requestedCrouchInAir := !state.grounded;
      } else if !requestedCrouch && wasRequestingCrouch {
        requestedCrouchInAir := false;
      }
    }

    // ---------------------------------------------------- before the motor

    /** `stable` is the grounding report the motor holds before it probes. */
    method BeforeCharacterUpdate(stable: bool, probe: Walls, keys: Keys)
      modifies this`tempState, this`state, this`capsuleHeight,
               this`isWallForward, this`isWallRight, this`isWallLeft
      ensures Snapshot() == BeforeStep(old(Snapshot()), config, stable, probe, keys)
    {
      tempState := state;
      CrouchDown();
      CheckWalls(probe);
      UpdateWallRun(stable, keys);
    }

    /** A crouch request while standing lowers the capsule. */
    method CrouchDown()
      modifies this`state, this`capsuleHeight
      ensures requestedCrouch && old(state).stance == Stand ==>
                state == old(state).(stance := Crouch) && capsuleHeight == config.crouchHeight
      ensures !(requestedCrouch && old(state).stance == Stand) ==>
                state == old(state) && capsuleHeight == old(capsuleHeight)
    {
      if requestedCrouch && state.stance == Stand {
        state := state.(stance := Crouch);
        capsuleHeight := config.crouchHeight;
      }
    }

    method CheckWalls(probe: Walls)
      modifies this`isWallForward, this`isWallRight, this`isWallLeft
      ensures Walls(isWallForward, isWallRight, isWallLeft) == probe
    {
      isWallForward := probe.forward;
      isWallRight := probe.right;
      isWallLeft := probe.left;
    }

    /** Enter the wall run on a keyed wall while not stably grounded; leave
        it when no wall is found. */
    method UpdateWallRun(stable: bool, keys: Keys)
      modifies this`state
      ensures var walls := Walls(isWallForward, isWallRight, isWallLeft);
              var enter := WallRunKeyed(walls, keys) && !stable;
              state.stance == (if !walls.Any() && (enter || old(state).stance == WallRun) then Stand
                               else if enter then WallRun
                               else old(state).stance)
      ensures state == old(state).(stance := state.stance)
    {
      var wallRunForward := isWallForward && keys.w;
      var wallRunRight := isWallRight && keys.d;
      var wallRunLeft := isWallLeft && keys.a;
      if (wallRunLeft || wallRunRight || wallRunForward) && !stable {
        state := state.(stance := WallRun);
      }
      if !isWallLeft && !isWallRight && !isWallForward && state.stance == WallRun {
        state := state.(stance := Stand);
      }
    }

    // ------------------------------------------------------------- velocity

    /** `v` is the motor's current velocity; the method returns the velocity
        it asks for and whether it told the motor to unground. */
    method UpdateVelocity(v: Velocity, dt: real, stable: bool, keys: Keys, geo: Geometry)
      returns (currentVelocity: Velocity, unground: bool)
      modifies this`state, this`requestedJump, this`requestedCrouch, this`requestedCrouchInAir,
               this`timeSinceUngrounded, this`timeSinceJumpRequest, this`ungroundedDueToJump
      ensures Motion(Snapshot(), currentVelocity, unground)
              == VelocityStep(old(Snapshot()), config, v, dt, stable, keys, geo)
    {
      UpdateTimers(stable, dt);
      if stable {
        currentVelocity := StartSliding(v, geo);
        currentVelocity := MoveOnGround(currentVelocity, geo);
      } else {
        currentVelocity := MoveInAir(v, dt, geo);
      }
      currentVelocity, unground := Jump(currentVelocity, stable, keys, dt, geo);
    }

    /** The ground/air timers at the head of either branch. */
    method UpdateTimers(stable: bool, dt: real)
      modifies this`timeSinceUngrounded, this`ungroundedDueToJump
      ensures Snapshot() == Timers(old(Snapshot()), stable, dt)
    {
      if stable {
        timeSinceUngrounded := 0.0;
        ungroundedDueToJump := false;
      } else {
        timeSinceUngrounded := timeSinceUngrounded + dt;
      }
    }

    /** The slide-start block of the grounded branch. */
    method StartSliding(v: Velocity, geo: Geometry) returns (currentVelocity: Velocity)
      modifies this`state, this`requestedCrouchInAir
      ensures (Snapshot(), currentVelocity) == StartSlide(old(Snapshot()), config, v, geo)
    {
      currentVelocity := v;
      var moving := requestedMovement != ZeroPlanar && geo.tangentMoves;
      var crouching := state.stance == Crouch;
      var wasStanding := lastState.stance == Stand;
      var wasInAir := !lastState.grounded;
      if moving && crouching && (wasStanding || wasInAir) {
        state := state.(stance := Slide);
        var effectiveSlideStartSpeed := config.slideStartSpeed;
        if !lastState.grounded && !requestedCrouchInAir {
          effectiveSlideStartSpeed := 0.0;
          requestedCrouchInAir := false;
        }
        var slideSpeed := MaxReal(effectiveSlideStartSpeed, geo.entrySpeed);
        currentVelocity := geo.entryDirection.Scale(slideSpeed);
      }
    }

    /** The move and continue-sliding blocks of the grounded branch. */
    method MoveOnGround(v: Velocity, geo: Geometry) returns (currentVelocity: Velocity)
      modifies this`state
      ensures (Snapshot(), currentVelocity) == GroundMove(old(Snapshot()), config, v, geo)
    {
      currentVelocity := v;
      if state.stance == Stand || state.stance == Crouch {
        currentVelocity := geo.groundMove;
      } else if state.stance != WallRun {
        currentVelocity := geo.slideMove;
        if MagnitudeBelow(currentVelocity.SqrMagnitude(), config.slideEndSpeed) {
          state := state.(stance := Crouch);
        }
      }
    }

    /** The airborne branch after its timer: wall run, or air move then
        gravity. It reads the fields and writes none. */
    method MoveInAir(v: Velocity, dt: real, geo: Geometry) returns (currentVelocity: Velocity)
      ensures currentVelocity == AirVelocity(Snapshot(), config, v, geo, dt)
    {
      if state.stance == WallRun {
        currentVelocity := WallRunMove(v, dt, geo);
      } else {
        currentVelocity := AirMove(v, geo);
        currentVelocity := ApplyGravity(currentVelocity, dt);
      }
    }

    /** The wall-run block. */
    method WallRunMove(v: Velocity, dt: real, geo: Geometry) returns (currentVelocity: Velocity)
      ensures currentVelocity == WallRunVelocity(Snapshot(), config, v, geo, dt)
    {
      currentVelocity := Velocity(v.planar, 0.0);
      if MagnitudeAtMost(currentVelocity.SqrMagnitude(), config.maxWallSpeed) {
        var push := config.wallRunForce * dt;
        if !isWallForward {
          currentVelocity := currentVelocity.(planar := currentVelocity.planar.Plus(geo.forward.Scale(push)));
        } else {
          currentVelocity := currentVelocity.(vertical := currentVelocity.vertical + push);
        }
        // stick to the wall
        var stick := config.wallRunForce / 5.0 * dt;
        if isWallRight {
          currentVelocity := currentVelocity.(planar := currentVelocity.planar.Plus(geo.right.Scale(stick)));
        } else if isWallLeft {
          currentVelocity := currentVelocity.(planar := currentVelocity.planar.Plus(geo.right.Scale(-stick)));
        } else {
          currentVelocity := currentVelocity.(planar := currentVelocity.planar.Plus(geo.forward.Scale(stick)));
        }
      }
    }

    /** The air-move block. */
    method AirMove(v: Velocity, geo: Geometry) returns (currentVelocity: Velocity)
      ensures currentVelocity == AirControl(Snapshot(), v, geo)
    {
      currentVelocity := v;
      if requestedMovement != ZeroPlanar {
        currentVelocity := currentVelocity.(planar := currentVelocity.planar.Plus(geo.airForce));
      }
    }

    /** The gravity block. */
    method ApplyGravity(v: Velocity, dt: real) returns (currentVelocity: Velocity)
      ensures currentVelocity == Gravity(Snapshot(), config, v, dt)
    {
      var effectiveGravity := config.gravity;
      if requestedSustainedJump && v.vertical > 0.0 {
        effectiveGravity := effectiveGravity * config.jumpSustainGravity;
      }
      currentVelocity := v.(vertical := v.vertical + effectiveGravity * dt);
    }

    /** The jump block: grant, wall-run jump, or buffer a pending request. */
    method Jump(v: Velocity, stable: bool, keys: Keys, dt: real, geo: Geometry)
      returns (currentVelocity: Velocity, unground: bool)
      modifies this`state, this`requestedJump, this`requestedCrouch, this`requestedCrouchInAir,
               this`timeSinceJumpRequest, this`ungroundedDueToJump
      ensures Motion(Snapshot(), currentVelocity, unground)
              == JumpStep(old(Snapshot()), config, v, stable, keys, dt, geo)
    {
      currentVelocity, unground := v, false;
      if requestedJump {
        var canCoyoteJump := timeSinceUngrounded < config.coyoteTime && !ungroundedDueToJump;
        if stable || canCoyoteJump {
          currentVelocity, unground := JumpNow(v);
        } else if state.stance == WallRun {
          currentVelocity, unground := JumpOffWall(v, keys, geo);
        } else {
          BufferJumpRequest(dt);
        }
      }
    }

    /** A granted jump. */
    method JumpNow(v: Velocity) returns (currentVelocity: Velocity, unground: bool)
      modifies this`requestedJump, this`requestedCrouch, this`requestedCrouchInAir,
               this`ungroundedDueToJump
      ensures Motion(Snapshot(), currentVelocity, unground) == GrantJump(old(Snapshot()), config, v)
    {
      currentVelocity := v;
      requestedJump := false;
      requestedCrouch := false;
      requestedCrouchInAir := false;
      unground := true;
      ungroundedDueToJump := true;
      var currentVerticalSpeed := currentVelocity.vertical;
      var targetVerticalSpeed := MaxReal(currentVerticalSpeed, config.jumpSpeed);
      currentVelocity := currentVelocity.(vertical := currentVelocity.vertical + (targetVerticalSpeed - currentVerticalSpeed));
    }

    /** A jump requested during a wall run: detach, then the hops. */
    method JumpOffWall(v: Velocity, keys: Keys, geo: Geometry) returns (currentVelocity: Velocity, unground: bool)
      modifies this`state, this`requestedJump, this`requestedCrouch, this`requestedCrouchInAir,
               this`ungroundedDueToJump
      ensures Snapshot() == WallRunJump(old(Snapshot()), config, v, keys, geo).fields
      ensures currentVelocity == WallRunJump(old(Snapshot()), config, v, keys, geo).velocity
      ensures unground == WallRunJump(old(Snapshot()), config, v, keys, geo).unground
    {
      ghost var before := Snapshot();
      ghost var walls := Walls(isWallForward, isWallRight, isWallLeft);
      assert before.walls == walls;
      currentVelocity, unground := v, false;
      if (isWallLeft && !keys.d) || (isWallRight && !keys.a) || (isWallForward && !keys.w) {
        currentVelocity := DetachFromWall(currentVelocity);
        unground := true;
        WallRunJumpComposes(before, config, v, keys, geo, Snapshot(), currentVelocity);
      } else {
        WallRunJumpComposes(before, config, v, keys, geo, before, v);
      }
      // side wall hops, then the back hop; each applies only when keyed
      currentVelocity := HopIf(currentVelocity, isWallRight && keys.a, geo.right.Scale(-config.jumpSpeed * 0.5), config);
      currentVelocity := HopIf(currentVelocity, isWallLeft && keys.d, geo.right.Scale(config.jumpSpeed * 0.5), config);
      currentVelocity := HopIf(currentVelocity, isWallForward && keys.w, geo.forward.Scale(config.jumpSpeed * 0.5), config);
    }

    /** The detach jump: the requests are consumed, the character stands,
        and the vertical speed gains 1.5 times its shortfall to `jumpSpeed`. */
    method DetachFromWall(v: Velocity) returns (currentVelocity: Velocity)
      modifies this`state, this`requestedJump, this`requestedCrouch, this`requestedCrouchInAir,
               this`ungroundedDueToJump
      ensures Snapshot() == DetachFields(old(Snapshot()))
      ensures currentVelocity == Velocity(v.planar, v.vertical + (MaxReal(v.vertical, config.jumpSpeed) - v.vertical) * 1.5)
    {
      requestedJump := false;
      requestedCrouch := false;
      requestedCrouchInAir := false;
      state := state.(stance := Stand);
      ungroundedDueToJump := true;
      var currentVerticalSpeed := v.vertical;
      var targetVerticalSpeed := MaxReal(currentVerticalSpeed, config.jumpSpeed);
      currentVelocity := v.(vertical := v.vertical + (targetVerticalSpeed - currentVerticalSpeed) * 1.5);
    }

    /** A request that cannot be used yet ages and expires. */
    method BufferJumpRequest(dt: real)
      modifies this`requestedJump, this`timeSinceJumpRequest
      ensures timeSinceJumpRequest == old(timeSinceJumpRequest) + dt
      ensures requestedJump == (timeSinceJumpRequest < config.coyoteTime)
    {
      timeSinceJumpRequest := timeSinceJumpRequest + dt;
      var canJumpLater := timeSinceJumpRequest < config.coyoteTime;
      requestedJump := canJumpLater;
    }

    // ------------------------------------------------ after ground probing

    method PostGroundingUpdate(stable: bool)
      modifies this`state
      ensures Snapshot() == PostGroundingStep(old(Snapshot()), stable)
    {
      if !stable && state.stance == Slide {
        state := state.(stance := Crouch);
      }
    }

    // ----------------------------------------------------- after the motor

    /** `overlaps` is the number of colliders the standing capsule would
        overlap; `motorVelocity` the velocity the motor resolved. */
    method AfterCharacterUpdate(overlaps: nat, stable: bool, motorVelocity: Velocity)
      modifies this`state, this`requestedCrouch, this`capsuleHeight, this`lastState
      ensures Snapshot() == AfterStep(old(Snapshot()), config, overlaps, stable, motorVelocity)
    {
      // uncrouch
      if !requestedCrouch && state.stance != Stand {
        // tentatively stand the capsule up
        capsuleHeight := config.standHeight;
        if overlaps > 0 {
          // re-crouch
          requestedCrouch := true;
          capsuleHeight := config.crouchHeight;
        } else if state.stance != WallRun {
          state := state.(stance := Stand);
        }
      }

      state := state.(grounded := stable, velocity := motorVelocity);
      lastState := tempState;
    }
  }
}
