/**
  Properties of the controller's step functions that span more than one
  callback: what a whole simulation step guarantees, the invariant every
  reachable controller keeps, what runs of input frames do to the latches,
  and combinations the code reaches, such as standing with the crouch
  capsule after a wall-run jump.
*/
module MovementProperties {
  import opened Movement

  // ------------------------------------------------------- input frames

  /** Several input frames delivered between two simulation steps. */
  function ApplyInputs(s: Fields, inputs: seq<CharacterInput>): Fields
    decreases |inputs|
  {
    if inputs == [] then s else ApplyInputs(InputStep(s, inputs[0]), inputs[1..])
  }

  /** Some frame among `inputs` pressed jump. */
  predicate JumpPressed(inputs: seq<CharacterInput>)
  {
    exists i :: 0 <= i < |inputs| && inputs[i].jump
  }

  /** The jump latch is sticky across input frames: it is set afterwards
      exactly when it was set before or some frame pressed jump, and no
      input frame clears it. */
  lemma {:induction false} InputsLatchJump(s: Fields, inputs: seq<CharacterInput>)
    ensures ApplyInputs(s, inputs).requestedJump <==> s.requestedJump || JumpPressed(inputs)
    decreases |inputs|
  {
    if inputs != [] {
      var next := InputStep(s, inputs[0]);
      InputsLatchJump(next, inputs[1..]);
      if JumpPressed(inputs[1..]) {
        var i :| 0 <= i < |inputs[1..]| && inputs[1..][i].jump;
        assert inputs[i + 1].jump;
      }
      if JumpPressed(inputs) && !inputs[0].jump {
        var i :| 0 <= i < |inputs| && inputs[i].jump;
        assert inputs[1..][i - 1].jump;
      }
    }
  }

  /** The number of Toggle frames. */
  function Toggles(inputs: seq<CharacterInput>): nat
    decreases |inputs|
  {
    if inputs == [] then 0
    else (if inputs[0].crouch == Toggle then 1 else 0) + Toggles(inputs[1..])
  }

  /** The crouch request is a toggle: across input frames it flips exactly
      when an odd number of frames toggled it. */
  lemma {:induction false} InputsToggleCrouch(s: Fields, inputs: seq<CharacterInput>)
    ensures ApplyInputs(s, inputs).requestedCrouch == (s.requestedCrouch != (Toggles(inputs) % 2 == 1))
    decreases |inputs|
  {
    if inputs != [] {
      InputsToggleCrouch(InputStep(s, inputs[0]), inputs[1..]);
    }
  }

  /** Input frames leave the simulation state, the timers other than the
      jump age, the wall flags and the capsule alone. */
  lemma {:induction false} InputsKeepSimulation(s: Fields, inputs: seq<CharacterInput>)
    ensures var r := ApplyInputs(s, inputs);
            r.state == s.state && r.lastState == s.lastState && r.tempState == s.tempState &&
            r.timeSinceUngrounded == s.timeSinceUngrounded && r.ungroundedDueToJump == s.ungroundedDueToJump &&
            r.walls == s.walls && r.capsuleHeight == s.capsuleHeight
    decreases |inputs|
  {
    if inputs != [] {
      InputsKeepSimulation(InputStep(s, inputs[0]), inputs[1..]);
    }
  }

  /** Repeating an input frame without a crouch toggle changes nothing:
      the latches are idempotent. */
  lemma InputIdempotent(s: Fields, input: CharacterInput)
    requires input.crouch == None
    ensures InputStep(InputStep(s, input), input) == InputStep(s, input)
  {
  }

  /** Two crouch toggles restore the crouch request. The in-air record ends
      cleared when the request was off, and records the grounding when it
      was on. */
  lemma ToggleTwice(s: Fields, input: CharacterInput)
    requires input.crouch == Toggle
    ensures var r := InputStep(InputStep(s, input), input);
            r.requestedCrouch == s.requestedCrouch &&
            (if s.requestedCrouch then r.requestedCrouchInAir == !s.state.grounded
             else !r.requestedCrouchInAir)
  {
  }

  // -------------------------------------------------- one simulation step

  /** The last state a step leaves is the state the step started from: the
      snapshot BeforeCharacterUpdate takes, one step behind. */
  lemma StepLagsLastState(s: Fields, cfg: Config, f: Frame)
    ensures Step(s, cfg, f).lastState == s.state
  {
  }

  /** A step commits the motor's grounding report and resolved velocity. */
  lemma StepCommitsMotor(s: Fields, cfg: Config, f: Frame)
    ensures Step(s, cfg, f).state.grounded == f.stable
    ensures Step(s, cfg, f).state.velocity == f.motorVelocity
  {
  }

  /** A slide never survives a step that ends off stable ground. */
  lemma StepSlideIsGrounded(s: Fields, cfg: Config, f: Frame)
    ensures var r := Step(s, cfg, f); r.state.stance == Slide ==> r.state.grounded
  {
  }

  /** A step ends wall-running only beside a wall its probes found. */
  lemma StepWallRunHasWall(s: Fields, cfg: Config, f: Frame)
    ensures var r := Step(s, cfg, f); r.state.stance == WallRun ==> r.walls.Any() && r.walls == f.probe
  {
  }

  /** A step ends with the standing capsule whenever crouch is not requested
      and the stance is not Stand. */
  lemma StepReleasedCrouchStands(s: Fields, cfg: Config, f: Frame)
    ensures var r := Step(s, cfg, f);
            !r.requestedCrouch && r.state.stance != Stand ==> r.capsuleHeight == cfg.standHeight
  {
  }

  /** The wall-run request is latched by input and never cleared by a step. */
  lemma StepKeepsWallRunRequest(s: Fields, cfg: Config, f: Frame)
    ensures Step(s, cfg, f).requestedWallRun == s.requestedWallRun
  {
  }

  // The wall-run request is never read. Each block below is shown not to
  // depend on it; the blocks' results differ only in the request itself.

  lemma GrantIgnoresWallRunRequest(s: Fields, cfg: Config, v: Velocity, latched: bool)
    ensures var m := GrantJump(s, cfg, v);
            GrantJump(s.(requestedWallRun := latched), cfg, v) == m.(fields := m.fields.(requestedWallRun := latched))
  {
  }

  lemma WallJumpIgnoresWallRunRequest(s: Fields, cfg: Config, v: Velocity, keys: Keys, geo: Geometry, latched: bool)
    ensures var m := WallRunJump(s, cfg, v, keys, geo);
            WallRunJump(s.(requestedWallRun := latched), cfg, v, keys, geo)
              == m.(fields := m.fields.(requestedWallRun := latched))
  {
  }

  lemma BufferIgnoresWallRunRequest(s: Fields, cfg: Config, v: Velocity, dt: real, latched: bool)
    ensures var m := BufferJump(s, cfg, v, dt);
            BufferJump(s.(requestedWallRun := latched), cfg, v, dt) == m.(fields := m.fields.(requestedWallRun := latched))
  {
  }

  lemma JumpIgnoresWallRunRequest(s: Fields, cfg: Config, v: Velocity, stable: bool, keys: Keys, dt: real,
                                  geo: Geometry, latched: bool)
    ensures var m := JumpStep(s, cfg, v, stable, keys, dt, geo);
            JumpStep(s.(requestedWallRun := latched), cfg, v, stable, keys, dt, geo)
              == m.(fields := m.fields.(requestedWallRun := latched))
  {
    if s.requestedJump {
      if stable || CanCoyoteJump(s, cfg) {
        GrantIgnoresWallRunRequest(s, cfg, v, latched);
      } else if s.state.stance == WallRun {
        WallJumpIgnoresWallRunRequest(s, cfg, v, keys, geo, latched);
      } else {
        BufferIgnoresWallRunRequest(s, cfg, v, dt, latched);
      }
    }
  }

  lemma GroundIgnoresWallRunRequest(s: Fields, cfg: Config, v: Velocity, geo: Geometry, latched: bool)
    ensures var started := StartSlide(s, cfg, v, geo);
            var moved := GroundMove(started.0, cfg, started.1, geo);
            var t := StartSlide(s.(requestedWallRun := latched), cfg, v, geo);
            GroundMove(t.0, cfg, t.1, geo) == (moved.0.(requestedWallRun := latched), moved.1)
  {
    var started := StartSlide(s, cfg, v, geo);
    assert StartSlide(s.(requestedWallRun := latched), cfg, v, geo)
           == (started.0.(requestedWallRun := latched), started.1);
  }

  lemma AirIgnoresWallRunRequest(s: Fields, cfg: Config, v: Velocity, geo: Geometry, dt: real, latched: bool)
    ensures AirVelocity(s.(requestedWallRun := latched), cfg, v, geo, dt) == AirVelocity(s, cfg, v, geo, dt)
  {
  }

  /** The velocity callback does not read the wall-run request. */
  lemma VelocityIgnoresWallRunRequest(s: Fields, cfg: Config, v: Velocity, dt: real, stable: bool,
                                      keys: Keys, geo: Geometry, latched: bool)
    ensures var m := VelocityStep(s, cfg, v, dt, stable, keys, geo);
            VelocityStep(s.(requestedWallRun := latched), cfg, v, dt, stable, keys, geo)
              == m.(fields := m.fields.(requestedWallRun := latched))
  {
    var timed := Timers(s, stable, dt);
    assert Timers(s.(requestedWallRun := latched), stable, dt) == timed.(requestedWallRun := latched);
    if stable {
      GroundIgnoresWallRunRequest(timed, cfg, v, geo, latched);
      var started := StartSlide(timed, cfg, v, geo);
      var moved := GroundMove(started.0, cfg, started.1, geo);
      JumpIgnoresWallRunRequest(moved.0, cfg, moved.1, stable, keys, dt, geo, latched);
    } else {
      AirIgnoresWallRunRequest(timed, cfg, v, geo, dt, latched);
      JumpIgnoresWallRunRequest(timed, cfg, AirVelocity(timed, cfg, v, geo, dt), stable, keys, dt, geo, latched);
    }
  }

  lemma BeforeIgnoresWallRunRequest(s: Fields, cfg: Config, f: Frame, latched: bool)
    ensures BeforeStep(s.(requestedWallRun := latched), cfg, f.stableBefore, f.probe, f.keys)
            == BeforeStep(s, cfg, f.stableBefore, f.probe, f.keys).(requestedWallRun := latched)
  {
  }

  lemma AfterIgnoresWallRunRequest(s: Fields, cfg: Config, f: Frame, latched: bool)
    ensures AfterStep(PostGroundingStep(s.(requestedWallRun := latched), f.stable), cfg, f.overlaps, f.stable, f.motorVelocity)
            == AfterStep(PostGroundingStep(s, f.stable), cfg, f.overlaps, f.stable, f.motorVelocity)
                 .(requestedWallRun := latched)
  {
  }

  /** The wall-run request is never read: a step's outcome does not depend
      on it. */
  lemma WallRunRequestUnread(s: Fields, cfg: Config, f: Frame, latched: bool)
    ensures Step(s.(requestedWallRun := latched), cfg, f) == Step(s, cfg, f).(requestedWallRun := latched)
  {
    var before := BeforeStep(s, cfg, f.stableBefore, f.probe, f.keys);
    BeforeIgnoresWallRunRequest(s, cfg, f, latched);
    VelocityIgnoresWallRunRequest(before, cfg, f.velocity, f.dt, f.stable, f.keys, f.geo, latched);
    var moved := VelocityStep(before, cfg, f.velocity, f.dt, f.stable, f.keys, f.geo);
    AfterIgnoresWallRunRequest(moved.fields, cfg, f, latched);
    assert Step(s.(requestedWallRun := latched), cfg, f)
           == AfterStep(PostGroundingStep(moved.fields.(requestedWallRun := latched), f.stable),
                        cfg, f.overlaps, f.stable, f.motorVelocity);
  }

  /** Off the ground the jump controller treats a slide and a crouch alike. */
  lemma JumpTreatsSlideAsCrouch(s: Fields, cfg: Config, v: Velocity, keys: Keys, dt: real, geo: Geometry)
    requires s.state.stance == Slide
    ensures var m := JumpStep(s, cfg, v, false, keys, dt, geo);
            JumpStep(s.(state := s.state.(stance := Crouch)), cfg, v, false, keys, dt, geo)
              == m.(fields := m.fields.(state := m.fields.state.(stance := Crouch)))
  {
  }

  /** The motor probes the ground before it asks for the velocity, so the
      slide-off-ground rule may run before UpdateVelocity as well as after:
      the two orders give the same fields and the same velocity. */
  lemma PostGroundingCommutes(s: Fields, cfg: Config, v: Velocity, dt: real, stable: bool, keys: Keys, geo: Geometry)
    ensures var m := VelocityStep(s, cfg, v, dt, stable, keys, geo);
            var p := VelocityStep(PostGroundingStep(s, stable), cfg, v, dt, stable, keys, geo);
            p.fields == PostGroundingStep(m.fields, stable) && p.velocity == m.velocity && p.unground == m.unground
  {
    if !stable && s.state.stance == Slide {
      var timed := Timers(s, stable, dt);
      var c := timed.(state := timed.state.(stance := Crouch));
      assert Timers(PostGroundingStep(s, stable), stable, dt) == c;
      var air := AirVelocity(timed, cfg, v, geo, dt);
      assert AirVelocity(c, cfg, v, geo, dt) == air;
      JumpTreatsSlideAsCrouch(timed, cfg, air, keys, dt, geo);
    }
  }

  // ------------------------------------------------------------ invariant

  /** What holds between any two callbacks, for a configuration with a
      positive coyote window and non-negative time steps: the capsule has
      one of its two heights and a crouching or sliding character has the
      crouch capsule; the timers are non-negative; a pending jump request is
      younger than the coyote window; the in-air crouch record implies a
      crouch request; a wall run has a wall. */
  predicate Core(s: Fields, cfg: Config)
  {
    && (s.capsuleHeight == cfg.standHeight || s.capsuleHeight == cfg.crouchHeight)
    && (s.state.stance == Crouch || s.state.stance == Slide ==> s.capsuleHeight == cfg.crouchHeight)
    && s.timeSinceUngrounded >= 0.0
    && s.timeSinceJumpRequest >= 0.0
    && (s.requestedJump ==> s.timeSinceJumpRequest < cfg.coyoteTime)
    && (s.requestedCrouchInAir ==> s.requestedCrouch)
    && (s.state.stance == WallRun ==> s.walls.Any())
  }

  /** What every reachable controller keeps between simulation steps: the
      core, and no slide off the ground, now or in the last state. */
  predicate Invariant(s: Fields, cfg: Config)
  {
    && Core(s, cfg)
    && (s.state.stance == Slide ==> s.state.grounded)
    && (s.lastState.stance == Slide ==> s.lastState.grounded)
  }

  /** A controller initialised with the standing capsule satisfies it. */
  lemma InitialInvariant(cfg: Config)
    ensures Invariant(Initial(cfg.standHeight), cfg)
  {
  }

  /** An input frame keeps it. */
  lemma InputKeepsInvariant(s: Fields, cfg: Config, input: CharacterInput)
    requires cfg.coyoteTime > 0.0
    requires Invariant(s, cfg)
    ensures Invariant(InputStep(s, input), cfg)
  {
  }

  lemma BeforeKeepsCore(s: Fields, cfg: Config, stable: bool, probe: Walls, keys: Keys)
    requires Core(s, cfg)
    ensures Core(BeforeStep(s, cfg, stable, probe, keys), cfg)
  {
  }

  lemma VelocityKeepsCore(s: Fields, cfg: Config, v: Velocity, dt: real, stable: bool, keys: Keys, geo: Geometry)
    requires dt >= 0.0
    requires Core(s, cfg)
    ensures var r := VelocityStep(s, cfg, v, dt, stable, keys, geo).fields;
            Core(r, cfg) && r.capsuleHeight == s.capsuleHeight && r.walls == s.walls
  {
  }

  lemma PostGroundingKeepsCore(s: Fields, cfg: Config, stable: bool)
    requires Core(s, cfg)
    ensures Core(PostGroundingStep(s, stable), cfg)
  {
  }

  lemma AfterKeepsCore(s: Fields, cfg: Config, overlaps: nat, stable: bool, motorVelocity: Velocity)
    requires Core(s, cfg)
    ensures Core(AfterStep(s, cfg, overlaps, stable, motorVelocity), cfg)
  {
  }

  /** A simulation step with a non-negative time step keeps it. */
  lemma StepKeepsInvariant(s: Fields, cfg: Config, f: Frame)
    requires f.dt >= 0.0
    requires Invariant(s, cfg)
    ensures Invariant(Step(s, cfg, f), cfg)
  {
    var before := BeforeStep(s, cfg, f.stableBefore, f.probe, f.keys);
    BeforeKeepsCore(s, cfg, f.stableBefore, f.probe, f.keys);
    var moved := VelocityStep(before, cfg, f.velocity, f.dt, f.stable, f.keys, f.geo);
    VelocityKeepsCore(before, cfg, f.velocity, f.dt, f.stable, f.keys, f.geo);
    var probed := PostGroundingStep(moved.fields, f.stable);
    PostGroundingKeepsCore(moved.fields, cfg, f.stable);
    AfterKeepsCore(probed, cfg, f.overlaps, f.stable, f.motorVelocity);
    StepLagsLastState(s, cfg, f);
    StepSlideIsGrounded(s, cfg, f);
  }

  /** Every simulation tick has a non-negative time step. */
  predicate NonNegativeSteps(ticks: seq<Tick>)
  {
    forall i :: 0 <= i < |ticks| && ticks[i].Simulate? ==> ticks[i].frame.dt >= 0.0
  }

  /** Any run of input frames and simulation steps keeps the invariant. */
  lemma {:induction false} RunKeepsInvariant(s: Fields, cfg: Config, ticks: seq<Tick>)
    requires cfg.coyoteTime > 0.0
    requires NonNegativeSteps(ticks)
    requires Invariant(s, cfg)
    ensures Invariant(Run(s, cfg, ticks), cfg)
    decreases |ticks|
  {
    if ticks != [] {
      if ticks[0].Input? {
        InputKeepsInvariant(s, cfg, ticks[0].input);
      } else {
        StepKeepsInvariant(s, cfg, ticks[0].frame);
      }
      assert NonNegativeSteps(ticks[1..]) by {
        forall i | 0 <= i < |ticks[1..]| && ticks[1..][i].Simulate?
          ensures ticks[1..][i].frame.dt >= 0.0
        {
          assert ticks[1..][i] == ticks[i + 1];
        }
      }
      RunKeepsInvariant(ApplyTick(s, cfg, ticks[0]), cfg, ticks[1..]);
    }
  }

  /** A controller created with the inspector defaults keeps the invariant
      over any run of input frames and steps whose time steps are not
      negative: the defaults give a positive coyote time. */
  lemma DefaultsKeepInvariant(ticks: seq<Tick>)
    requires NonNegativeSteps(ticks)
    ensures Invariant(Run(Initial(Defaults.standHeight), Defaults, ticks), Defaults)
  {
    InitialInvariant(Defaults);
    RunKeepsInvariant(Initial(Defaults.standHeight), Defaults, ticks);
  }

  // ------------------------------------------------------------- crouching

  /** A grounded Stand character with no requests, toggling crouch and
      stepping in place, crouches with the crouch capsule; toggling again
      and stepping with room to stand brings back Stand and the standing
      capsule. */
  lemma CrouchRoundTrip(s: Fields, cfg: Config, toggle: CharacterInput, f: Frame)
    requires s.state.stance == Stand && !s.requestedCrouch && !s.requestedJump
    requires toggle.crouch == Toggle && !toggle.jump
    requires f.stableBefore && f.stable && f.probe == NoWalls && !f.geo.tangentMoves && f.overlaps == 0
    ensures var crouched := Step(InputStep(s, toggle), cfg, f);
            && crouched.state.stance == Crouch && crouched.capsuleHeight == cfg.crouchHeight
            && crouched.requestedCrouch
    ensures var crouched := Step(InputStep(s, toggle), cfg, f);
            var stood := Step(InputStep(crouched, toggle), cfg, f);
            stood.state.stance == Stand && stood.capsuleHeight == cfg.standHeight && !stood.requestedCrouch
  {
  }

  /** A crouch request vetoed by an overlap is re-latched: the character
      keeps its stance and the crouch capsule, on the ground, on landing or
      in a jump alike. */
  lemma OverlapVetoesStanding(s: Fields, cfg: Config, f: Frame)
    requires !s.requestedCrouch && s.state.stance == Crouch
    requires f.probe == NoWalls && !f.geo.tangentMoves && f.overlaps > 0
    ensures var r := Step(s, cfg, f);
            r.state.stance == Crouch && r.capsuleHeight == cfg.crouchHeight && r.requestedCrouch
  {
  }

  /** Leaving a wall run for lack of walls stands the character without
      touching the crouch request: a crouched wall run that finds no wall
      ends the step standing with the crouch capsule and the request still
      set (HeldCrouchRequestCrouches then crouches it again). */
  lemma WallRunExitKeepsCrouchRequest(s: Fields, cfg: Config, f: Frame)
    requires s.state.stance == WallRun && s.capsuleHeight == cfg.crouchHeight
    requires s.requestedCrouch && !s.requestedJump
    requires f.probe == NoWalls
    ensures var r := Step(s, cfg, f);
            r.state.stance == Stand && r.capsuleHeight == cfg.crouchHeight && r.requestedCrouch
  {
  }

  /** A Stand character with a crouch request and no jump request, on a
      step that finds no wall, crouches: the step ends in Crouch, or in
      Slide when a slide starts. (A granted jump would consume the crouch
      request and let AfterCharacterUpdate stand the character up.) */
  lemma HeldCrouchRequestCrouches(s: Fields, cfg: Config, f: Frame)
    requires s.state.stance == Stand && s.requestedCrouch && !s.requestedJump
    requires f.probe == NoWalls
    ensures Step(s, cfg, f).state.stance in {Crouch, Slide}
  {
  }

  /** A jump off the wall during a wall run entered from a crouch stands
      the character without restoring the standing capsule and consumes the
      crouch request, so the step ends standing with the crouch capsule and
      nothing left to stand it up. */
  lemma StandWithCrouchCapsule(s: Fields, cfg: Config, f: Frame)
    requires s.state.stance == WallRun && s.walls.Any() && s.capsuleHeight == cfg.crouchHeight
    requires s.requestedCrouch && s.requestedJump && s.ungroundedDueToJump
    requires cfg.standHeight != cfg.crouchHeight
    requires !f.stableBefore && !f.stable && f.probe == Walls(true, false, false)
    requires f.keys == Keys(false, false, false)
    ensures var r := Step(s, cfg, f);
            && r.state.stance == Stand && r.capsuleHeight == cfg.crouchHeight && !r.requestedCrouch
            && r.capsuleHeight != cfg.standHeight
  {
  }

  /** On a step that finds no wall, a Stand character with no crouch
      request keeps whatever capsule it has: it cannot enter a wall run, and
      the uncrouch rule only looks at non-Stand stances. */
  lemma StandKeepsCapsule(s: Fields, cfg: Config, f: Frame)
    requires s.state.stance == Stand && !s.requestedCrouch
    requires f.probe == NoWalls
    ensures Step(s, cfg, f).capsuleHeight == s.capsuleHeight
  {
  }

  // --------------------------------------------------------------- gravity

  /** Holding jump while rising softens gravity: with a downward gravity, a
      sustain factor below one and a positive time step, the vertical speed
      ends higher than under full gravity. */
  lemma SustainSoftensGravity(s: Fields, cfg: Config, v: Velocity, dt: real)
    requires cfg.gravity < 0.0 && 0.0 <= cfg.jumpSustainGravity < 1.0 && dt > 0.0
    requires s.requestedSustainedJump && v.vertical > 0.0
    ensures Gravity(s, cfg, v, dt).vertical > Gravity(s.(requestedSustainedJump := false), cfg, v, dt).vertical
  {
    var g := cfg.gravity;
    var k := cfg.jumpSustainGravity;
    assert g * (1.0 - k) < 0.0;
    assert g * k - g > 0.0;
    assert (g * k - g) * dt > 0.0;
    assert (g * k) * dt - g * dt == (g * k - g) * dt;
    assert Gravity(s, cfg, v, dt).vertical == v.vertical + g * k * dt;
    assert Gravity(s.(requestedSustainedJump := false), cfg, v, dt).vertical == v.vertical + g * dt;
  }
}
