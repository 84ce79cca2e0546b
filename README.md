# Player movement core, modelled in Dafny

This project models the discrete control logic of a first-person
character controller built on a kinematic character motor
(`Assets/Scripts/PlayerCharacter.cs`), and the pitch-clamped look of its
camera (`Assets/Scripts/PlayerCamera.cs`).

The controller latches per-frame input into requests. The motor then calls
back into it during each simulation step, in four places:
- before it moves: enter a crouch, probe the walls, enter or leave a wall run;
- for the velocity: ground/air timers, slide start and stop, walking,
  wall-running, air control, gravity, and the jump, coyote-time and
  jump-buffer controller;
- after its ground probe: a slide that lost its ground becomes a crouch;
- after it moves: stand up unless an overlap vetoes it, then commit the
  grounding and the velocity and rotate the last-state snapshot.

Files:
- `movement.dfy` (module `Movement`): the controller's private fields as a
  value (`Fields`). Each callback is a pure function from the fields before
  it to the fields after it. Each source block inside a callback is its own
  function. Most block functions carry a contract stating what the source
  promises for that block. The exceptions are `AirVelocity`, which only
  chooses between the wall-run and air-control blocks, and the wall-run
  jump's pieces `HopPush`, `HopLift`, `HopVelocity` and `DetachFields`.
  Their properties are stated by the lemmas `HopVelocityAdds`,
  `HopLiftBounds` and `WallRunJumpVelocity` and by `WallRunJump`'s
  contract.
- `player_character.dfy` (module `Character`): class `PlayerCharacter`.
  Its fields are the source's fields, updated in place. It has one method
  per callback and one per source block. Most methods are proved to leave
  exactly the state their `Movement` function describes. `CrouchDown`,
  `CheckWalls`, `UpdateWallRun` and `BufferJumpRequest` instead state their
  new fields directly in their own postconditions, and their callers are
  proved against the `Movement` functions through those.
- `movement_properties.dfy` (module `MovementProperties`): properties that
  span several calls:
  - the latches across many input frames;
  - a whole step (`Step`), and that the wall-run request is never read;
  - that the slide-off-ground rule commutes with the velocity callback;
  - an invariant kept by every input frame and every step, and so by any run;
  - crouch round trips and the overlap veto;
  - sustained-jump gravity.
- `player_camera.dfy` (module `Camera`): the look accumulator and pitch
  clamp as pure functions, class `PlayerCamera` with methods proved
  against them, and lemmas over runs of look input.

Vectors: the character only yaws, so its up axis is world up. A velocity is
therefore modelled as a horizontal part and a vertical component. Gravity,
the jump boosts and the wall-run zeroing act on the vertical component and
are modelled exactly. The other vector computations enter through the
`Geometry` record as given results:
- projection onto the ground tangent;
- exponential lerps;
- slide friction, slope and steering;
- air control.

Magnitude comparisons are made on squared magnitudes.
`MagnitudeComparisons` proves that these are the same comparisons.

The motor's services become values:
- the grounding report becomes the `stable` flag;
- `ForceUnground` becomes the returned `unground` flag;
- `SetCapsuleDimensions` becomes the `capsuleHeight` field;
- `CharacterOverlap` becomes an `overlaps` count;
- the three wall raycasts become `Walls`;
- the W, A and D key states become `Keys`.

Three behaviours of the code that a reader might not expect, modelled as
the code has them:
- A wall run does not always carry zero vertical speed. With a wall ahead
  and a planar speed within `maxWallSpeed`, the character is pushed up the
  wall by `wallRunForce * dt`.
- A buffered jump request is dropped once its age reaches `coyoteTime`, not
  only once it exceeds it.
- The wall hops are not alternatives to the detach jump. Each hop whose wall
  and key match fires on its own, possibly together with the detach jump.
  The hops leave the jump request pending.

Kept as the code has them:
- `requestedWallRun` is latched by input and never read or cleared
  (`WallRunRequestUnread`).
- The "back hop" off a forward wall pushes along the character's forward
  axis, into the wall.
- `lastState` lags: it becomes the state captured at the start of the step
  (`StepLagsLastState`).
- The assignment that clears the crouch-in-air flag on a slide from the air
  runs only when the flag is already false.
- Leaving a wall run for lack of walls, and the wall-run detach jump, set
  the stance to Stand without restoring the standing capsule. After the
  detach jump, which also clears the crouch request, a character that
  entered the wall run crouched ends up standing with the crouch capsule
  and no crouch request (`StandWithCrouchCapsule`). After leaving for lack
  of walls the crouch request is untouched: a request still held leaves
  the character standing with the crouch capsule for one step, and the
  next step crouches it again unless it also has a jump request (`WallRunExitKeepsCrouchRequest`,
  `HeldCrouchRequestCrouches`).

## Model

| member | source | states |
|---|---|---|
| Movement.MagnitudeComparisons | Assets/Scripts/PlayerCharacter.cs:293 | comparing squared magnitudes decides whether a magnitude is below, or at most, a bound, exactly and in both directions |
| Movement.MaxReal | Assets/Scripts/PlayerCharacter.cs:229 | `Mathf.Max` is an upper bound of both arguments and equals one of them |
| Movement.Initial | Assets/Scripts/PlayerCharacter.cs:94-102 | after Initialize the stance is Stand, the last state equals the state, and no jump or crouch is requested |
| Movement.LatchJump | Assets/Scripts/PlayerCharacter.cs:113-118 | the jump request is `old or pressed`, so input never clears it; its age restarts only on the false-to-true edge; nothing else changes |
| Movement.LatchCrouch | Assets/Scripts/PlayerCharacter.cs:121-136 | a Toggle flips the crouch request and None keeps it; a rising edge records `!grounded` as crouch-in-air, a falling edge clears it, otherwise it is kept; nothing else changes |
| Movement.InputStep | Assets/Scripts/PlayerCharacter.cs:104-140 | UpdateInput: both latches as above; the sustain flag and the move axes are the frame's; the wall-run request is `old or held`; no simulation field changes |
| Movement.BeforeStance | Assets/Scripts/PlayerCharacter.cs:483-513 | the stance is WallRun exactly when a keyed wall is found off stable ground, or the character was wall-running and some wall is found; a wall run with no wall leaves to Stand; Stand otherwise becomes Crouch exactly when crouch is requested; Crouch and Slide otherwise stay |
| Movement.BeforeStep | Assets/Scripts/PlayerCharacter.cs:478-516 | BeforeCharacterUpdate: the snapshot is the old state and the wall flags are the probes; the wall-run iff and exit as above; crouching from Stand sets the crouch capsule, which is otherwise unchanged; a wall run implies some wall; nothing else changes |
| Movement.Timers | Assets/Scripts/PlayerCharacter.cs:193-302 | stable ground resets the time since ungrounding to 0 and clears the jump-caused flag; in the air the time grows by dt and the flag is kept |
| Movement.SlideStartSpeed | Assets/Scripts/PlayerCharacter.cs:223-229 | the slide entry speed is at least the current speed; from the ground or with an in-air crouch request it is at least `slideStartSpeed`; falling in without one, the floor is 0 |
| Movement.StartSlide | Assets/Scripts/PlayerCharacter.cs:204-235 | when moving, crouching, and last Stand or airborne, the stance becomes Slide and the velocity is the ground direction scaled by the entry speed; otherwise nothing changes; no slide starts without move input; with the entry speed taken as the source computes it, the slide speed from the ground is never below the incoming speed, and the slide speed from the air without an in-air crouch request is never above the last state's speed (the direction is supplied and its length is not constrained) |
| Movement.GroundEntryCovers | Assets/Scripts/PlayerCharacter.cs:223-229 | when the entry speed is the incoming velocity's magnitude, the slide speed `max(floor, entry speed)` is at least that magnitude |
| Movement.GroundMove | Assets/Scripts/PlayerCharacter.cs:237-297 | Stand and Crouch take the lerped ground velocity; a slide takes the slide velocity and becomes Crouch exactly when slower than `slideEndSpeed`; a wall run is untouched |
| Movement.WallRunVelocity | Assets/Scripts/PlayerCharacter.cs:305-332 | the vertical speed becomes `wallRunForce*dt` with a wall ahead and planar speed at most `maxWallSpeed`, and 0 otherwise; over the speed cap only the vertical part is zeroed |
| Movement.AirControl | Assets/Scripts/PlayerCharacter.cs:334-392 | air control never changes the vertical speed, and does nothing without move input |
| Movement.Gravity | Assets/Scripts/PlayerCharacter.cs:395-402 | the planar velocity is unchanged; the vertical speed gains `gravity*dt`, or `gravity*jumpSustainGravity*dt` while jump is held and the character rises |
| Movement.AirVelocity | Assets/Scripts/PlayerCharacter.cs:303-402 | the airborne velocity: the wall-run block in a wall run, otherwise air control followed by gravity; it has no contract of its own, `Character.PlayerCharacter.MoveInAir` is proved to compute it and `AirIgnoresWallRunRequest` states that it never reads the wall-run request |
| Movement.Hop | Assets/Scripts/PlayerCharacter.cs:449-450 | a wall hop raises the vertical speed by exactly 1.5 jump speeds and adds its push to the planar velocity |
| Movement.HopCount | Assets/Scripts/PlayerCharacter.cs:447-462 | at most three hops fire, and none exactly when no wall is touched with its hop key held (A for a right wall, D for a left wall, W for a forward wall) |
| Movement.HopIf | Assets/Scripts/PlayerCharacter.cs:447-451 | a hop block adds its push and 1.5 jump speeds when its wall and key match, and nothing otherwise |
| Movement.HopVelocity | Assets/Scripts/PlayerCharacter.cs:446-462 | the right, left and back hop blocks in the source's order; it has no contract of its own, and `HopVelocityAdds` states what the three add |
| Movement.HopVelocityAdds | Assets/Scripts/PlayerCharacter.cs:446-462 | the three hop blocks together add 1.5 jump speeds per hop that fires and the sum of the pushes of those hops |
| Movement.HopLiftBounds | Assets/Scripts/PlayerCharacter.cs:446-462 | with a non-negative jump speed the hops never lower the vertical speed, and any hop adds at least 1.5 jump speeds |
| Movement.GrantJump | Assets/Scripts/PlayerCharacter.cs:412-426 | a granted jump clears the jump, crouch and crouch-in-air requests, sets the jump-caused flag and ungrounds; the vertical speed becomes `max(old, jumpSpeed)` and is never lowered; the planar velocity is kept |
| Movement.CanCoyoteJump | Assets/Scripts/PlayerCharacter.cs:410 | the coyote window: ungrounded for less than `coyoteTime`, and not by a jump; `JumpStep` states the grant, the wall-run jump and the buffering in terms of it |
| Movement.DetachFields | Assets/Scripts/PlayerCharacter.cs:430-445 | the fields after the detach jump; it has no contract of its own, and `WallRunJump` and `Character.PlayerCharacter.DetachFromWall` state them: the jump, crouch and crouch-in-air requests are consumed, the stance is Stand and the jump-caused flag is set |
| Movement.WallRunJump | Assets/Scripts/PlayerCharacter.cs:427-462 | the motor is ungrounded exactly when the detach condition holds; a detach clears the jump, crouch and crouch-in-air requests, stands and sets the jump-caused flag; without a detach the fields, including the jump request, are unchanged |
| Movement.WallRunJumpVelocity | Assets/Scripts/PlayerCharacter.cs:427-462 | the vertical speed is the detach boost (when it fires) plus 1.5 jump speeds per hop, and the planar velocity gains every fired hop's push, so hops fire in the same step as the detach; a detach raises the vertical speed to at least `max(old, jumpSpeed)`; hops alone add at least 1.5 jump speeds; with neither the velocity is unchanged |
| Movement.BufferJump | Assets/Scripts/PlayerCharacter.cs:464-470 | the request's age grows by dt and the request survives exactly when the new age is below `coyoteTime`; velocity unchanged, no unground |
| Movement.JumpStep | Assets/Scripts/PlayerCharacter.cs:405-471 | with no request nothing happens; on stable ground or inside the coyote window the jump is granted; in a wall run the request survives exactly when no detach happens; otherwise it is buffered as above |
| Movement.VelocityStep | Assets/Scripts/PlayerCharacter.cs:189-474 | UpdateVelocity: timer rules; a jump-caused flag implies an unground in this call or an inherited airborne one; no request is ever created; coyote grant and buffering in terms of the input fields; Stand stays Stand; Slide only on stable ground or continuing; a new WallRun never starts here; the wall-run vertical speed; only stance, requests and timers change |
| Movement.PostGroundingStep | Assets/Scripts/PlayerCharacter.cs:520-526 | PostGroundingUpdate: off stable ground no slide remains; a stance change is only Slide to Crouch; on stable ground nothing changes |
| Movement.AfterStep | Assets/Scripts/PlayerCharacter.cs:530-575 | AfterCharacterUpdate: with crouch requested or Stand nothing is uncrouched; an overlap re-latches the crouch and keeps the crouch capsule; no overlap commits the standing capsule and Stand, except in a wall run; grounding and velocity are the motor's; the last state is the snapshot |
| Movement.Step | Assets/Scripts/PlayerCharacter.cs:189-575 | one simulation step: BeforeCharacterUpdate, UpdateVelocity, PostGroundingUpdate, AfterCharacterUpdate (the motor calls PostGroundingUpdate before UpdateVelocity, and `PostGroundingCommutes` shows the orders agree); it has no contract of its own, and `StepLagsLastState`, `StepCommitsMotor` and `StepKeepsInvariant` state its properties |
| Character.PlayerCharacter.Initialize | Assets/Scripts/PlayerCharacter.cs:94-102 | the new controller's fields are `Initial` |
| Character.PlayerCharacter.UpdateInput | Assets/Scripts/PlayerCharacter.cs:104-140 | the fields after the call are `InputStep` of the fields before |
| Character.PlayerCharacter.LatchJumpRequest | Assets/Scripts/PlayerCharacter.cs:113-118 | the fields after the call are `LatchJump` of the fields before |
| Character.PlayerCharacter.LatchCrouchRequest | Assets/Scripts/PlayerCharacter.cs:121-136 | the fields after the call are `LatchCrouch` of the fields before |
| Character.PlayerCharacter.BeforeCharacterUpdate | Assets/Scripts/PlayerCharacter.cs:478-516 | the fields after the call are `BeforeStep` of the fields before |
| Character.PlayerCharacter.CrouchDown | Assets/Scripts/PlayerCharacter.cs:483-493 | a crouch request while standing sets Crouch and the crouch capsule; otherwise stance and capsule are unchanged |
| Character.PlayerCharacter.CheckWalls | Assets/Scripts/PlayerCharacter.cs:495-498 | the three wall flags are the probe results |
| Character.PlayerCharacter.UpdateWallRun | Assets/Scripts/PlayerCharacter.cs:500-513 | a keyed wall off stable ground enters the wall run; a wall run with no wall found becomes Stand; otherwise the stance is kept, and only the stance changes |
| Character.PlayerCharacter.UpdateVelocity | Assets/Scripts/PlayerCharacter.cs:189-474 | the fields, velocity and unground flag after the call are `VelocityStep` of the fields before |
| Character.PlayerCharacter.UpdateTimers | Assets/Scripts/PlayerCharacter.cs:193-302 | the fields after the call are `Timers` of the fields before |
| Character.PlayerCharacter.StartSliding | Assets/Scripts/PlayerCharacter.cs:204-235 | fields and velocity after the call are `StartSlide` of those before |
| Character.PlayerCharacter.MoveOnGround | Assets/Scripts/PlayerCharacter.cs:237-297 | fields and velocity after the call are `GroundMove` of those before |
| Character.PlayerCharacter.MoveInAir | Assets/Scripts/PlayerCharacter.cs:303-402 | the airborne velocity is the wall-run block, or air control followed by gravity |
| Character.PlayerCharacter.WallRunMove | Assets/Scripts/PlayerCharacter.cs:305-332 | the velocity is `WallRunVelocity` |
| Character.PlayerCharacter.AirMove | Assets/Scripts/PlayerCharacter.cs:334-392 | the velocity is `AirControl` |
| Character.PlayerCharacter.ApplyGravity | Assets/Scripts/PlayerCharacter.cs:395-402 | the velocity is `Gravity` |
| Character.PlayerCharacter.Jump | Assets/Scripts/PlayerCharacter.cs:405-471 | fields, velocity and unground flag after the call are `JumpStep` of those before |
| Character.PlayerCharacter.JumpNow | Assets/Scripts/PlayerCharacter.cs:412-426 | fields, velocity and unground flag after the call are `GrantJump` of those before |
| Character.PlayerCharacter.JumpOffWall | Assets/Scripts/PlayerCharacter.cs:427-462 | fields, velocity and unground flag after the call are `WallRunJump` of those before |
| Character.PlayerCharacter.DetachFromWall | Assets/Scripts/PlayerCharacter.cs:430-445 | the requests are consumed, the stance is Stand, the jump-caused flag is set, and the vertical speed gains 1.5 times its shortfall to `jumpSpeed` |
| Character.PlayerCharacter.BufferJumpRequest | Assets/Scripts/PlayerCharacter.cs:464-470 | the request's age grows by dt and the request is kept exactly when the age is below `coyoteTime` |
| Character.PlayerCharacter.PostGroundingUpdate | Assets/Scripts/PlayerCharacter.cs:520-526 | the fields after the call are `PostGroundingStep` of the fields before |
| Character.PlayerCharacter.AfterCharacterUpdate | Assets/Scripts/PlayerCharacter.cs:530-575 | the fields after the call are `AfterStep` of the fields before |
| MovementProperties.InputsLatchJump | Assets/Scripts/PlayerCharacter.cs:113-114 | across any number of input frames the jump request ends set exactly when it was set or some frame pressed jump |
| MovementProperties.InputsToggleCrouch | Assets/Scripts/PlayerCharacter.cs:121-127 | across input frames the crouch request flips exactly when the number of toggles is odd |
| MovementProperties.InputsKeepSimulation | Assets/Scripts/PlayerCharacter.cs:104-140 | input frames never touch the state, snapshots, ground timers, wall flags or capsule |
| MovementProperties.InputIdempotent | Assets/Scripts/PlayerCharacter.cs:104-140 | repeating a frame without a crouch toggle changes nothing more |
| MovementProperties.ToggleTwice | Assets/Scripts/PlayerCharacter.cs:121-136 | two toggles restore the crouch request; the in-air record is cleared when the request was off, and otherwise is `!grounded` |
| MovementProperties.StepLagsLastState | Assets/Scripts/PlayerCharacter.cs:480-574 | after a step the last state is the state the step started from |
| MovementProperties.StepCommitsMotor | Assets/Scripts/PlayerCharacter.cs:572-573 | after a step the grounding and velocity are the motor's final report |
| MovementProperties.StepSlideIsGrounded | Assets/Scripts/PlayerCharacter.cs:520-572 | a step never ends sliding off stable ground |
| MovementProperties.StepWallRunHasWall | Assets/Scripts/PlayerCharacter.cs:496-513 | a step ends wall-running only with some wall found, and the wall flags are the probes |
| MovementProperties.StepReleasedCrouchStands | Assets/Scripts/PlayerCharacter.cs:533-567 | a step that ends without a crouch request and not in Stand has the standing capsule |
| MovementProperties.StepKeepsWallRunRequest | Assets/Scripts/PlayerCharacter.cs:138 | no callback of a step changes the wall-run request |
| MovementProperties.GrantIgnoresWallRunRequest | Assets/Scripts/PlayerCharacter.cs:412-426 | a granted jump does not depend on the wall-run request |
| MovementProperties.WallJumpIgnoresWallRunRequest | Assets/Scripts/PlayerCharacter.cs:427-462 | the wall-run jump does not depend on the wall-run request |
| MovementProperties.BufferIgnoresWallRunRequest | Assets/Scripts/PlayerCharacter.cs:464-470 | buffering does not depend on the wall-run request |
| MovementProperties.JumpIgnoresWallRunRequest | Assets/Scripts/PlayerCharacter.cs:405-471 | the jump controller does not depend on the wall-run request |
| MovementProperties.GroundIgnoresWallRunRequest | Assets/Scripts/PlayerCharacter.cs:204-297 | slide start and ground movement do not depend on the wall-run request |
| MovementProperties.AirIgnoresWallRunRequest | Assets/Scripts/PlayerCharacter.cs:303-402 | the airborne velocity does not depend on the wall-run request |
| MovementProperties.VelocityIgnoresWallRunRequest | Assets/Scripts/PlayerCharacter.cs:189-474 | UpdateVelocity does not depend on the wall-run request |
| MovementProperties.BeforeIgnoresWallRunRequest | Assets/Scripts/PlayerCharacter.cs:478-516 | BeforeCharacterUpdate does not depend on the wall-run request |
| MovementProperties.AfterIgnoresWallRunRequest | Assets/Scripts/PlayerCharacter.cs:520-575 | PostGroundingUpdate and AfterCharacterUpdate do not depend on the wall-run request |
| MovementProperties.WallRunRequestUnread | Assets/Scripts/PlayerCharacter.cs:138 | the latched wall-run request is never read: changing it changes nothing else in a step's outcome |
| MovementProperties.JumpTreatsSlideAsCrouch | Assets/Scripts/PlayerCharacter.cs:405-471 | off the ground the jump controller acts the same on a slide as on a crouch |
| MovementProperties.PostGroundingCommutes | Assets/Scripts/PlayerCharacter.cs:189-526 | running the slide-off-ground rule before or after UpdateVelocity gives the same fields, velocity and unground flag |
| MovementProperties.InitialInvariant | Assets/Scripts/PlayerCharacter.cs:94-102 | a controller initialised with the standing capsule satisfies the invariant |
| MovementProperties.InputKeepsInvariant | Assets/Scripts/PlayerCharacter.cs:104-140 | with a positive coyote time an input frame keeps the invariant: a fresh request has age 0, and the in-air record implies a crouch request |
| MovementProperties.BeforeKeepsCore | Assets/Scripts/PlayerCharacter.cs:478-516 | BeforeCharacterUpdate keeps the core invariant: crouch capsule with Crouch, a wall with WallRun |
| MovementProperties.VelocityKeepsCore | Assets/Scripts/PlayerCharacter.cs:189-474 | with dt at least 0 UpdateVelocity keeps the core invariant, the capsule and the wall flags |
| MovementProperties.PostGroundingKeepsCore | Assets/Scripts/PlayerCharacter.cs:520-526 | PostGroundingUpdate keeps the core invariant |
| MovementProperties.AfterKeepsCore | Assets/Scripts/PlayerCharacter.cs:530-575 | AfterCharacterUpdate keeps the core invariant |
| MovementProperties.StepKeepsInvariant | Assets/Scripts/PlayerCharacter.cs:478-575 | a step with dt at least 0 keeps the invariant, including no slide off the ground now or in the last state |
| MovementProperties.RunKeepsInvariant | Assets/Scripts/PlayerCharacter.cs:104-575 | any interleaving of input frames and steps with dt at least 0 keeps the invariant |
| MovementProperties.DefaultsKeepInvariant | Assets/Scripts/PlayerCharacter.cs:44-67 | a controller with the inspector defaults keeps the invariant over any such run from initialisation |
| MovementProperties.CrouchRoundTrip | Assets/Scripts/PlayerCharacter.cs:121-567 | toggle and step: Crouch with the crouch capsule; toggle and step again with room to stand: Stand with the standing capsule |
| MovementProperties.OverlapVetoesStanding | Assets/Scripts/PlayerCharacter.cs:533-556 | an overlap at standing height keeps Crouch and the crouch capsule, and re-latches the request |
| MovementProperties.StandWithCrouchCapsule | Assets/Scripts/PlayerCharacter.cs:430-445 | a detach jump from a crouched wall run ends in Stand with the crouch capsule and no crouch request |
| MovementProperties.WallRunExitKeepsCrouchRequest | Assets/Scripts/PlayerCharacter.cs:484-513 | a crouched wall run with a crouch request (and no jump request) that finds no wall ends the step in Stand with the crouch capsule and the request still set |
| MovementProperties.HeldCrouchRequestCrouches | Assets/Scripts/PlayerCharacter.cs:484-493 | a Stand character with a crouch request and no jump request, on a step that finds no wall, ends the step in Crouch or Slide |
| MovementProperties.StandKeepsCapsule | Assets/Scripts/PlayerCharacter.cs:533 | on a step that finds no wall, a Stand character without a crouch request keeps whatever capsule it has |
| MovementProperties.SustainSoftensGravity | Assets/Scripts/PlayerCharacter.cs:397-401 | with downward gravity and a sustain factor below 1, holding jump while rising leaves a higher vertical speed than full gravity |
| Camera.Clamp | Assets/Scripts/PlayerCamera.cs:26 | the clamped pitch lies within ordered bounds and equals the value exactly when the value is within them; below the lower bound it is the lower bound, and above the upper one (but not below the lower) it is the upper bound |
| Camera.Rotate | Assets/Scripts/PlayerCamera.cs:23-28 | yaw grows by exactly `look.x * sensitivity`; roll is unchanged; pitch lies within ordered bounds and equals `old - look.y * sensitivity` when that is in range, `minX` when it is below, and `maxX` when it is above; zero look with an in-range pitch changes nothing |
| Camera.RotateAllYawAndRoll | Assets/Scripts/PlayerCamera.cs:25 | over any run of look input the yaw moves by the scaled total sideways look, and roll never moves |
| Camera.RotateAllPitchInRange | Assets/Scripts/PlayerCamera.cs:25-26 | after at least one look input the pitch is in range, and an in-range pitch stays in range |
| Camera.StillLookKeepsView | Assets/Scripts/PlayerCamera.cs:25-27 | any number of zero look inputs leave in-range angles unchanged |
| Camera.DefaultPitchBounds | Assets/Scripts/PlayerCamera.cs:13-15 | with the inspector defaults the pitch stays within 85 degrees of the horizon after any look input |
| Camera.PlayerCamera.constructor | Assets/Scripts/PlayerCamera.cs:13-16 | a new component has its settings and transform, and zero accumulated angles |
| Camera.PlayerCamera.Initialize | Assets/Scripts/PlayerCamera.cs:17-21 | the transform becomes the target's, and the angles are copied without clamping |
| Camera.PlayerCamera.UpdateRotation | Assets/Scripts/PlayerCamera.cs:23-28 | the angles become `Rotate` of the old ones; the transform shows them, and its position is unchanged |
| Camera.PlayerCamera.UpdatePosition | Assets/Scripts/PlayerCamera.cs:30-33 | only the transform's position changes, to the target's |

## Left out

- Acceleration (`Assets/Scripts/PlayerCharacter.cs:191, 256, 288, 569-570, 593`): the `Acceleration` field and its clamp are vector numerics and are not part of `CharacterState` here.
- `UpdateBody` and the rotation callback (`PlayerCharacter.cs:142-185`): camera-target heights, smoothing and yaw are floating-point pose work with no discrete state.
- `OnGroundHit`, `ProcessHitStabilityReport`, `OnDiscreteCollisionDetected`, `SetPosition` and the remaining motor callbacks are empty or engine plumbing.
- Floating point: all quantities are reals, so rounding is not modelled.
- Movement.InputStep: the move vector is kept as the raw axes. The source clamps it to unit length and rotates it by the look rotation (`PlayerCharacter.cs:107-111`); neither changes whether it is zero. The model reads it only for that: in the slide-start test (`Moving`, line 205) and the air-control test (line 334). Its other uses arrive through `Geometry` and are not tied to it: whether its ground-tangent direction is non-zero (`Geometry.tangentMoves`, from `groundedMovement`, 198-202), the walk/crouch target (248), the slide steering (280) and the air force (336-348).
- Movement.StartSlide: the entry speed and the ground-tangent direction are supplied as `Geometry.entrySpeed` and `Geometry.entryDirection`. From the ground the source takes the magnitude of the incoming velocity (229); from the air it discards the incoming velocity and projects `_lastState.Velocity` onto the ground plane (215-219). Because `_lastState` lags, that is the velocity committed at the end of the step before the previous one. `EntryGeometry` states both relations as hypotheses (the projection as "no longer than the last state's velocity"), and the contract's speed promises hold under it; the projection itself is not computed.
- Movement.GroundMove: the walk/crouch lerp (238-258) and the slide friction, slope and steering (260-291) are supplied as `Geometry.groundMove` and `Geometry.slideMove`. The whole-vector magnitude test against `slideEndSpeed` (293) is modelled.
- Movement.WallRunVelocity: the planar pushes along and into the wall use the supplied forward and right axes. Only the vertical component and the speed gate are stated.
- Movement.AirControl: the speed cap, the bleed-off projection and the steep-slope guard (336-390) are supplied as `Geometry.airForce`.
- Movement.AfterStep: the motor's capsule resize is modelled as the height alone; radius and offset follow from it.
- Camera.PlayerCamera.Initialize: Unity returns `target.eulerAngles` normalised into [0, 360) (`PlayerCamera.cs:20`); the model accepts any angles there, so it covers the normalised ones but does not compute the normalisation. Later look input accumulates in the component's own copy, which the camera only writes back.
- Callback order: the motor probes the ground before it asks for the velocity, while `Step` runs the velocity callback first. `PostGroundingCommutes` shows that both orders give the same result.
- The other scripts (`Player.cs`, `BowShootingBehavior.cs`, `ArrowBehavior.cs`, `Ball.cs`, `CameraSpring.cs`, `CameraLean.cs`, `StanceVignette.cs`) and the motor's internals are not part of this model.
