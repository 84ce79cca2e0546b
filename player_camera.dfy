/**
 * The first-person camera of the player: it follows a target transform,
 * accumulates mouse look into Euler angles and clamps the pitch.
 *
 * Angles are in degrees and are modelled as reals. Unity returns
 * `Transform.eulerAngles` normalised into [0, 360) when it is read, and
 * `Initialize` reads the target's angles that way; the model accepts any
 * angles there, so the normalised ones are among the cases covered.
 */
module Camera {

  /** Mouse look delta: `x` turns the view sideways, `y` up and down. */
  datatype Look = Look(x: real, y: real)

  /** Euler angles in degrees: `x` pitch, `y` yaw, `z` roll. */
  datatype Euler = Euler(x: real, y: real, z: real)

  datatype Point = Point(x: real, y: real, z: real)

  /** The part of a Unity transform the camera reads or writes. */
  datatype Transform = Transform(position: Point, eulerAngles: Euler)

  /** The serialized settings of the component. */
  datatype Settings = Settings(sensitivity: real, minX: real, maxX: real)

  /** The inspector defaults. */
  const Defaults := Settings(0.1, -85.0, 85.0)

  predicate Ordered(cfg: Settings) {
    cfg.minX <= cfg.maxX
  }

  predicate PitchInRange(e: Euler, cfg: Settings) {
    cfg.minX <= e.x <= cfg.maxX
  }

  /** Unity's `Mathf.Clamp`: the lower bound is tested first, so with
      crossed bounds a value below `lo` still yields `lo`. */
  function Clamp(v: real, lo: real, hi: real): (r: real)
    ensures lo <= hi ==> lo <= r <= hi
    ensures lo <= v <= hi ==> r == v
    ensures lo <= hi ==> (r == v <==> lo <= v <= hi)
    ensures r == v || r == lo || r == hi
    ensures v < lo ==> r == lo
    ensures lo <= v && hi < v ==> r == hi
  {
    if v < lo then lo
    else if v > hi then hi
    else v
  }

  /** The angles after one look input: the scaled delta is added (pitch
      against the look's `y`, yaw with its `x`, roll by zero) and the pitch
      is then clamped. */
  function Rotate(e: Euler, look: Look, cfg: Settings): (r: Euler)
    ensures r.y == e.y + look.x * cfg.sensitivity
    ensures r.z == e.z
    ensures Ordered(cfg) ==> PitchInRange(r, cfg)
    ensures cfg.minX <= e.x - look.y * cfg.sensitivity <= cfg.maxX ==> r.x == e.x - look.y * cfg.sensitivity
    ensures e.x - look.y * cfg.sensitivity < cfg.minX ==> r.x == cfg.minX
    ensures cfg.minX <= e.x - look.y * cfg.sensitivity && cfg.maxX < e.x - look.y * cfg.sensitivity ==> r.x == cfg.maxX
    ensures look == Look(0.0, 0.0) && PitchInRange(e, cfg) ==> r == e
  {
    var summed := Euler(e.x + -look.y * cfg.sensitivity, e.y + look.x * cfg.sensitivity, e.z + 0.0 * cfg.sensitivity);
    summed.(x := Clamp(summed.x, cfg.minX, cfg.maxX))
  }

  /** A run of look inputs, applied in order. */
  function RotateAll(e: Euler, looks: seq<Look>, cfg: Settings): Euler
    decreases |looks|
  {
    if looks == [] then e else RotateAll(Rotate(e, looks[0], cfg), looks[1..], cfg)
  }

  /** The total sideways look of a run. */
  function SumX(looks: seq<Look>): real
    decreases |looks|
  {
    if looks == [] then 0.0 else looks[0].x + SumX(looks[1..])
  }

  /** Yaw is never clamped: over any run it moves by exactly the scaled
      total sideways look, and roll never moves. */
  lemma {:induction false} RotateAllYawAndRoll(e: Euler, looks: seq<Look>, cfg: Settings)
    ensures RotateAll(e, looks, cfg).y == e.y + SumX(looks) * cfg.sensitivity
    ensures RotateAll(e, looks, cfg).z == e.z
    decreases |looks|
  {
    if looks != [] {
      var next := Rotate(e, looks[0], cfg);
      RotateAllYawAndRoll(next, looks[1..], cfg);
      calc {
        RotateAll(e, looks, cfg).y;
        next.y + SumX(looks[1..]) * cfg.sensitivity;
        e.y + looks[0].x * cfg.sensitivity + SumX(looks[1..]) * cfg.sensitivity;
        e.y + (looks[0].x + SumX(looks[1..])) * cfg.sensitivity;
      }
    }
  }

  /** After at least one look input the pitch lies within the bounds, and
      a pitch already within them stays there over any run. */
  lemma {:induction false} RotateAllPitchInRange(e: Euler, looks: seq<Look>, cfg: Settings)
    requires Ordered(cfg)
    ensures looks != [] || PitchInRange(e, cfg) ==> PitchInRange(RotateAll(e, looks, cfg), cfg)
    decreases |looks|
  {
    if looks != [] {
      RotateAllPitchInRange(Rotate(e, looks[0], cfg), looks[1..], cfg);
    }
  }

  /** With no look input the view stays put, once the pitch is in range. */
  lemma {:induction false} StillLookKeepsView(e: Euler, n: nat, cfg: Settings)
    requires PitchInRange(e, cfg)
    ensures RotateAll(e, seq(n, _ => Look(0.0, 0.0)), cfg) == e
    decreases n
  {
    if n > 0 {
      var looks := seq(n, _ => Look(0.0, 0.0));
      assert looks[1..] == seq(n - 1, _ => Look(0.0, 0.0));
      StillLookKeepsView(e, n - 1, cfg);
    }
  }

  /** With the inspector defaults the pitch stays within 85 degrees of the
      horizon once any look input has arrived. */
  lemma DefaultPitchBounds(e: Euler, looks: seq<Look>)
    requires looks != []
    ensures -85.0 <= RotateAll(e, looks, Defaults).x <= 85.0
  {
    RotateAllPitchInRange(e, looks, Defaults);
  }

  /** The camera component. `eulerAngles` is the accumulated view the
      component keeps; `transform` is the camera's own transform. */
  class PlayerCamera {
    const settings: Settings
    var eulerAngles: Euler
    var transform: Transform

    /** A fresh component: the accumulated angles start at zero. */
    constructor (settings: Settings, transform: Transform)
      ensures this.settings == settings && this.transform == transform
      ensures eulerAngles == Euler(0.0, 0.0, 0.0)
    {
      this.settings := settings;
      this.transform := transform;
      eulerAngles := Euler(0.0, 0.0, 0.0);
    }

    /** Snap to the target: position and angles are copied as they are,
        so the pitch is not clamped until the first look input. */
    method Initialize(target: Transform)
      modifies this`transform, this`eulerAngles
      ensures transform == target
      ensures eulerAngles == target.eulerAngles
    {
      transform := transform.(position := target.position);
      eulerAngles := target.eulerAngles;
      transform := transform.(eulerAngles := eulerAngles);
    }

    /** Accumulate one look input, clamp the pitch, and show the result. */
    method UpdateRotation(look: Look)
      modifies this`transform, this`eulerAngles
      ensures eulerAngles == Rotate(old(eulerAngles), look, settings)
      ensures transform == old(transform).(eulerAngles := eulerAngles)
    {
      var delta := Euler(-look.y * settings.sensitivity, look.x * settings.sensitivity, 0.0 * settings.sensitivity);
      eulerAngles := Euler(eulerAngles.x + delta.x, eulerAngles.y + delta.y, eulerAngles.z + delta.z);
      eulerAngles := eulerAngles.(x := Clamp(eulerAngles.x, settings.minX, settings.maxX));
      transform := transform.(eulerAngles := eulerAngles);
    }

    /** Follow the target's position; the angles are left alone. */
    method UpdatePosition(target: Transform)
      modifies this`transform
      ensures transform == old(transform).(position := target.position)
    {
      transform := transform.(position := target.position);
    }
  }
}
