/**
 * Where the grab systems steer a held item each frame (HandleHolding and
 * PreventClipping in both PlayerGrabSystem scripts). Camera position, view direction,
 * engine distances (as `IsLength` relations) and the result of the anti-clipping
 * line cast are inputs.
 */
module Holding {
  import opened Engine

  /** The Inspector settings of the hold controller. */
  datatype HoldSettings = HoldSettings(
    holdDistance: real,
    minHoldDistance: real,
    heightAdjustment: real,
    weightFactor: real,
    smoothing: real)

  /** The defaults both scripts declare. */
  const DefaultSettings := HoldSettings(5.0, 2.0, 0.5, 0.1, 10.0)

  /** How far PreventClipping backs off from the blocking surface, along the view direction. */
  const ClipBackoff := 0.2

  /** The point `d` ahead of the camera along `forward`. */
  function Ahead(cam: Vec3, forward: Vec3, d: real): Vec3 {
    cam.Plus(forward.Scale(d))
  }

  /** With a unit view direction, the point `d` ahead of the camera is at distance `d`. */
  lemma AheadDistance(cam: Vec3, forward: Vec3, d: real)
    ensures IsLength(forward, 1.0) && d >= 0.0 ==> IsLength(Ahead(cam, forward, d).Minus(cam), d)
  {
    var v := Ahead(cam, forward, d).Minus(cam);
    assert v == forward.Scale(d);
    calc {
      SqLength(v);
      (d * forward.x) * (d * forward.x) + (d * forward.y) * (d * forward.y) + (d * forward.z) * (d * forward.z);
      { assert (d * forward.x) * (d * forward.x) == d * d * (forward.x * forward.x);
        assert (d * forward.y) * (d * forward.y) == d * d * (forward.y * forward.y);
        assert (d * forward.z) * (d * forward.z) == d * d * (forward.z * forward.z); }
      d * d * SqLength(forward);
    }
  }

  /** The physics hold point: straight ahead, raised by the adjustment less the weight offset. */
  function WeightedTarget(cam: Vec3, forward: Vec3, s: HoldSettings, mass: real): Vec3 {
    var p := Ahead(cam, forward, s.holdDistance);
    p.(y := p.y + s.heightAdjustment - mass * s.weightFactor)
  }

  /**
   * The minimum-distance guard: a point `distance` away from the camera that is closer
   * than `minHold` is replaced by the point `minHold` straight ahead.
   */
  function KeepAway(p: Vec3, distance: real, cam: Vec3, forward: Vec3, minHold: real): (r: Vec3)
    requires IsLength(p.Minus(cam), distance)
    ensures distance >= minHold ==> r == p
    ensures distance < minHold ==> r == Ahead(cam, forward, minHold)
    ensures IsLength(forward, 1.0) && minHold >= 0.0 ==> IsLength(r.Minus(cam), Max(distance, minHold))
  {
    if distance < minHold then
      AheadDistance(cam, forward, minHold);
      Ahead(cam, forward, minHold)
    else
      p
  }

  /** Vector3.Lerp: the interpolation parameter is clamped to [0, 1]. */
  function Lerp(a: Vec3, b: Vec3, t: real): (r: Vec3)
    ensures t <= 0.0 ==> r == a
    ensures t >= 1.0 ==> r == b
    ensures 0.0 <= t <= 1.0 ==> r == a.Plus(b.Minus(a).Scale(t))
  {
    a.Plus(b.Minus(a).Scale(Clamp(t, 0.0, 1.0)))
  }

  /**
   * PreventClipping: when the line from the camera to the target is blocked at
   * `blocked`, the item is placed `ClipBackoff` short of it, but not closer to the
   * camera than `minHold`; `distance` is the engine's distance of that backed-off point.
   */
  function ClipGuard(blocked: Option<Vec3>, distance: real, cam: Vec3, forward: Vec3, minHold: real): (r: Option<Vec3>)
    requires blocked.Some? ==> IsLength(blocked.value.Minus(forward.Scale(ClipBackoff)).Minus(cam), distance)
    ensures r.Some? <==> blocked.Some?
    ensures r.Some? && distance >= minHold ==> r.value == blocked.value.Minus(forward.Scale(ClipBackoff))
    ensures r.Some? && IsLength(forward, 1.0) && minHold >= 0.0 ==> IsLength(r.value.Minus(cam), Max(distance, minHold))
  {
    match blocked
    case None => None
    case Some(hit) => Some(KeepAway(hit.Minus(forward.Scale(ClipBackoff)), distance, cam, forward, minHold))
  }
}
