/**
 * The orbit camera's clamped zoom distance, and the fly-to animation that
 * eases the camera's target and distance towards an airport over a fixed
 * duration with a smoothstep curve.
 */
module FlyTo {
  import opened Geometry

  const MinDistance: real := 10.0
  const MaxDistance: real := 1000.0
  /** Arrival zooms in to at most this distance. */
  const ArrivalDistance: real := 80.0

  /** `clamped(to: lo...hi)`. */
  function Clamp(x: real, lo: real, hi: real): (r: real)
    requires lo <= hi
    ensures lo <= r <= hi
    ensures lo <= x <= hi <==> r == x
    ensures x < lo ==> r == lo
    ensures x > hi ==> r == hi
  {
    if x < lo then lo else if x > hi then hi else x
  }

  /** The part of the camera the animation drives: its look-at target and its orbit distance. */
  class OrbitCamera {
    var target: Vec3
    var distance: real

    predicate Valid()
      reads this
    {
      MinDistance <= distance <= MaxDistance
    }

    constructor ()
      ensures Valid() && target == Vec3(0.0, 0.0, 0.0) && distance == 200.0
    {
      target := Vec3(0.0, 0.0, 0.0);
      distance := 200.0;
    }

    /** Assigning `distance`: its `didSet` clamps the new value to [10, 1000]. */
    method SetDistance(d: real)
      modifies this`distance
      ensures Valid() && distance == Clamp(d, MinDistance, MaxDistance)
    {
      distance := d;
      distance := Clamp(distance, MinDistance, MaxDistance);
    }
  }

  function Min(a: real, b: real): real { if a < b then a else b }

  /** The animation's progress: elapsed over duration, capped at 1. */
  function Progress(elapsed: real, duration: real): (t: real)
    requires duration > 0.0
    ensures t <= 1.0
    ensures t == 1.0 <==> elapsed >= duration
    ensures elapsed >= 0.0 ==> t >= 0.0
  {
    Min(elapsed / duration, 1.0)
  }

  /** Smoothstep ease-in-out, t²(3 − 2t). */
  function Smoothstep(t: real): real { t * t * (3.0 - 2.0 * t) }

  lemma MulNonNegative(x: real, y: real)
    requires x >= 0.0 && y >= 0.0
    ensures x * y >= 0.0
  {
  }

  /** The curve starts at 0, ends at 1 and stays within [0, 1] in between. */
  lemma SmoothstepBounds(t: real)
    requires 0.0 <= t <= 1.0
    ensures 0.0 <= Smoothstep(t) <= 1.0
    ensures t == 0.0 ==> Smoothstep(t) == 0.0
    ensures t == 1.0 ==> Smoothstep(t) == 1.0
  {
    assert 1.0 - Smoothstep(t) == (1.0 - t) * (1.0 - t) * (1.0 + 2.0 * t);
    MulNonNegative(1.0 - t, 1.0 - t);
    MulNonNegative((1.0 - t) * (1.0 - t), 1.0 + 2.0 * t);
    MulNonNegative(t, t);
    MulNonNegative(t * t, 3.0 - 2.0 * t);
  }

  /** The curve never moves backwards on [0, 1]. */
  lemma SmoothstepMonotonic(a: real, b: real)
    requires 0.0 <= a <= b <= 1.0
    ensures Smoothstep(a) <= Smoothstep(b)
  {
    var gap := 3.0 * (a + b) - 2.0 * (a * a + a * b + b * b);
    assert Smoothstep(b) - Smoothstep(a) == (b - a) * gap;
    MulNonNegative(a, 1.0 - a);
    MulNonNegative(b, 1.0 - b);
    MulNonNegative(b, 1.0 - a);
    assert gap >= 0.0;
    MulNonNegative(b - a, gap);
  }

  function Lerp(a: real, b: real, s: real): real { a + (b - a) * s }

  function Lerp3(a: Vec3, b: Vec3, s: real): Vec3
  {
    Vec3(Lerp(a.x, b.x, s), Lerp(a.y, b.y, s), Lerp(a.z, b.z, s))
  }

  /** For a weight in [0, 1] the interpolated value lies between the two ends; 0 and 1 give the ends. */
  lemma LerpBetween(a: real, b: real, s: real)
    requires 0.0 <= s <= 1.0
    ensures Min(a, b) <= Lerp(a, b, s) <= (if a < b then b else a)
    ensures s == 0.0 ==> Lerp(a, b, s) == a
    ensures s == 1.0 ==> Lerp(a, b, s) == b
  {
    if a <= b {
      MulNonNegative(b - a, s);
      MulNonNegative(b - a, 1.0 - s);
    } else {
      MulNonNegative(a - b, s);
      MulNonNegative(a - b, 1.0 - s);
    }
  }

  class FlyToAnimator {
    var isAnimating: bool
    var startTarget: Vec3
    var endTarget: Vec3
    var startDistance: real
    var endDistance: real
    var elapsed: real
    var duration: real

    predicate Valid()
      reads this
    {
      duration > 0.0
    }

    constructor ()
      ensures Valid() && !isAnimating && duration == 2.0 && elapsed == 0.0
      ensures startTarget == endTarget == Vec3(0.0, 0.0, 0.0) && startDistance == endDistance == 0.0
    {
      isAnimating := false;
      startTarget := Vec3(0.0, 0.0, 0.0);
      endTarget := Vec3(0.0, 0.0, 0.0);
      startDistance := 0.0;
      endDistance := 0.0;
      elapsed := 0.0;
      duration := 2.0;
    }

    /** `startFlyTo`: captures the camera's state and aims at the position, zooming in to at most 80. */
    method StartFlyTo(camera: OrbitCamera, worldPosition: Vec3)
      requires Valid()
      modifies this
      ensures Valid() && duration == old(duration)
      ensures startTarget == camera.target && endTarget == worldPosition
      ensures startDistance == camera.distance && endDistance == Min(camera.distance, ArrivalDistance)
      ensures elapsed == 0.0 && isAnimating
    {
      startTarget := camera.target;
      endTarget := worldPosition;
      startDistance := camera.distance;
      endDistance := Min(camera.distance, ArrivalDistance);
      elapsed := 0.0;
      isAnimating := true;
    }

    /** `update`: nothing when idle; otherwise advances the clock and eases the camera along. */
    method Update(camera: OrbitCamera, deltaTime: real)
      requires Valid()
      modifies this`elapsed, this`isAnimating, camera
      ensures Valid()
      ensures !old(isAnimating) ==> elapsed == old(elapsed) && !isAnimating &&
                                    camera.target == old(camera.target) && camera.distance == old(camera.distance)
      ensures old(isAnimating) ==>
                var t := Progress(old(elapsed) + deltaTime, duration);
                elapsed == old(elapsed) + deltaTime &&
                camera.target == Lerp3(startTarget, endTarget, Smoothstep(t)) &&
                camera.distance == Clamp(Lerp(startDistance, endDistance, Smoothstep(t)), MinDistance, MaxDistance) &&
                (isAnimating <==> t < 1.0)
    {
      if !isAnimating {
        return;
      }
      elapsed := elapsed + deltaTime;
      var t := Progress(elapsed, duration);
      var smooth := Smoothstep(t);
      camera.target := Lerp3(startTarget, endTarget, smooth);
      camera.SetDistance(Lerp(startDistance, endDistance, smooth));
      if t >= 1.0 {
        isAnimating := false;
      }
    }

    /** `cancel`. */
    method Cancel()
      modifies this`isAnimating
      ensures !isAnimating
    {
      isAnimating := false;
    }
  }

  /** Once the duration has passed the camera sits exactly on the destination, at the arrival distance. */
  lemma Arrival(startTarget: Vec3, endTarget: Vec3, startDistance: real, endDistance: real, elapsed: real,
                duration: real)
    requires duration > 0.0 && elapsed >= duration
    ensures Lerp3(startTarget, endTarget, Smoothstep(Progress(elapsed, duration))) == endTarget
    ensures Lerp(startDistance, endDistance, Smoothstep(Progress(elapsed, duration))) == endDistance
  {
    assert Progress(elapsed, duration) == 1.0;
    SmoothstepBounds(1.0);
  }

  /** Mid-flight, with a clock that never runs backwards, the camera's distance stays between start and end. */
  lemma InFlight(startDistance: real, endDistance: real, elapsed: real, duration: real)
    requires duration > 0.0 && elapsed >= 0.0
    ensures var d := Lerp(startDistance, endDistance, Smoothstep(Progress(elapsed, duration)));
            Min(startDistance, endDistance) <= d <= (if startDistance < endDistance then endDistance else startDistance)
  {
    var t := Progress(elapsed, duration);
    SmoothstepBounds(t);
    LerpBetween(startDistance, endDistance, Smoothstep(t));
  }

  /** A flight started from a camera within [10, 1000] ends at a distance within [10, 80] and never farther than it began. */
  lemma ArrivalDistanceBounds(cameraDistance: real)
    requires MinDistance <= cameraDistance <= MaxDistance
    ensures MinDistance <= Min(cameraDistance, ArrivalDistance) <= ArrivalDistance
    ensures Min(cameraDistance, ArrivalDistance) <= cameraDistance
  {
  }
}
