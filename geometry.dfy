/** Points in world space, standing in for `SIMD3<Float>`. */
module Geometry {
  /** `Float.pi`. */
  const Pi: real := 3.1415927

  /** Degrees to radians, `degrees * .pi / 180`. */
  function Radians(degrees: real): real
  {
    degrees * Pi / 180.0
  }

  datatype Vec3 = Vec3(x: real, y: real, z: real)

  /** A point in the ground plane, standing in for `SIMD2<Float>`. */
  datatype Vec2 = Vec2(x: real, y: real)

  /** Squared Euclidean distance, which is `simd_distance` squared. */
  function DistSq(a: Vec3, b: Vec3): (r: real)
    ensures r >= 0.0
    ensures a == b ==> r == 0.0
  {
    (a.x - b.x) * (a.x - b.x) + (a.y - b.y) * (a.y - b.y) + (a.z - b.z) * (a.z - b.z)
  }

  /** An RGBA colour, standing in for `SIMD4<Float>`. */
  datatype Color = Color(r: real, g: real, b: real, a: real)

  /**
   * The distance fade of a label: fully opaque up to `fade`, then falling
   * linearly to 0 at `max`.
   */
  function Fade(distance: real, fade: real, max: real): (o: real)
    requires fade < max
    ensures distance <= fade ==> o == 1.0
    ensures fade <= distance <= max ==> 0.0 <= o <= 1.0
    ensures distance == max ==> o == 0.0
  {
    if distance < fade then 1.0
    else
      FadeFraction(distance, fade, max);
      1.0 - (distance - fade) / (max - fade)
  }

  /** How far past the fade distance, as a fraction of the fade band. */
  lemma FadeFraction(distance: real, fade: real, max: real)
    requires fade < max && fade <= distance
    ensures distance <= max ==> 0.0 <= (distance - fade) / (max - fade) <= 1.0
    ensures distance == max ==> (distance - fade) / (max - fade) == 1.0
    ensures distance == fade ==> (distance - fade) / (max - fade) == 0.0
  {
    var n, d := distance - fade, max - fade;
    if distance <= max {
      QuotientInUnit(n, d);
    }
    if distance == max {
      assert n / d == d / d == 1.0;
    }
  }

  /** A share of a positive whole that is at most the whole lies in [0, 1]. */
  lemma QuotientInUnit(n: real, d: real)
    requires 0.0 <= n <= d && 0.0 < d
    ensures 0.0 <= n / d <= 1.0
  {
  }

  /** Past the fade distance, opacity falls by the same amount for every unit of distance. */
  lemma FadeLinear(d1: real, d2: real, fade: real, max: real)
    requires fade < max && fade <= d1 <= d2
    ensures Fade(d1, fade, max) - Fade(d2, fade, max) == (d2 - d1) / (max - fade)
  {
  }

  /** Swift's `Int(x)`: truncation toward zero. */
  function Trunc(x: real): (n: int)
    ensures x >= 0.0 ==> n as real <= x < n as real + 1.0
    ensures x < 0.0 ==> n as real - 1.0 < x <= n as real
  {
    if x >= 0.0 then x.Floor else -((-x).Floor)
  }
}
