/** Value types shared by every script: the engine's optional references, 3-vectors
    of reals, opaque rotations, poses, and the Mathf helpers the scripts call. */
module Geometry {

  /** A reference that may be null (an unassigned Transform, a missed raycast). */
  datatype Option<+T> = None | Some(value: T)

  /** UnityEngine.Vector3, with exact real components. */
  datatype Vec3 = Vec3(x: real, y: real, z: real)

  /** A quaternion; the model copies rotations around but never computes with them. */
  datatype Rotation = Rotation(x: real, y: real, z: real, w: real)

  /** Position and rotation of a Transform. */
  datatype Pose = Pose(position: Vec3, rotation: Rotation)

  const Zero := Vec3(0.0, 0.0, 0.0)
  const Identity := Rotation(0.0, 0.0, 0.0, 1.0)

  function Add(a: Vec3, b: Vec3): Vec3 { Vec3(a.x + b.x, a.y + b.y, a.z + b.z) }

  function Sub(a: Vec3, b: Vec3): Vec3 { Vec3(a.x - b.x, a.y - b.y, a.z - b.z) }

  function Scale(k: real, v: Vec3): Vec3 { Vec3(k * v.x, k * v.y, k * v.z) }

  /** Vector3.Scale: the component-wise product. */
  function Mul(a: Vec3, b: Vec3): Vec3 { Vec3(a.x * b.x, a.y * b.y, a.z * b.z) }

  function Neg(v: Vec3): Vec3 { Vec3(-v.x, -v.y, -v.z) }

  /** The square of Vector3.magnitude. */
  function SqMagnitude(v: Vec3): (r: real)
    ensures r >= 0.0
  {
    v.x * v.x + v.y * v.y + v.z * v.z
  }

  /** The square of Vector3.Distance(a, b). */
  function SqDist(a: Vec3, b: Vec3): (r: real)
    ensures r >= 0.0
  {
    SqMagnitude(Sub(b, a))
  }

  /** `d` is Vector3.Distance(a, b): the non-negative square root of SqDist(a, b).
      Square roots are not computed; a script that needs the length receives it with
      this relation as a precondition. */
  ghost predicate IsDistance(d: real, a: Vec3, b: Vec3) {
    d >= 0.0 && d * d == SqDist(a, b)
  }

  /** Comparing a distance with a radius is exact on squared distances, so every
      distance gate of the scripts can be decided without a square root. */
  lemma DistanceExceeds(d: real, a: Vec3, b: Vec3, radius: real)
    requires IsDistance(d, a, b)
    ensures d > radius <==> (radius < 0.0 || SqDist(a, b) > radius * radius)
  {
    if radius >= 0.0 {
      assert d * d - radius * radius == (d - radius) * (d + radius);
      if d > radius {
        ProductSign(d - radius, d + radius);
      } else {
        ProductSign(radius - d, d + radius);
      }
    }
  }

  /** Scaling a vector by k scales its squared magnitude by k * k. */
  lemma ScaleSqMagnitude(k: real, v: Vec3)
    ensures SqMagnitude(Scale(k, v)) == k * k * SqMagnitude(v)
  {
    assert (k * v.x) * (k * v.x) == k * k * (v.x * v.x);
    assert (k * v.y) * (k * v.y) == k * k * (v.y * v.y);
    assert (k * v.z) * (k * v.z) == k * k * (v.z * v.z);
  }

  lemma ProductSign(a: real, b: real)
    requires a >= 0.0 && b >= 0.0
    ensures a * b >= 0.0
    ensures a > 0.0 && b > 0.0 ==> a * b > 0.0
  {
  }

  /** Mathf.Clamp01. */
  function Clamp01(t: real): (r: real)
    ensures 0.0 <= r <= 1.0
    ensures 0.0 <= t <= 1.0 ==> r == t
    ensures t < 0.0 ==> r == 0.0
    ensures t > 1.0 ==> r == 1.0
  {
    if t < 0.0 then 0.0 else if t > 1.0 then 1.0 else t
  }

  /** Mathf.Clamp(value, min, max): below min gives min, above max gives max. */
  function Clamp(value: real, min: real, max: real): (r: real)
    requires min <= max
    ensures min <= r <= max
    ensures min <= value <= max ==> r == value
  {
    if value < min then min else if value > max then max else value
  }

  /** Vector3.Lerp: the parameter is clamped to [0, 1] first. */
  function Lerp(a: Vec3, b: Vec3, t: real): Vec3 {
    Add(a, Scale(Clamp01(t), Sub(b, a)))
  }

  /** (1 - s) * a + s * b, written without clamping, as the rope scripts do. */
  function Mix(a: Vec3, b: Vec3, s: real): Vec3 {
    Add(Scale(1.0 - s, a), Scale(s, b))
  }

  /** (a + b) / 2. */
  function Midpoint(a: Vec3, b: Vec3): Vec3 {
    Scale(0.5, Add(a, b))
  }

  function Abs(x: real): real { if x < 0.0 then -x else x }

  function Max(a: real, b: real): real { if a < b then b else a }

  /** float.MaxValue. */
  const FloatMaxValue: real := 340282346638528859811704183484516925440.0

  /** The smallest positive single-precision value, 2^-149, as Mathf.Epsilon. */
  const FloatMinDenormal: real := 0.00000000000000000000000000000000000000000000140129846432481707092372958328991613128026194187651577175706828388979108268586060148663818836212158203125

  /** Mathf.Approximately: |b - a| < max(1e-6 * max(|a|, |b|), 8 * Epsilon). */
  predicate Approximately(a: real, b: real) {
    Abs(b - a) < Max(0.000001 * Max(Abs(a), Abs(b)), 8.0 * FloatMinDenormal)
  }

  /** Equal values are always approximately equal, so a value that is not
      approximately equal to another differs from it; and the test is symmetric. */
  lemma ApproximatelyFacts(a: real, b: real)
    ensures a == b ==> Approximately(a, b)
    ensures !Approximately(a, b) ==> a != b
    ensures Approximately(a, b) <==> Approximately(b, a)
  {
  }

  /** `p` lies on the segment from `a` to `b`. */
  ghost predicate OnSegment(p: Vec3, a: Vec3, b: Vec3) {
    exists u :: 0.0 <= u <= 1.0 && p == Lerp(a, b, u)
  }
}
