/** The compass: the two arguments handed to atan2 for a rotation quaternion (x, y, z, w). */
module Compass {

  datatype Quaternion = Quaternion(x: real, y: real, z: real, w: real)

  predicate UnitQuaternion(q: Quaternion) {
    q.x * q.x + q.y * q.y + q.z * q.z + q.w * q.w == 1.0
  }

  function AzimuthArguments(q: Quaternion): (real, real) {
    var q1q2 := 2.0 * q.x * q.y;
    var q3q0 := 2.0 * q.z * q.w;
    var sq1 := 2.0 * q.x * q.x;
    var sq3 := 2.0 * q.z * q.z;
    (q1q2 - q3q0, 1.0 - sq1 - sq3)
  }

  function Negate(q: Quaternion): Quaternion {
    Quaternion(-q.x, -q.y, -q.z, -q.w)
  }

  function Vertical(q: Quaternion): real {
    2.0 * (q.y * q.z + q.x * q.w)
  }

  /** Hamilton's product. */
  function Multiply(a: Quaternion, b: Quaternion): Quaternion {
    Quaternion(
      a.w * b.x + a.x * b.w + a.y * b.z - a.z * b.y,
      a.w * b.y - a.x * b.z + a.y * b.w + a.z * b.x,
      a.w * b.z + a.x * b.y - a.y * b.x + a.z * b.w,
      a.w * b.w - a.x * b.x - a.y * b.y - a.z * b.z)
  }

  function Conjugate(q: Quaternion): Quaternion {
    Quaternion(-q.x, -q.y, -q.z, q.w)
  }

  /** The vector part of `v`, rotated. */
  function Rotate(q: Quaternion, v: Quaternion): Quaternion {
    Multiply(Multiply(q, v), Conjugate(q))
  }

  const Y_AXIS := Quaternion(0.0, 1.0, 0.0, 0.0)

  /** The arguments are the horizontal components of the rotated y axis, so the azimuth is that axis's heading. */
  lemma ArgumentsAreRotatedAxis(q: Quaternion)
    requires UnitQuaternion(q)
    ensures var (r1, r4) := AzimuthArguments(q);
            Rotate(q, Y_AXIS) == Quaternion(r1, r4, Vertical(q), 0.0)
  {
    var half := Multiply(q, Y_AXIS);
    assert half == Quaternion(-q.z, q.w, q.x, -q.y);
    var r := Multiply(half, Conjugate(q));
    assert r.w == 0.0;
    assert r.z == Vertical(q);
    assert r.x == AzimuthArguments(q).0;
    assert r.y == AzimuthArguments(q).1;
  }

  /**
   * For a unit quaternion the two arguments are the horizontal part of a unit vector: their
   * squares and the square of the vertical part add up to one. Hence both lie in [-1, 1].
   */
  lemma ArgumentsAreProjection(q: Quaternion)
    requires UnitQuaternion(q)
    ensures var (r1, r4) := AzimuthArguments(q);
            && r1 * r1 + r4 * r4 + Vertical(q) * Vertical(q) == 1.0
            && -1.0 <= r1 <= 1.0 && -1.0 <= r4 <= 1.0
  {
    var (r1, r4) := AzimuthArguments(q);
    assert r1 * r1 + r4 * r4 + Vertical(q) * Vertical(q) == 1.0;
    SquareBounds(r1);
    SquareBounds(r4);
  }

  lemma SquareBounds(r: real)
    ensures r * r <= 1.0 ==> -1.0 <= r <= 1.0
  {
  }

  /** A quaternion and its negation describe the same rotation, and give the same arguments. */
  lemma DoubleCover(q: Quaternion)
    ensures AzimuthArguments(Negate(q)) == AzimuthArguments(q)
  {
    var n := Negate(q);
    MirrorProduct(q.x, q.y, n.x, n.y);
    MirrorProduct(q.z, q.w, n.z, n.w);
    MirrorProduct(q.x, q.x, n.x, n.x);
    MirrorProduct(q.z, q.z, n.z, n.z);
    assert AzimuthArguments(n).0 == AzimuthArguments(q).0;
    assert AzimuthArguments(n).1 == AzimuthArguments(q).1;
  }

  lemma MirrorProduct(a: real, b: real, c: real, d: real)
    requires c == -a && d == -b
    ensures 2.0 * c * d == 2.0 * a * b
  {
  }
}
