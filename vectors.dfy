/** Exact-real model of the parts of `THREE.Vector3` that the overlays use. */
module Vectors {
  datatype Vec3 = Vec3(x: real, y: real, z: real)

  function Add(a: Vec3, b: Vec3): Vec3 {
    Vec3(a.x + b.x, a.y + b.y, a.z + b.z)
  }

  function Sub(a: Vec3, b: Vec3): Vec3 {
    Vec3(a.x - b.x, a.y - b.y, a.z - b.z)
  }

  function Scale(a: Vec3, s: real): Vec3 {
    Vec3(a.x * s, a.y * s, a.z * s)
  }

  /** `a.clone().addScaledVector(v, s)` */
  function AddScaled(a: Vec3, v: Vec3, s: real): Vec3 {
    Add(a, Scale(v, s))
  }

  function Dot(a: Vec3, b: Vec3): real {
    a.x * b.x + a.y * b.y + a.z * b.z
  }

  /** `Vector3.lengthSq()` */
  function LengthSq(a: Vec3): (r: real)
    ensures r >= 0.0
  {
    SquareNonNegative(a.x);
    SquareNonNegative(a.y);
    SquareNonNegative(a.z);
    Sq(a.x) + Sq(a.y) + Sq(a.z)
  }

  function Sq(v: real): real {
    v * v
  }

  lemma SquareNonNegative(v: real)
    ensures Sq(v) >= 0.0
  {
    if v < 0.0 {
      assert v * v == (-v) * (-v);
    }
  }

  /** The signed area spanned by the ground projections of `a` and `b`:
      positive when `b` lies clockwise of `a` seen from above (from +y,
      turning x towards z is a clockwise turn). */
  function Cross(a: Vec3, b: Vec3): real {
    a.x * b.z - a.z * b.x
  }

  /** The point straight below `p` on the ground plane (`p.clone()` with `y = 0`). */
  function Ground(p: Vec3): (r: Vec3)
    ensures r.y == 0.0 && r.x == p.x && r.z == p.z
  {
    p.(y := 0.0)
  }

  /** `Math.sqrt` is JavaScript's built-in; the model receives it as a
      parameter and relies only on this property of it. */
  ghost predicate IsSqrt(sqrt: real -> real) {
    forall s: real :: s >= 0.0 ==> sqrt(s) >= 0.0 && sqrt(s) * sqrt(s) == s
  }

  lemma PositiveProduct(a: real, b: real)
    requires a > 0.0 && b > 0.0
    ensures a * b > 0.0
  {
  }

  lemma ScaleLengthSq(a: Vec3, s: real)
    ensures LengthSq(Scale(a, s)) == Sq(s) * LengthSq(a)
  {
  }

  lemma DotScaled(a: Vec3, b: Vec3, s: real)
    ensures Dot(Scale(a, s), b) == s * Dot(a, b)
    ensures Cross(Scale(a, s), b) == s * Cross(a, b)
    ensures Cross(b, Scale(a, s)) == s * Cross(b, a)
  {
  }

  lemma CrossAddScaled(a: Vec3, b: Vec3, c: Vec3, s: real)
    ensures Cross(a, AddScaled(b, c, s)) == Cross(a, b) + s * Cross(a, c)
  {
  }

  /** `Vector3.length()` */
  function Length(a: Vec3, sqrt: real -> real): real {
    sqrt(LengthSq(a))
  }

  /** `Vector3.normalize()`, which divides by `length() || 1`: the zero
      vector is left as it is. */
  function Normalize(a: Vec3, sqrt: real -> real): Vec3 {
    var len := Length(a, sqrt);
    if len == 0.0 then a else Scale(a, 1.0 / len)
  }

  /** A non-zero vector normalizes to a unit vector pointing the same way,
      obtained by dividing by its length. */
  lemma NormalizeNonZero(a: Vec3, sqrt: real -> real)
    requires IsSqrt(sqrt)
    requires LengthSq(a) > 0.0
    ensures Length(a, sqrt) > 0.0
    ensures Length(a, sqrt) * Length(a, sqrt) == LengthSq(a)
    ensures Normalize(a, sqrt) == Scale(a, 1.0 / Length(a, sqrt))
    ensures LengthSq(Normalize(a, sqrt)) == 1.0
  {
    var q := LengthSq(a);
    var len := sqrt(q);
    assert len >= 0.0 && len * len == q;
    assert len != 0.0;
    var k := 1.0 / len;
    assert k * len == 1.0;
    assert (k * k) * (len * len) == 1.0 by {
      assert (k * k) * (len * len) == (k * len) * (k * len);
    }
    ScaleLengthSq(a, k);
  }
}
