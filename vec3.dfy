// Three-component vectors over the reals (the Vec3 value type of the library).
//
// Square root, sine and cosine are not definable here; operations that need
// them take the function (`sqrt`) or the values (`sin`, `cos`) as parameters,
// and `IsSqrt` states what a square root must satisfy.
module Vectors {

  datatype Vec3 = Vec3(x: real, y: real, z: real)

  const Zero: Vec3 := Vec3(0.0, 0.0, 0.0)
  const UnitX: Vec3 := Vec3(1.0, 0.0, 0.0)
  const Up: Vec3 := Vec3(0.0, 1.0, 0.0)
  const UnitZ: Vec3 := Vec3(0.0, 0.0, 1.0)

  /** What the model needs of Math.Sqrt: a non-negative root of every
      non-negative number, zero exactly at zero. */
  ghost predicate IsSqrt(sqrt: real -> real)
  {
    && sqrt(0.0) == 0.0
    && forall v: real :: v > 0.0 ==> sqrt(v) > 0.0 && sqrt(v) * sqrt(v) == v
  }

  // ---------------------------------------------------------------- operators

  function Add(a: Vec3, b: Vec3): Vec3
  {
    Vec3(a.x + b.x, a.y + b.y, a.z + b.z)
  }

  function Sub(a: Vec3, b: Vec3): Vec3
  {
    Vec3(a.x - b.x, a.y - b.y, a.z - b.z)
  }

  function Neg(a: Vec3): Vec3
  {
    Vec3(-a.x, -a.y, -a.z)
  }

  function Scale(a: Vec3, k: real): Vec3
  {
    Vec3(a.x * k, a.y * k, a.z * k)
  }

  function Div(a: Vec3, d: real): Vec3
    requires d != 0.0
  {
    Vec3(a.x / d, a.y / d, a.z / d)
  }

  /** Subtraction undoes addition, componentwise. */
  lemma SubUndoesAdd(a: Vec3, b: Vec3)
    ensures Sub(Add(a, b), b) == a
    ensures Add(Sub(a, b), b) == a
    ensures Add(a, b) == Add(b, a)
    ensures Sub(a, b) == Add(a, Neg(b))
  {
  }

  /** Division by d undoes scaling by d, and unary minus is its own inverse. */
  lemma DivUndoesScale(a: Vec3, d: real)
    requires d != 0.0
    ensures Div(Scale(a, d), d) == a
    ensures Neg(Neg(a)) == a
    ensures Neg(a) == Scale(a, -1.0)
  {
  }

  // ---------------------------------------------------------------- equality

  /** The library's `==`: componentwise equality of the three coordinates. */
  predicate Equals(a: Vec3, b: Vec3)
  {
    a.x == b.x && a.y == b.y && a.z == b.z
  }

  /** The library's `!=`. */
  predicate NotEquals(a: Vec3, b: Vec3)
  {
    !Equals(a, b)
  }

  /** Componentwise equality is exactly equality of values, and `!=` is its negation. */
  lemma EqualsIsValueEquality(a: Vec3, b: Vec3)
    ensures Equals(a, b) <==> a == b
    ensures NotEquals(a, b) <==> a != b
  {
  }

  // ---------------------------------------------------------------- products

  function Dot(a: Vec3, b: Vec3): real
  {
    a.x * b.x + a.y * b.y + a.z * b.z
  }

  function LengthSquared(a: Vec3): (r: real)
    ensures r >= 0.0
  {
    Dot(a, a)
  }

  /** A non-zero real has a positive square. */
  lemma SquarePositive(r: real, square: real)
    requires r != 0.0 && square == r * r
    ensures square > 0.0
  {
    var m := if r < 0.0 then -r else r;
    assert m > 0.0 && square == m * m;
    PositiveProduct(m, m, square);
  }

  /** The product of two positive reals is positive. */
  lemma PositiveProduct(a: real, b: real, product: real)
    requires a > 0.0 && b > 0.0 && product == a * b
    ensures product > 0.0
  {
  }

  /** Only the zero vector has length zero. */
  lemma NonZeroHasLength(a: Vec3)
    requires a != Zero
    ensures LengthSquared(a) > 0.0
  {
    var x2, y2, z2 := a.x * a.x, a.y * a.y, a.z * a.z;
    assert LengthSquared(a) == x2 + y2 + z2;
    assert x2 >= 0.0 && y2 >= 0.0 && z2 >= 0.0;
    if a.x != 0.0 {
      SquarePositive(a.x, x2);
    } else if a.y != 0.0 {
      SquarePositive(a.y, y2);
    } else {
      SquarePositive(a.z, z2);
    }
  }

  /** Dot is symmetric. */
  lemma DotSymmetric(a: Vec3, b: Vec3)
    ensures Dot(a, b) == Dot(b, a)
  {
  }

  /** Dot distributes over a sum on the left. */
  lemma DotAddLeft(a: Vec3, b: Vec3, c: Vec3)
    ensures Dot(Add(a, b), c) == Dot(a, c) + Dot(b, c)
  {
  }

  /** Length, given a square root. */
  function Length(a: Vec3, sqrt: real -> real): real
  {
    sqrt(LengthSquared(a))
  }

  /** Vector3.Distance. */
  function Distance(a: Vec3, b: Vec3, sqrt: real -> real): real
  {
    Length(Sub(a, b), sqrt)
  }

  /** Length is non-negative, zero exactly when LengthSquared is, and its
      square is LengthSquared. */
  lemma LengthIsRoot(a: Vec3, sqrt: real -> real)
    requires IsSqrt(sqrt)
    ensures Length(a, sqrt) >= 0.0
    ensures Length(a, sqrt) == 0.0 <==> LengthSquared(a) == 0.0
    ensures Length(a, sqrt) * Length(a, sqrt) == LengthSquared(a)
  {
    var l := LengthSquared(a);
    if l > 0.0 {
      assert sqrt(l) > 0.0 && sqrt(l) * sqrt(l) == l;
    }
  }

  /** Cross product. The library's Cross assigns the product to `this`;
      for a value type that is the same as returning it. */
  function Cross(a: Vec3, b: Vec3): Vec3
  {
    Vec3(a.y * b.z - a.z * b.y, a.z * b.x - a.x * b.z, a.x * b.y - a.y * b.x)
  }

  /** The cross product is orthogonal to both of its factors. */
  lemma CrossOrthogonal(a: Vec3, b: Vec3)
    ensures Dot(Cross(a, b), a) == 0.0
    ensures Dot(Cross(a, b), b) == 0.0
  {
    var c := Cross(a, b);
    calc {
      Dot(c, a);
      (a.y * b.z - a.z * b.y) * a.x + (a.z * b.x - a.x * b.z) * a.y + (a.x * b.y - a.y * b.x) * a.z;
      a.x * a.y * b.z - a.x * a.z * b.y + a.y * a.z * b.x - a.x * a.y * b.z + a.x * a.z * b.y - a.y * a.z * b.x;
      0.0;
    }
    calc {
      Dot(c, b);
      (a.y * b.z - a.z * b.y) * b.x + (a.z * b.x - a.x * b.z) * b.y + (a.x * b.y - a.y * b.x) * b.z;
      a.y * b.x * b.z - a.z * b.x * b.y + a.z * b.x * b.y - a.x * b.y * b.z + a.x * b.y * b.z - a.y * b.x * b.z;
      0.0;
    }
  }

  // ---------------------------------------------------------------- components

  /** Component of v parallel to a (unit) basis vector. */
  function ParallelComponent(v: Vec3, unitBasis: Vec3): Vec3
  {
    Scale(unitBasis, Dot(v, unitBasis))
  }

  /** Component of v perpendicular to a (unit) basis vector. */
  function PerpendicularComponent(v: Vec3, unitBasis: Vec3): Vec3
  {
    Sub(v, ParallelComponent(v, unitBasis))
  }

  /** The two components always add back up to v, whatever the basis. */
  lemma ComponentsSum(v: Vec3, basis: Vec3)
    ensures Add(ParallelComponent(v, basis), PerpendicularComponent(v, basis)) == v
  {
  }

  /** For a unit basis the perpendicular component is orthogonal to it. */
  lemma PerpendicularIsOrthogonal(v: Vec3, unitBasis: Vec3)
    requires LengthSquared(unitBasis) == 1.0
    ensures Dot(PerpendicularComponent(v, unitBasis), unitBasis) == 0.0
  {
    var b := unitBasis;
    var p := Dot(v, b);
    calc {
      Dot(PerpendicularComponent(v, b), b);
      (v.x - b.x * p) * b.x + (v.y - b.y * p) * b.y + (v.z - b.z * p) * b.z;
      (v.x * b.x + v.y * b.y + v.z * b.z) - p * (b.x * b.x + b.y * b.y + b.z * b.z);
      p - p * LengthSquared(b);
      0.0;
    }
  }

  // ---------------------------------------------------------------- length control

  /** TruncateLength: v itself when no longer than maxLength, otherwise v
      scaled by maxLength / |v|. */
  function TruncateLength(v: Vec3, maxLength: real, sqrt: real -> real): (r: Vec3)
    requires IsSqrt(sqrt)
    ensures LengthSquared(v) <= maxLength * maxLength ==> r == v
    ensures LengthSquared(v) > maxLength * maxLength ==>
      exists k: real :: (maxLength > 0.0 ==> k > 0.0) && r == Scale(v, k)
    ensures LengthSquared(v) > maxLength * maxLength ==>
      LengthSquared(r) == maxLength * maxLength
  {
    var lsq := LengthSquared(v);
    if lsq <= maxLength * maxLength then v
    else
      var root := sqrt(lsq);
      RootOfPositive(lsq, root, maxLength, sqrt);
      var k := maxLength / root;
      TruncationFactor(v, lsq, root, maxLength);
      Scale(v, k)
  }

  lemma RootOfPositive(lsq: real, root: real, maxLength: real, sqrt: real -> real)
    requires IsSqrt(sqrt)
    requires lsq > maxLength * maxLength && root == sqrt(lsq)
    ensures root > 0.0 && root * root == lsq
  {
    assert maxLength * maxLength >= 0.0;
  }

  lemma TruncationFactor(v: Vec3, lsq: real, root: real, maxLength: real)
    requires lsq == LengthSquared(v) && root > 0.0 && root * root == lsq
    ensures LengthSquared(Scale(v, maxLength / root)) == maxLength * maxLength
    ensures maxLength > 0.0 ==> maxLength / root > 0.0
  {
    var k := maxLength / root;
    assert k * root == maxLength;
    ScaleLengthSquared(v, k);
    calc {
      k * k * lsq;
      k * k * (root * root);
      (k * root) * (k * root);
      maxLength * maxLength;
    }
  }

  lemma ScaleLengthSquared(v: Vec3, k: real)
    ensures LengthSquared(Scale(v, k)) == k * k * LengthSquared(v)
  {
  }

  /** Normalize: v divided by its length, or v itself when the length is 0. */
  function Normalize(v: Vec3, sqrt: real -> real): (r: Vec3)
    requires IsSqrt(sqrt)
    ensures LengthSquared(v) == 0.0 ==> r == v
    ensures LengthSquared(v) > 0.0 ==> LengthSquared(r) == 1.0
  {
    var len := Length(v, sqrt);
    LengthIsRoot(v, sqrt);
    if len > 0.0 then
      UnitAfterDivision(v, len);
      Div(v, len)
    else
      v
  }

  lemma UnitAfterDivision(v: Vec3, len: real)
    requires len > 0.0 && len * len == LengthSquared(v)
    ensures LengthSquared(Div(v, len)) == 1.0
  {
    var k := 1.0 / len;
    assert Div(v, len) == Scale(v, k);
    ScaleLengthSquared(v, k);
    calc {
      k * k * LengthSquared(v);
      k * k * (len * len);
      (k * len) * (k * len);
      1.0;
    }
  }

  // ---------------------------------------------------------------- plane helpers

  /** SetYToZero: projects onto the XZ plane. */
  function SetYToZero(v: Vec3): Vec3
  {
    Vec3(v.x, 0.0, v.z)
  }

  /** The projection is idempotent, orthogonal to Up, and only drops the Up part. */
  lemma SetYToZeroProjects(v: Vec3)
    ensures SetYToZero(SetYToZero(v)) == SetYToZero(v)
    ensures Dot(SetYToZero(v), Up) == 0.0
    ensures Add(SetYToZero(v), ParallelComponent(v, Up)) == v
  {
  }

  /** RotateAboutGlobalY, given the sine and cosine of the angle. */
  function RotateAboutGlobalY(v: Vec3, sin: real, cos: real): Vec3
  {
    Vec3(v.x * cos + v.z * sin, v.y, v.z * cos - v.x * sin)
  }

  /** A rotation about Y keeps Y, keeps the length when sin² + cos² = 1, and is
      undone by the rotation through the opposite angle. */
  lemma RotationProperties(v: Vec3, sin: real, cos: real)
    requires sin * sin + cos * cos == 1.0
    ensures RotateAboutGlobalY(v, sin, cos).y == v.y
    ensures LengthSquared(RotateAboutGlobalY(v, sin, cos)) == LengthSquared(v)
    ensures RotateAboutGlobalY(RotateAboutGlobalY(v, sin, cos), -sin, cos) == v
  {
    var r := RotateAboutGlobalY(v, sin, cos);
    calc {
      r.x * r.x + r.z * r.z;
      (v.x * cos + v.z * sin) * (v.x * cos + v.z * sin) + (v.z * cos - v.x * sin) * (v.z * cos - v.x * sin);
      v.x * v.x * (cos * cos + sin * sin) + v.z * v.z * (cos * cos + sin * sin);
      v.x * v.x + v.z * v.z;
    }
    var b := RotateAboutGlobalY(r, -sin, cos);
    calc {
      b.x;
      r.x * cos - r.z * sin;
      (v.x * cos + v.z * sin) * cos - (v.z * cos - v.x * sin) * sin;
      v.x * (cos * cos + sin * sin);
      v.x;
    }
    calc {
      b.z;
      r.z * cos + r.x * sin;
      (v.z * cos - v.x * sin) * cos + (v.x * cos + v.z * sin) * sin;
      v.z * (cos * cos + sin * sin);
      v.z;
    }
  }

  /** The caching variant of RotateAboutGlobalY: the cached sine and cosine are
      filled from the angle's only while both are still 0, then reused. */
  function RotateAboutGlobalYCached(v: Vec3, angleSin: real, angleCos: real, sin: real, cos: real)
    : (r: (Vec3, real, real))
    ensures sin == 0.0 && cos == 0.0 ==> r.1 == angleSin && r.2 == angleCos
    ensures !(sin == 0.0 && cos == 0.0) ==> r.1 == sin && r.2 == cos
    ensures r.0 == RotateAboutGlobalY(v, r.1, r.2)
  {
    if sin == 0.0 && cos == 0.0 then (RotateAboutGlobalY(v, angleSin, angleCos), angleSin, angleCos)
    else (RotateAboutGlobalY(v, sin, cos), sin, cos)
  }

  // ---------------------------------------------------------------- perpendiculars

  /** FindPerpendicularIn3d as written: the axis is chosen by comparing the
      SIGNED projections of the direction onto i, j and k. */
  function FindPerpendicularIn3dAsWritten(direction: Vec3): Vec3
  {
    var id, jd, kd := direction.x, direction.y, direction.z;
    var quasiPerp :=
      if id <= jd && id <= kd then UnitX
      else if jd <= id && jd <= kd then Up
      else UnitZ;
    Cross(direction, quasiPerp)
  }

  /** The result as written is perpendicular to the direction... */
  lemma AsWrittenIsPerpendicular(direction: Vec3)
    ensures Dot(FindPerpendicularIn3dAsWritten(direction), direction) == 0.0
  {
    var q :=
      if direction.x <= direction.y && direction.x <= direction.z then UnitX
      else if direction.y <= direction.x && direction.y <= direction.z then Up
      else UnitZ;
    CrossOrthogonal(direction, q);
  }

  /** ...but for the non-zero direction -X it is the zero vector: the signed
      test picks the axis i, which is parallel to -X. */
  lemma AsWrittenLosesNegativeX()
    ensures FindPerpendicularIn3dAsWritten(Vec3(-1.0, 0.0, 0.0)) == Zero
  {
  }

  function Abs(a: real): (r: real)
    ensures r >= 0.0 && (r == a || r == -a)
  {
    if a < 0.0 then -a else a
  }

  /** FindPerpendicularIn3d with the axis that is least parallel to the
      direction, i.e. with the smallest ABSOLUTE projection. */
  function FindPerpendicularIn3d(direction: Vec3): (r: Vec3)
    ensures Dot(r, direction) == 0.0
    ensures direction != Zero ==> r != Zero
  {
    var id, jd, kd := Abs(direction.x), Abs(direction.y), Abs(direction.z);
    var quasiPerp :=
      if id <= jd && id <= kd then UnitX
      else if jd <= id && jd <= kd then Up
      else UnitZ;
    CrossOrthogonal(direction, quasiPerp);
    LeastParallelAxis(direction, quasiPerp);
    Cross(direction, quasiPerp)
  }

  lemma LeastParallelAxis(d: Vec3, q: Vec3)
    requires q == (if Abs(d.x) <= Abs(d.y) && Abs(d.x) <= Abs(d.z) then UnitX
                   else if Abs(d.y) <= Abs(d.x) && Abs(d.y) <= Abs(d.z) then Up
                   else UnitZ)
    ensures d != Zero ==> Cross(d, q) != Zero
  {
    if q == UnitX {
      assert Cross(d, q) == Vec3(0.0, d.z, -d.y);
    } else if q == Up {
      assert Cross(d, q) == Vec3(-d.z, 0.0, d.x);
    } else {
      assert Cross(d, q) == Vec3(d.y, -d.x, 0.0);
    }
  }
}
