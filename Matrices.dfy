/** 4x4 matrices stored as sixteen named entries, row by row, with the
    transforms built from them. Single-precision floats are idealised as
    `real`; sine and cosine are kept abstract (see `Angle`). */
module Matrices {
  import opened Wrappers
  import opened Vectors

  datatype Matrix4 = Matrix4(
    m11: real, m12: real, m13: real, m14: real,
    m21: real, m22: real, m23: real, m24: real,
    m31: real, m32: real, m33: real, m34: real,
    m41: real, m42: real, m43: real, m44: real)

  /** An angle, known only through the cosine and sine the program computes
      for it; no law of trigonometry is assumed beyond what a lemma requires. */
  datatype Angle = Angle(cos: real, sin: real)

  const ZeroAngle := Angle(1.0, 0.0)

  predicate IsUnit(r: Angle)
  {
    r.cos * r.cos + r.sin * r.sin == 1.0
  }

  /** Entry (i, j), counting rows and columns from 0. */
  function Entry(m: Matrix4, i: nat, j: nat): real
    requires i < 4 && j < 4
  {
    if i == 0 then (if j == 0 then m.m11 else if j == 1 then m.m12 else if j == 2 then m.m13 else m.m14)
    else if i == 1 then (if j == 0 then m.m21 else if j == 1 then m.m22 else if j == 2 then m.m23 else m.m24)
    else if i == 2 then (if j == 0 then m.m31 else if j == 1 then m.m32 else if j == 2 then m.m33 else m.m34)
    else (if j == 0 then m.m41 else if j == 1 then m.m42 else if j == 2 then m.m43 else m.m44)
  }

  /** `AsRef<[f32]>`: the sixteen entries in field order, which is row-major. */
  function Flatten(m: Matrix4): (s: seq<real>)
    ensures |s| == 16
  {
    [m.m11, m.m12, m.m13, m.m14,
     m.m21, m.m22, m.m23, m.m24,
     m.m31, m.m32, m.m33, m.m34,
     m.m41, m.m42, m.m43, m.m44]
  }

  /** `PartialEq`: the flattened entries compared in order. */
  predicate Equals(a: Matrix4, b: Matrix4)
  {
    Flatten(a) == Flatten(b)
  }

  function Mul(a: Matrix4, b: Matrix4): Matrix4
  {
    Matrix4(
      a.m11*b.m11 + a.m12*b.m21 + a.m13*b.m31 + a.m14*b.m41,
      a.m11*b.m12 + a.m12*b.m22 + a.m13*b.m32 + a.m14*b.m42,
      a.m11*b.m13 + a.m12*b.m23 + a.m13*b.m33 + a.m14*b.m43,
      a.m11*b.m14 + a.m12*b.m24 + a.m13*b.m34 + a.m14*b.m44,
      a.m21*b.m11 + a.m22*b.m21 + a.m23*b.m31 + a.m24*b.m41,
      a.m21*b.m12 + a.m22*b.m22 + a.m23*b.m32 + a.m24*b.m42,
      a.m21*b.m13 + a.m22*b.m23 + a.m23*b.m33 + a.m24*b.m43,
      a.m21*b.m14 + a.m22*b.m24 + a.m23*b.m34 + a.m24*b.m44,
      a.m31*b.m11 + a.m32*b.m21 + a.m33*b.m31 + a.m34*b.m41,
      a.m31*b.m12 + a.m32*b.m22 + a.m33*b.m32 + a.m34*b.m42,
      a.m31*b.m13 + a.m32*b.m23 + a.m33*b.m33 + a.m34*b.m43,
      a.m31*b.m14 + a.m32*b.m24 + a.m33*b.m34 + a.m34*b.m44,
      a.m41*b.m11 + a.m42*b.m21 + a.m43*b.m31 + a.m44*b.m41,
      a.m41*b.m12 + a.m42*b.m22 + a.m43*b.m32 + a.m44*b.m42,
      a.m41*b.m13 + a.m42*b.m23 + a.m43*b.m33 + a.m44*b.m43,
      a.m41*b.m14 + a.m42*b.m24 + a.m43*b.m34 + a.m44*b.m44)
  }

  /** The homogeneous w of the point (x, y, z, 1) after transformation. */
  function Divisor(m: Matrix4, v: Vector3): real
  {
    m.m41*v.x + m.m42*v.y + m.m43*v.z + m.m44
  }

  /** The first three rows applied to the point (x, y, z, 1). */
  function Projected(m: Matrix4, v: Vector3): Vector3
  {
    Vector3(
      m.m11*v.x + m.m12*v.y + m.m13*v.z + m.m14,
      m.m21*v.x + m.m22*v.y + m.m23*v.z + m.m24,
      m.m31*v.x + m.m32*v.y + m.m33*v.z + m.m34)
  }

  /** `Mul<Vector3> for Matrix4`: the point (x, y, z, 1) transformed and
      each of x, y, z multiplied by 1 / w. Where w is zero the program gets
      an infinite or NaN vector; the model says `None`. */
  function Transform(m: Matrix4, v: Vector3): (r: Option<Vector3>)
    ensures r.Some? <==> Divisor(m, v) != 0.0
    ensures r.Some? ==> Scale(r.value, Divisor(m, v)) == Projected(m, v)
  {
    var d := Divisor(m, v);
    if d == 0.0 then None else Some(Scale(Projected(m, v), 1.0 / d))
  }

  function Transpose(m: Matrix4): Matrix4
  {
    Matrix4(
      m.m11, m.m21, m.m31, m.m41,
      m.m12, m.m22, m.m32, m.m42,
      m.m13, m.m23, m.m33, m.m43,
      m.m14, m.m24, m.m34, m.m44)
  }

  function Ident(): Matrix4
  {
    Matrix4(
      1.0, 0.0, 0.0, 0.0,
      0.0, 1.0, 0.0, 0.0,
      0.0, 0.0, 1.0, 0.0,
      0.0, 0.0, 0.0, 1.0)
  }

  function Scaling(x: real, y: real, z: real): Matrix4
  {
    Matrix4(
      x, 0.0, 0.0, 0.0,
      0.0, y, 0.0, 0.0,
      0.0, 0.0, z, 0.0,
      0.0, 0.0, 0.0, 1.0)
  }

  /** Rotation about the x axis. */
  function PitchRotation(r: Angle): Matrix4
  {
    Matrix4(
      1.0, 0.0, 0.0, 0.0,
      0.0, r.cos, -r.sin, 0.0,
      0.0, r.sin, r.cos, 0.0,
      0.0, 0.0, 0.0, 1.0)
  }

  /** Rotation about the y axis. */
  function YawRotation(r: Angle): Matrix4
  {
    Matrix4(
      r.cos, 0.0, r.sin, 0.0,
      0.0, 1.0, 0.0, 0.0,
      -r.sin, 0.0, r.cos, 0.0,
      0.0, 0.0, 0.0, 1.0)
  }

  /** Rotation about the z axis. */
  function RollRotation(r: Angle): Matrix4
  {
    Matrix4(
      r.cos, -r.sin, 0.0, 0.0,
      r.sin, r.cos, 0.0, 0.0,
      0.0, 0.0, 1.0, 0.0,
      0.0, 0.0, 0.0, 1.0)
  }

  function Rotation(pitch: Angle, yaw: Angle, roll: Angle): Matrix4
  {
    Mul(Mul(RollRotation(roll), YawRotation(yaw)), PitchRotation(pitch))
  }

  function Translation(x: real, y: real, z: real): Matrix4
  {
    Matrix4(
      1.0, 0.0, 0.0, x,
      0.0, 1.0, 0.0, y,
      0.0, 0.0, 1.0, z,
      0.0, 0.0, 0.0, 1.0)
  }

  /** A matrix whose bottom row is (0, 0, 0, 1): its homogeneous divisor is
      always 1. */
  predicate IsAffine(m: Matrix4)
  {
    m.m41 == 0.0 && m.m42 == 0.0 && m.m43 == 0.0 && m.m44 == 1.0
  }

  // Layout.

  lemma FlattenIsRowMajor(m: Matrix4)
    ensures forall i, j | 0 <= i < 4 && 0 <= j < 4 :: Flatten(m)[4 * i + j] == Entry(m, i, j)
  {
  }

  /** Equality compares every entry, so it is exactly equality of matrices. */
  lemma EqualsIsEquality(a: Matrix4, b: Matrix4)
    ensures Equals(a, b) <==> a == b
  {
  }

  // Transpose.

  lemma TransposeEntry(m: Matrix4)
    ensures forall i, j | 0 <= i < 4 && 0 <= j < 4 :: Entry(Transpose(m), i, j) == Entry(m, j, i)
  {
  }

  lemma TransposeInvolutive(m: Matrix4)
    ensures Transpose(Transpose(m)) == m
  {
  }

  lemma TransposeIdent()
    ensures Transpose(Ident()) == Ident()
  {
  }

  // Products.

  /** Row i of a matrix, counting from 0. */
  function RowOf(m: Matrix4, i: nat): Vector4
    requires i < 4
  {
    if i == 0 then Vector4(m.m11, m.m12, m.m13, m.m14)
    else if i == 1 then Vector4(m.m21, m.m22, m.m23, m.m24)
    else if i == 2 then Vector4(m.m31, m.m32, m.m33, m.m34)
    else Vector4(m.m41, m.m42, m.m43, m.m44)
  }

  /** Column j of a matrix, counting from 0. */
  function ColumnOf(m: Matrix4, j: nat): Vector4
    requires j < 4
  {
    if j == 0 then Vector4(m.m11, m.m21, m.m31, m.m41)
    else if j == 1 then Vector4(m.m12, m.m22, m.m32, m.m42)
    else if j == 2 then Vector4(m.m13, m.m23, m.m33, m.m43)
    else Vector4(m.m14, m.m24, m.m34, m.m44)
  }

  /** Row i of `a` times column j of `b`: the sum over k of a[i][k] * b[k][j]. */
  function RowTimesColumn(a: Matrix4, b: Matrix4, i: nat, j: nat): real
    requires i < 4 && j < 4
  {
    var r, c := RowOf(a, i), ColumnOf(b, j);
    r.x * c.x + r.y * c.y + r.z * c.z + r.w * c.w
  }

  /** Rows and columns read the entries in order. */
  lemma RowsAndColumnsAreEntries(m: Matrix4)
    ensures forall i | 0 <= i < 4 :: RowOf(m, i) == Vector4(Entry(m, i, 0), Entry(m, i, 1), Entry(m, i, 2), Entry(m, i, 3))
    ensures forall j | 0 <= j < 4 :: ColumnOf(m, j) == Vector4(Entry(m, 0, j), Entry(m, 1, j), Entry(m, 2, j), Entry(m, 3, j))
  {
  }

  /** Entry (i, j) of a product is row i of the left factor times column j
      of the right one, for each of the sixteen positions. */
  lemma MulIsRowTimesColumn(a: Matrix4, b: Matrix4)
    ensures Mul(a, b) == Matrix4(
      RowTimesColumn(a, b, 0, 0), RowTimesColumn(a, b, 0, 1), RowTimesColumn(a, b, 0, 2), RowTimesColumn(a, b, 0, 3),
      RowTimesColumn(a, b, 1, 0), RowTimesColumn(a, b, 1, 1), RowTimesColumn(a, b, 1, 2), RowTimesColumn(a, b, 1, 3),
      RowTimesColumn(a, b, 2, 0), RowTimesColumn(a, b, 2, 1), RowTimesColumn(a, b, 2, 2), RowTimesColumn(a, b, 2, 3),
      RowTimesColumn(a, b, 3, 0), RowTimesColumn(a, b, 3, 1), RowTimesColumn(a, b, 3, 2), RowTimesColumn(a, b, 3, 3))
  {
  }

  lemma IdentIsUnit(m: Matrix4)
    ensures Mul(Ident(), m) == m
    ensures Mul(m, Ident()) == m
  {
  }

  lemma IdentFixesPoints(v: Vector3)
    ensures Transform(Ident(), v) == Some(v)
  {
    AffineNeverDivides(Ident(), v);
  }

  lemma AffineNeverDivides(m: Matrix4, v: Vector3)
    requires IsAffine(m)
    ensures Transform(m, v) == Some(Projected(m, v))
  {
    assert Divisor(m, v) == 1.0;
    assert Scale(Projected(m, v), 1.0 / 1.0) == Projected(m, v);
  }

  lemma AffineClosedUnderMul(a: Matrix4, b: Matrix4)
    requires IsAffine(a) && IsAffine(b)
    ensures IsAffine(Mul(a, b))
  {
  }

  /** One row (a0, a1, a2, a3) of a product with an affine right factor b,
      applied to a point, is that row applied to b's image of the point. */
  lemma RowOfProduct(a0: real, a1: real, a2: real, a3: real, b: Matrix4, v: Vector3)
    requires IsAffine(b)
    ensures (a0*b.m11 + a1*b.m21 + a2*b.m31 + a3*b.m41) * v.x
          + (a0*b.m12 + a1*b.m22 + a2*b.m32 + a3*b.m42) * v.y
          + (a0*b.m13 + a1*b.m23 + a2*b.m33 + a3*b.m43) * v.z
          + (a0*b.m14 + a1*b.m24 + a2*b.m34 + a3*b.m44)
         == a0 * Projected(b, v).x + a1 * Projected(b, v).y + a2 * Projected(b, v).z + a3
  {
    var u := Projected(b, v);
    assert (a0*b.m11 + a1*b.m21 + a2*b.m31 + a3*b.m41) * v.x == a0*b.m11*v.x + a1*b.m21*v.x + a2*b.m31*v.x;
    assert (a0*b.m12 + a1*b.m22 + a2*b.m32 + a3*b.m42) * v.y == a0*b.m12*v.y + a1*b.m22*v.y + a2*b.m32*v.y;
    assert (a0*b.m13 + a1*b.m23 + a2*b.m33 + a3*b.m43) * v.z == a0*b.m13*v.z + a1*b.m23*v.z + a2*b.m33*v.z;
    assert a0 * u.x == a0*b.m11*v.x + a0*b.m12*v.y + a0*b.m13*v.z + a0*b.m14;
    assert a1 * u.y == a1*b.m21*v.x + a1*b.m22*v.y + a1*b.m23*v.z + a1*b.m24;
    assert a2 * u.z == a2*b.m31*v.x + a2*b.m32*v.y + a2*b.m33*v.z + a2*b.m34;
  }

  lemma ProjectedOfProduct(a: Matrix4, b: Matrix4, v: Vector3)
    requires IsAffine(b)
    ensures Projected(Mul(a, b), v) == Projected(a, Projected(b, v))
  {
    ProductRowX(a, b, v);
    ProductRowY(a, b, v);
    ProductRowZ(a, b, v);
  }

  lemma ProductRowX(a: Matrix4, b: Matrix4, v: Vector3)
    requires IsAffine(b)
    ensures Projected(Mul(a, b), v).x == Projected(a, Projected(b, v)).x
  {
    RowOfProduct(a.m11, a.m12, a.m13, a.m14, b, v);
  }

  lemma ProductRowY(a: Matrix4, b: Matrix4, v: Vector3)
    requires IsAffine(b)
    ensures Projected(Mul(a, b), v).y == Projected(a, Projected(b, v)).y
  {
    RowOfProduct(a.m21, a.m22, a.m23, a.m24, b, v);
  }

  lemma ProductRowZ(a: Matrix4, b: Matrix4, v: Vector3)
    requires IsAffine(b)
    ensures Projected(Mul(a, b), v).z == Projected(a, Projected(b, v)).z
  {
    RowOfProduct(a.m31, a.m32, a.m33, a.m34, b, v);
  }

  /** For affine matrices, transforming by a product applies the right
      factor first. */
  lemma TransformOfProduct(a: Matrix4, b: Matrix4, v: Vector3)
    requires IsAffine(a) && IsAffine(b)
    ensures Transform(b, v).Some? && Transform(Mul(a, b), v) == Transform(a, Transform(b, v).value)
  {
    AffineNeverDivides(b, v);
    AffineClosedUnderMul(a, b);
    AffineNeverDivides(Mul(a, b), v);
    AffineNeverDivides(a, Projected(b, v));
    ProjectedOfProduct(a, b, v);
  }

  // The named constructors.

  lemma ScalingLayout(x: real, y: real, z: real)
    ensures forall i, j | 0 <= i < 4 && 0 <= j < 4 && i != j :: Entry(Scaling(x, y, z), i, j) == 0.0
    ensures Entry(Scaling(x, y, z), 0, 0) == x && Entry(Scaling(x, y, z), 1, 1) == y
    ensures Entry(Scaling(x, y, z), 2, 2) == z && Entry(Scaling(x, y, z), 3, 3) == 1.0
    ensures Scaling(12.0, 34.0, 56.0) == Matrix4(
      12.0, 0.0, 0.0, 0.0,
      0.0, 34.0, 0.0, 0.0,
      0.0, 0.0, 56.0, 0.0,
      0.0, 0.0, 0.0, 1.0)
  {
  }

  lemma ScalingTransform(sx: real, sy: real, sz: real, v: Vector3)
    ensures Transform(Scaling(sx, sy, sz), v) == Some(Vector3(sx * v.x, sy * v.y, sz * v.z))
    ensures Transform(Scaling(sx, sy, sz), Vector3(1.0, 1.0, 1.0)) == Some(Vector3(sx, sy, sz))
    ensures Transform(Scaling(sx, sy, sz), Zero) == Some(Zero)
  {
    AffineNeverDivides(Scaling(sx, sy, sz), v);
    assert Projected(Scaling(sx, sy, sz), v) == Vector3(sx * v.x, sy * v.y, sz * v.z);
    AffineNeverDivides(Scaling(sx, sy, sz), Vector3(1.0, 1.0, 1.0));
    AffineNeverDivides(Scaling(sx, sy, sz), Zero);
  }

  lemma TranslationLayout(x: real, y: real, z: real)
    ensures forall i, j | 0 <= i < 4 && 0 <= j < 4 && !(j == 3 && i < 3) ::
      Entry(Translation(x, y, z), i, j) == Entry(Ident(), i, j)
    ensures Entry(Translation(x, y, z), 0, 3) == x
    ensures Entry(Translation(x, y, z), 1, 3) == y
    ensures Entry(Translation(x, y, z), 2, 3) == z
  {
  }

  lemma TranslationTransform(t: Vector3, p: Vector3)
    ensures Transform(Translation(t.x, t.y, t.z), p) == Some(Add(p, t))
  {
    AffineNeverDivides(Translation(t.x, t.y, t.z), p);
  }

  /** A rotation by the zero angle is the identity. */
  lemma ZeroRotations()
    ensures PitchRotation(ZeroAngle) == Ident()
    ensures YawRotation(ZeroAngle) == Ident()
    ensures RollRotation(ZeroAngle) == Ident()
    ensures Rotation(ZeroAngle, ZeroAngle, ZeroAngle) == Ident()
  {
    // The three axis facts are the steps the composed one is rewritten by.
    assert PitchRotation(ZeroAngle) == Ident();
    assert YawRotation(ZeroAngle) == Ident();
    assert RollRotation(ZeroAngle) == Ident();
    IdentIsUnit(Ident());
  }

  /** Each axis rotation leaves its own axis where it is. */
  lemma RotationsFixTheirAxes(r: Angle)
    ensures Transform(PitchRotation(r), Vector3(1.0, 0.0, 0.0)) == Some(Vector3(1.0, 0.0, 0.0))
    ensures Transform(YawRotation(r), Vector3(0.0, 1.0, 0.0)) == Some(Vector3(0.0, 1.0, 0.0))
    ensures Transform(RollRotation(r), Vector3(0.0, 0.0, 1.0)) == Some(Vector3(0.0, 0.0, 1.0))
  {
    AffineNeverDivides(PitchRotation(r), Vector3(1.0, 0.0, 0.0));
    AffineNeverDivides(YawRotation(r), Vector3(0.0, 1.0, 0.0));
    AffineNeverDivides(RollRotation(r), Vector3(0.0, 0.0, 1.0));
  }

  /** For a unit angle, each axis rotation is orthogonal: its transpose is
      its inverse. */
  lemma RotationsOrthogonal(r: Angle)
    requires IsUnit(r)
    ensures Mul(PitchRotation(r), Transpose(PitchRotation(r))) == Ident()
    ensures Mul(YawRotation(r), Transpose(YawRotation(r))) == Ident()
    ensures Mul(RollRotation(r), Transpose(RollRotation(r))) == Ident()
  {
  }

  /** `rotation(pitch, yaw, roll)` applies pitch first, then yaw, then roll. */
  lemma RotationOrder(pitch: Angle, yaw: Angle, roll: Angle, v: Vector3)
    ensures Transform(PitchRotation(pitch), v).Some?
    ensures Transform(YawRotation(yaw), Transform(PitchRotation(pitch), v).value).Some?
    ensures Transform(Rotation(pitch, yaw, roll), v) ==
      Transform(RollRotation(roll), Transform(YawRotation(yaw), Transform(PitchRotation(pitch), v).value).value)
  {
    var ry := Mul(RollRotation(roll), YawRotation(yaw));
    AffineClosedUnderMul(RollRotation(roll), YawRotation(yaw));
    TransformOfProduct(ry, PitchRotation(pitch), v);
    TransformOfProduct(RollRotation(roll), YawRotation(yaw), Transform(PitchRotation(pitch), v).value);
  }
}
