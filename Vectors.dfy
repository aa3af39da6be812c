/** Vector2/3/4 value types and the componentwise algebra on Vector3.
    Single-precision floats are idealised as `real`. */
module Vectors {

  datatype Vector2 = Vector2(x: real, y: real)
  datatype Vector3 = Vector3(x: real, y: real, z: real)
  datatype Vector4 = Vector4(x: real, y: real, z: real, w: real)

  /** Component `i` of a Vector3, counting x, y, z from 0. */
  function Component(v: Vector3, i: nat): real
    requires i < 3
  {
    if i == 0 then v.x else if i == 1 then v.y else v.z
  }

  /** Lifting a Vector3 to a homogeneous point. */
  function Vector4OfVector3(v: Vector3): (r: Vector4)
    ensures r.w == 1.0
    ensures Vector3(r.x, r.y, r.z) == v
  {
    Vector4(v.x, v.y, v.z, 1.0)
  }

  function Vector3OfTuple(t: (real, real, real)): (r: Vector3)
    ensures (r.x, r.y, r.z) == t
  {
    Vector3(t.0, t.1, t.2)
  }

  function Vector4OfTuple(t: (real, real, real, real)): (r: Vector4)
    ensures (r.x, r.y, r.z, r.w) == t
  {
    Vector4(t.0, t.1, t.2, t.3)
  }

  function Dot(a: Vector3, b: Vector3): real
  {
    a.x * b.x + a.y * b.y + a.z * b.z
  }

  function Cross(a: Vector3, b: Vector3): Vector3
  {
    Vector3(a.y * b.z - a.z * b.y, a.z * b.x - a.x * b.z, a.x * b.y - a.y * b.x)
  }

  function Add(a: Vector3, b: Vector3): Vector3
  {
    Vector3(a.x + b.x, a.y + b.y, a.z + b.z)
  }

  function Sub(a: Vector3, b: Vector3): Vector3
  {
    Vector3(a.x - b.x, a.y - b.y, a.z - b.z)
  }

  /** `Mul<f32> for Vector3`: scaling by a scalar. */
  function Scale(a: Vector3, k: real): Vector3
  {
    Vector3(a.x * k, a.y * k, a.z * k)
  }

  function Neg(a: Vector3): Vector3
  {
    Vector3(-a.x, -a.y, -a.z)
  }

  const Zero: Vector3 := Vector3(0.0, 0.0, 0.0)

  // Componentwise character of the operators.

  lemma AddComponentwise(a: Vector3, b: Vector3)
    ensures forall i :: 0 <= i < 3 ==> Component(Add(a, b), i) == Component(a, i) + Component(b, i)
  {
  }

  lemma SubComponentwise(a: Vector3, b: Vector3)
    ensures forall i :: 0 <= i < 3 ==> Component(Sub(a, b), i) == Component(a, i) - Component(b, i)
  {
  }

  lemma ScaleComponentwise(a: Vector3, k: real)
    ensures forall i :: 0 <= i < 3 ==> Component(Scale(a, k), i) == Component(a, i) * k
  {
  }

  lemma NegComponentwise(a: Vector3)
    ensures forall i :: 0 <= i < 3 ==> Component(Neg(a), i) == -Component(a, i)
  {
  }

  // How the operators relate to each other.

  lemma SubIsAddNeg(a: Vector3, b: Vector3)
    ensures Sub(a, b) == Add(a, Neg(b))
    ensures Add(Sub(a, b), b) == a
    ensures Sub(a, a) == Zero
  {
  }

  lemma NegIsScaleByMinusOne(a: Vector3)
    ensures Neg(a) == Scale(a, -1.0)
    ensures Neg(Neg(a)) == a
    ensures Add(a, Neg(a)) == Zero
  {
  }

  lemma AddCommutes(a: Vector3, b: Vector3)
    ensures Add(a, b) == Add(b, a)
    ensures Add(a, Zero) == a
  {
  }

  // Dot and cross products.

  lemma DotCommutes(a: Vector3, b: Vector3)
    ensures Dot(a, b) == Dot(b, a)
  {
  }

  /** The squared length `norm` takes the root of is never negative. */
  lemma DotSelfNonNegative(a: Vector3)
    ensures Dot(a, a) >= 0.0
  {
    SquareNonNegative(a.x);
    SquareNonNegative(a.y);
    SquareNonNegative(a.z);
  }

  lemma SquareNonNegative(r: real)
    ensures r * r >= 0.0
  {
    if r < 0.0 {
      assert r * r == (-r) * (-r);
    }
  }

  lemma CrossAntiCommutes(a: Vector3, b: Vector3)
    ensures Cross(a, b) == Neg(Cross(b, a))
    ensures Cross(a, a) == Zero
  {
  }

  /** The cross product is orthogonal to both of its operands. */
  lemma CrossOrthogonal(a: Vector3, b: Vector3)
    ensures Dot(Cross(a, b), a) == 0.0
    ensures Dot(Cross(a, b), b) == 0.0
  {
  }
}
