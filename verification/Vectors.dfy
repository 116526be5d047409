// What 4x4 matrices do to homogeneous vectors, and what their product does.
module Vectors {
  import opened DisplayListOps

  datatype Vector = Vector(x: real, y: real, z: real, w: real)

  function Dot4(a: real, b: real, c: real, d: real, x: real, y: real, z: real, w: real): real {
    a * x + b * y + c * z + d * w
  }

  function Dot(a: real, b: real, c: real, d: real, v: Vector): real {
    Dot4(a, b, c, d, v.x, v.y, v.z, v.w)
  }

  function Act(m: M44, v: Vector): Vector {
    Vector(Dot(m.m00, m.m01, m.m02, m.m03, v), Dot(m.m10, m.m11, m.m12, m.m13, v),
           Dot(m.m20, m.m21, m.m22, m.m23, v), Dot(m.m30, m.m31, m.m32, m.m33, v))
  }

  function RowTimes(a: real, b: real, c: real, d: real, m: M44): (real, real, real, real) {
    (Dot4(a, b, c, d, m.m00, m.m10, m.m20, m.m30), Dot4(a, b, c, d, m.m01, m.m11, m.m21, m.m31),
     Dot4(a, b, c, d, m.m02, m.m12, m.m22, m.m32), Dot4(a, b, c, d, m.m03, m.m13, m.m23, m.m33))
  }

  function Product(a: M44, b: M44): M44 {
    var r0, r1 := RowTimes(a.m00, a.m01, a.m02, a.m03, b), RowTimes(a.m10, a.m11, a.m12, a.m13, b);
    var r2, r3 := RowTimes(a.m20, a.m21, a.m22, a.m23, b), RowTimes(a.m30, a.m31, a.m32, a.m33, b);
    M44(r0.0, r0.1, r0.2, r0.3, r1.0, r1.1, r1.2, r1.3, r2.0, r2.1, r2.2, r2.3, r3.0, r3.1, r3.2, r3.3)
  }

  lemma ScaledDot(k: real, a: real, b: real, c: real, d: real, v: Vector)
    ensures k * Dot(a, b, c, d, v) == Dot(k * a, k * b, k * c, k * d, v)
  {
    ScaledSum(k, a * v.x, b * v.y, c * v.z, d * v.w);
    ScaledTerm(k, a, v.x);
    ScaledTerm(k, b, v.y);
    ScaledTerm(k, c, v.z);
    ScaledTerm(k, d, v.w);
  }

  lemma ScaledSum(k: real, p: real, q: real, r: real, s: real)
    ensures k * (p + q + r + s) == k * p + k * q + k * r + k * s
  {
  }

  lemma ScaledTerm(k: real, a: real, x: real)
    ensures k * (a * x) == (k * a) * x
  {
  }

  lemma SumTerm(p: real, q: real, r: real, s: real, x: real)
    ensures (p + q + r + s) * x == p * x + q * x + r * x + s * x
  {
  }

  lemma SumOfDots(p: Vector, q: Vector, r: Vector, s: Vector, v: Vector)
    ensures Dot(p.x + q.x + r.x + s.x, p.y + q.y + r.y + s.y, p.z + q.z + r.z + s.z, p.w + q.w + r.w + s.w, v)
         == Dot(p.x, p.y, p.z, p.w, v) + Dot(q.x, q.y, q.z, q.w, v) + Dot(r.x, r.y, r.z, r.w, v) + Dot(s.x, s.y, s.z, s.w, v)
  {
    SumTerm(p.x, q.x, r.x, s.x, v.x);
    SumTerm(p.y, q.y, r.y, s.y, v.y);
    SumTerm(p.z, q.z, r.z, s.z, v.z);
    SumTerm(p.w, q.w, r.w, s.w, v.w);
  }

  /** One row of a product. */
  lemma RowActs(a: real, b: real, c: real, d: real, m: M44, v: Vector, row: (real, real, real, real), u: Vector)
    requires row == RowTimes(a, b, c, d, m) && u == Act(m, v)
    ensures Dot(row.0, row.1, row.2, row.3, v) == Dot(a, b, c, d, u)
  {
    ScaledDot(a, m.m00, m.m01, m.m02, m.m03, v);
    ScaledDot(b, m.m10, m.m11, m.m12, m.m13, v);
    ScaledDot(c, m.m20, m.m21, m.m22, m.m23, v);
    ScaledDot(d, m.m30, m.m31, m.m32, m.m33, v);
    SumOfDots(Vector(a * m.m00, a * m.m01, a * m.m02, a * m.m03), Vector(b * m.m10, b * m.m11, b * m.m12, b * m.m13),
              Vector(c * m.m20, c * m.m21, c * m.m22, c * m.m23), Vector(d * m.m30, d * m.m31, d * m.m32, d * m.m33), v);
  }

  /** A product applies its right factor first and then its left one. */
  lemma ProductActs(a: M44, b: M44, v: Vector)
    ensures Act(Product(a, b), v) == Act(a, Act(b, v))
  {
    var u := Act(b, v);
    RowActs(a.m00, a.m01, a.m02, a.m03, b, v, RowTimes(a.m00, a.m01, a.m02, a.m03, b), u);
    RowActs(a.m10, a.m11, a.m12, a.m13, b, v, RowTimes(a.m10, a.m11, a.m12, a.m13, b), u);
    RowActs(a.m20, a.m21, a.m22, a.m23, b, v, RowTimes(a.m20, a.m21, a.m22, a.m23, b), u);
    RowActs(a.m30, a.m31, a.m32, a.m33, b, v, RowTimes(a.m30, a.m31, a.m32, a.m33, b), u);
  }

  lemma ProductActsThroughout(a: M44, b: M44)
    ensures forall v :: Act(Product(a, b), v) == Act(a, Act(b, v))
  {
    forall v
      ensures Act(Product(a, b), v) == Act(a, Act(b, v))
    {
      ProductActs(a, b, v);
    }
  }
}
