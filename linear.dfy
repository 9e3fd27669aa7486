/** Exact vector and matrix arithmetic over the reals, laid out as glm lays it
    out: a 4x4 matrix is four COLUMNS, and a matrix acts on a column vector. */
module Linear {

  datatype Vec3 = Vec3(x: real, y: real, z: real)

  datatype Vec4 = Vec4(x: real, y: real, z: real, w: real)

  /** Column-major, like glm::mat4: c0 is the first column. */
  datatype Mat4 = Mat4(c0: Vec4, c1: Vec4, c2: Vec4, c3: Vec4)

  const Zero3: Vec3 := Vec3(0.0, 0.0, 0.0)
  const Origin: Vec4 := Vec4(0.0, 0.0, 0.0, 1.0)

  function Add3(a: Vec3, b: Vec3): Vec3 { Vec3(a.x + b.x, a.y + b.y, a.z + b.z) }
  function Sub3(a: Vec3, b: Vec3): Vec3 { Vec3(a.x - b.x, a.y - b.y, a.z - b.z) }
  function Scale3(a: Vec3, s: real): Vec3 { Vec3(a.x * s, a.y * s, a.z * s) }
  function Neg3(a: Vec3): Vec3 { Vec3(-a.x, -a.y, -a.z) }
  function Dot3(a: Vec3, b: Vec3): real { a.x * b.x + a.y * b.y + a.z * b.z }

  function Cross(a: Vec3, b: Vec3): Vec3 {
    Vec3(a.y * b.z - a.z * b.y, a.z * b.x - a.x * b.z, a.x * b.y - a.y * b.x)
  }

  function Add4(a: Vec4, b: Vec4): Vec4 { Vec4(a.x + b.x, a.y + b.y, a.z + b.z, a.w + b.w) }
  function Scale4(a: Vec4, s: real): Vec4 { Vec4(a.x * s, a.y * s, a.z * s, a.w * s) }

  /** glm::vec4(v, 1.0f) */
  function Point(v: Vec3): Vec4 { Vec4(v.x, v.y, v.z, 1.0) }

  /** glm::vec3(v4): drops w. */
  function Xyz(v: Vec4): Vec3 { Vec3(v.x, v.y, v.z) }

  /** M * v: the columns weighted by the components of v. */
  function Apply(m: Mat4, v: Vec4): Vec4 {
    Vec4(m.c0.x * v.x + m.c1.x * v.y + m.c2.x * v.z + m.c3.x * v.w,
         m.c0.y * v.x + m.c1.y * v.y + m.c2.y * v.z + m.c3.y * v.w,
         m.c0.z * v.x + m.c1.z * v.y + m.c2.z * v.z + m.c3.z * v.w,
         m.c0.w * v.x + m.c1.w * v.y + m.c2.w * v.z + m.c3.w * v.w)
  }

  /** A * B: column j of the product is A applied to column j of B. */
  function Mul(a: Mat4, b: Mat4): Mat4 {
    Mat4(Apply(a, b.c0), Apply(a, b.c1), Apply(a, b.c2), Apply(a, b.c3))
  }

  const Identity: Mat4 :=
    Mat4(Vec4(1.0, 0.0, 0.0, 0.0), Vec4(0.0, 1.0, 0.0, 0.0),
         Vec4(0.0, 0.0, 1.0, 0.0), Vec4(0.0, 0.0, 0.0, 1.0))

  /** glm::translate(glm::mat4(1.0f), t) */
  function Translation(t: Vec3): Mat4 {
    Mat4(Vec4(1.0, 0.0, 0.0, 0.0), Vec4(0.0, 1.0, 0.0, 0.0),
         Vec4(0.0, 0.0, 1.0, 0.0), Vec4(t.x, t.y, t.z, 1.0))
  }

  /** glm::scale(glm::mat4(1.0f), s) */
  function Scaling(s: Vec3): Mat4 {
    Mat4(Vec4(s.x, 0.0, 0.0, 0.0), Vec4(0.0, s.y, 0.0, 0.0),
         Vec4(0.0, 0.0, s.z, 0.0), Vec4(0.0, 0.0, 0.0, 1.0))
  }

  lemma ApplyIdentity(v: Vec4)
    ensures Apply(Identity, v) == v
  {
    var r := Apply(Identity, v);
    assert r.x == v.x && r.y == v.y && r.z == v.z && r.w == v.w;
  }

  /** A matrix applied to a unit basis vector yields the matching column. */
  lemma ApplyBasis(a: Mat4)
    ensures Apply(a, Identity.c0) == a.c0 && Apply(a, Identity.c1) == a.c1
    ensures Apply(a, Identity.c2) == a.c2 && Apply(a, Identity.c3) == a.c3
  {
    var r0, r1, r2, r3 := Apply(a, Identity.c0), Apply(a, Identity.c1), Apply(a, Identity.c2), Apply(a, Identity.c3);
    assert r0.x == a.c0.x && r0.y == a.c0.y && r0.z == a.c0.z && r0.w == a.c0.w;
    assert r1.x == a.c1.x && r1.y == a.c1.y && r1.z == a.c1.z && r1.w == a.c1.w;
    assert r2.x == a.c2.x && r2.y == a.c2.y && r2.z == a.c2.z && r2.w == a.c2.w;
    assert r3.x == a.c3.x && r3.y == a.c3.y && r3.z == a.c3.z && r3.w == a.c3.w;
  }

  lemma MulIdentity(a: Mat4)
    ensures Mul(Identity, a) == a && Mul(a, Identity) == a
  {
    ApplyIdentity(a.c0); ApplyIdentity(a.c1); ApplyIdentity(a.c2); ApplyIdentity(a.c3);
    ApplyBasis(a);
  }

  /** The distributive law behind ApplyMul, for one row r of the left factor:
      (r * B) * v == r * (B * v), where p is r * B and q is B * v. */
  lemma RowTimesColumns(r: Vec4, b: Mat4, v: Vec4, p: Vec4, q: Vec4)
    requires p.x == r.x * b.c0.x + r.y * b.c0.y + r.z * b.c0.z + r.w * b.c0.w
    requires p.y == r.x * b.c1.x + r.y * b.c1.y + r.z * b.c1.z + r.w * b.c1.w
    requires p.z == r.x * b.c2.x + r.y * b.c2.y + r.z * b.c2.z + r.w * b.c2.w
    requires p.w == r.x * b.c3.x + r.y * b.c3.y + r.z * b.c3.z + r.w * b.c3.w
    requires q == Apply(b, v)
    ensures p.x * v.x + p.y * v.y + p.z * v.z + p.w * v.w == r.x * q.x + r.y * q.y + r.z * q.z + r.w * q.w
  {
    // Both sides are the sum of r_i * b.cj_i * v_j; distribute each product.
    assert p.x * v.x == r.x * (b.c0.x * v.x) + r.y * (b.c0.y * v.x) + r.z * (b.c0.z * v.x) + r.w * (b.c0.w * v.x);
    assert p.y * v.y == r.x * (b.c1.x * v.y) + r.y * (b.c1.y * v.y) + r.z * (b.c1.z * v.y) + r.w * (b.c1.w * v.y);
    assert p.z * v.z == r.x * (b.c2.x * v.z) + r.y * (b.c2.y * v.z) + r.z * (b.c2.z * v.z) + r.w * (b.c2.w * v.z);
    assert p.w * v.w == r.x * (b.c3.x * v.w) + r.y * (b.c3.y * v.w) + r.z * (b.c3.z * v.w) + r.w * (b.c3.w * v.w);
    assert r.x * q.x == r.x * (b.c0.x * v.x) + r.x * (b.c1.x * v.y) + r.x * (b.c2.x * v.z) + r.x * (b.c3.x * v.w);
    assert r.y * q.y == r.y * (b.c0.y * v.x) + r.y * (b.c1.y * v.y) + r.y * (b.c2.y * v.z) + r.y * (b.c3.y * v.w);
    assert r.z * q.z == r.z * (b.c0.z * v.x) + r.z * (b.c1.z * v.y) + r.z * (b.c2.z * v.z) + r.z * (b.c3.z * v.w);
    assert r.w * q.w == r.w * (b.c0.w * v.x) + r.w * (b.c1.w * v.y) + r.w * (b.c2.w * v.z) + r.w * (b.c3.w * v.w);
  }

  lemma ApplyMulX(a: Mat4, b: Mat4, v: Vec4)
    ensures Apply(Mul(a, b), v).x == Apply(a, Apply(b, v)).x
  {
    var ab := Mul(a, b);
    RowTimesColumns(Vec4(a.c0.x, a.c1.x, a.c2.x, a.c3.x), b, v,
                    Vec4(ab.c0.x, ab.c1.x, ab.c2.x, ab.c3.x), Apply(b, v));
  }

  lemma ApplyMulY(a: Mat4, b: Mat4, v: Vec4)
    ensures Apply(Mul(a, b), v).y == Apply(a, Apply(b, v)).y
  {
    var ab := Mul(a, b);
    RowTimesColumns(Vec4(a.c0.y, a.c1.y, a.c2.y, a.c3.y), b, v,
                    Vec4(ab.c0.y, ab.c1.y, ab.c2.y, ab.c3.y), Apply(b, v));
  }

  lemma ApplyMulZ(a: Mat4, b: Mat4, v: Vec4)
    ensures Apply(Mul(a, b), v).z == Apply(a, Apply(b, v)).z
  {
    var ab := Mul(a, b);
    RowTimesColumns(Vec4(a.c0.z, a.c1.z, a.c2.z, a.c3.z), b, v,
                    Vec4(ab.c0.z, ab.c1.z, ab.c2.z, ab.c3.z), Apply(b, v));
  }

  lemma ApplyMulW(a: Mat4, b: Mat4, v: Vec4)
    ensures Apply(Mul(a, b), v).w == Apply(a, Apply(b, v)).w
  {
    var ab := Mul(a, b);
    RowTimesColumns(Vec4(a.c0.w, a.c1.w, a.c2.w, a.c3.w), b, v,
                    Vec4(ab.c0.w, ab.c1.w, ab.c2.w, ab.c3.w), Apply(b, v));
  }

  /** Applying a product is applying its factors right to left. */
  lemma ApplyMul(a: Mat4, b: Mat4, v: Vec4)
    ensures Apply(Mul(a, b), v) == Apply(a, Apply(b, v))
  {
    ApplyMulX(a, b, v); ApplyMulY(a, b, v); ApplyMulZ(a, b, v); ApplyMulW(a, b, v);
  }

  /** Matrix multiplication is associative, so a product of factors does not
      depend on how it was bracketed. */
  lemma MulAssoc(a: Mat4, b: Mat4, c: Mat4)
    ensures Mul(Mul(a, b), c) == Mul(a, Mul(b, c))
  {
    ApplyMul(a, b, c.c0); ApplyMul(a, b, c.c1); ApplyMul(a, b, c.c2); ApplyMul(a, b, c.c3);
  }

  /** A translation carries the origin to the translation vector. */
  lemma TranslationOfOrigin(t: Vec3)
    ensures Apply(Translation(t), Origin) == Point(t)
  {
    ApplyBasis(Translation(t));
  }
}
