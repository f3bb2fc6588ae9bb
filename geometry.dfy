/**
  Rigid transforms in three dimensions, over the reals.

  This is the part of the geometry_utils library that the localizer relies on:
  a 3-vector, a 3x3 matrix (stored by rows), and a pose made of a translation
  and a rotation. `PoseUpdate` and `PoseInverse` use the standard SE(3)
  definitions: composing (R1, t1) with (R2, t2) gives (R1 R2, R1 t2 + t1), and
  the inverse of (R, t) is (R^T, -R^T t).
 */
module Geometry {

  datatype Vec3 = Vec3(x: real, y: real, z: real)

  /** A 3x3 matrix given by its three rows. */
  datatype Mat3 = Mat3(r0: Vec3, r1: Vec3, r2: Vec3)

  /** gu::Transform3: a translation and a rotation. */
  datatype Transform3 = Transform3(translation: Vec3, rotation: Mat3)

  const Zero: Vec3 := Vec3(0.0, 0.0, 0.0)

  const Identity3: Mat3 := Mat3(Vec3(1.0, 0.0, 0.0), Vec3(0.0, 1.0, 0.0), Vec3(0.0, 0.0, 1.0))

  /** The default-constructed gu::Transform3: no translation, identity rotation. */
  const Identity: Transform3 := Transform3(Zero, Identity3)

  function Add(u: Vec3, v: Vec3): Vec3 {
    Vec3(u.x + v.x, u.y + v.y, u.z + v.z)
  }

  function Neg(v: Vec3): Vec3 {
    Vec3(-v.x, -v.y, -v.z)
  }

  function Dot(u: Vec3, v: Vec3): real {
    u.x * v.x + u.y * v.y + u.z * v.z
  }

  /** The square of the Euclidean norm; `Norm()` is its square root. */
  function NormSq(v: Vec3): (r: real)
    ensures r >= 0.0
  {
    SquareNonNegative(v.x);
    SquareNonNegative(v.y);
    SquareNonNegative(v.z);
    v.x * v.x + v.y * v.y + v.z * v.z
  }

  lemma SquareNonNegative(a: real)
    ensures a * a >= 0.0
  {
    if a > 0.0 {
      ProductPositive(a, a);
    } else if a < 0.0 {
      ProductOfNegatives(a, a);
    }
  }

  lemma ProductPositive(a: real, b: real)
    requires a > 0.0 && b > 0.0
    ensures a * b > 0.0
  {
  }

  lemma ProductOfNegatives(a: real, b: real)
    requires a < 0.0 && b < 0.0
    ensures a * b > 0.0
  {
  }

  lemma ProductNonNegative(a: real, b: real)
    requires a >= 0.0 && b >= 0.0
    ensures a * b >= 0.0
  {
  }

  /** ||v|| <= m, stated without a square root. */
  predicate NormAtMost(v: Vec3, m: real) {
    0.0 <= m && NormSq(v) <= m * m
  }

  /** The zero vector is within every non-negative bound. */
  lemma ZeroNormAtMost(m: real)
    requires 0.0 <= m
    ensures NormAtMost(Zero, m)
  {
    ProductNonNegative(m, m);
  }

  /** NormAtMost agrees with comparing the actual (non-negative) square root of NormSq. */
  lemma NormAtMostIsNormComparison(v: Vec3, n: real, m: real)
    requires n >= 0.0 && n * n == NormSq(v)
    ensures NormAtMost(v, m) <==> n <= m
  {
    if 0.0 <= m {
      SquaresOrdered(n, m);
    }
  }

  /** For non-negative reals, comparing squares is comparing the numbers. */
  lemma SquaresOrdered(n: real, m: real)
    requires n >= 0.0 && m >= 0.0
    ensures n <= m <==> n * n <= m * m
  {
    // m * m - n * n == (m - n) * (m + n)
    assert m * m - n * n == (m - n) * (m + n);
    if n < m {
      ProductPositive(m - n, m + n);
    } else if m < n {
      ProductPositive(n - m, n + m);
    }
  }

  function Col0(m: Mat3): Vec3 { Vec3(m.r0.x, m.r1.x, m.r2.x) }
  function Col1(m: Mat3): Vec3 { Vec3(m.r0.y, m.r1.y, m.r2.y) }
  function Col2(m: Mat3): Vec3 { Vec3(m.r0.z, m.r1.z, m.r2.z) }

  function Transpose(m: Mat3): Mat3 {
    Mat3(Col0(m), Col1(m), Col2(m))
  }

  function MatVec(m: Mat3, v: Vec3): Vec3 {
    Vec3(Dot(m.r0, v), Dot(m.r1, v), Dot(m.r2, v))
  }

  /** Row `u` times the matrix `b`. */
  function RowTimes(u: Vec3, b: Mat3): Vec3 {
    Vec3(Dot(u, Col0(b)), Dot(u, Col1(b)), Dot(u, Col2(b)))
  }

  function MatMul(a: Mat3, b: Mat3): Mat3 {
    Mat3(RowTimes(a.r0, b), RowTimes(a.r1, b), RowTimes(a.r2, b))
  }

  /** An orthonormal matrix: its transpose is its inverse on both sides. */
  predicate IsOrthonormal(m: Mat3) {
    MatMul(Transpose(m), m) == Identity3 && MatMul(m, Transpose(m)) == Identity3
  }

  /** gu::PoseUpdate(a, b): apply `b` in the frame of `a`. */
  function PoseUpdate(a: Transform3, b: Transform3): Transform3 {
    Transform3(Add(a.translation, MatVec(a.rotation, b.translation)), MatMul(a.rotation, b.rotation))
  }

  /** gu::PoseInverse(a). */
  function PoseInverse(a: Transform3): Transform3 {
    var rt := Transpose(a.rotation);
    Transform3(Neg(MatVec(rt, a.translation)), rt)
  }

  /** The rigid motion of one point: R p + t. */
  function Apply(a: Transform3, p: Vec3): Vec3 {
    Add(MatVec(a.rotation, p), a.translation)
  }

  // ---------------------------------------------------------------------------
  // Linear algebra facts

  lemma RowTimesIdentity(u: Vec3)
    ensures RowTimes(u, Identity3) == u
  {
  }

  lemma MatMulIdentity(m: Mat3)
    ensures MatMul(Identity3, m) == m && MatMul(m, Identity3) == m
  {
    RowTimesIdentity(m.r0);
    RowTimesIdentity(m.r1);
    RowTimesIdentity(m.r2);
  }

  lemma MatVecIdentity(v: Vec3)
    ensures MatVec(Identity3, v) == v
  {
  }

  lemma DotAdd(u: Vec3, v: Vec3, w: Vec3)
    ensures Dot(u, Add(v, w)) == Dot(u, v) + Dot(u, w)
  {
    calc {
      Dot(u, Add(v, w));
      u.x * (v.x + w.x) + u.y * (v.y + w.y) + u.z * (v.z + w.z);
      (u.x * v.x + u.x * w.x) + (u.y * v.y + u.y * w.y) + (u.z * v.z + u.z * w.z);
    }
  }

  lemma MatVecAdd(m: Mat3, v: Vec3, w: Vec3)
    ensures MatVec(m, Add(v, w)) == Add(MatVec(m, v), MatVec(m, w))
  {
    DotAdd(m.r0, v, w);
    DotAdd(m.r1, v, w);
    DotAdd(m.r2, v, w);
  }

  lemma MatVecNeg(m: Mat3, v: Vec3)
    ensures MatVec(m, Neg(v)) == Neg(MatVec(m, v))
  {
  }

  /** u . (B v) == (u B) . v */
  lemma DotRowTimes(u: Vec3, b: Mat3, v: Vec3)
    ensures Dot(u, MatVec(b, v)) == Dot(RowTimes(u, b), v)
  {
    var b0, b1, b2 := b.r0, b.r1, b.r2;
    calc {
      Dot(u, MatVec(b, v));
      u.x * (b0.x * v.x + b0.y * v.y + b0.z * v.z)
        + u.y * (b1.x * v.x + b1.y * v.y + b1.z * v.z)
        + u.z * (b2.x * v.x + b2.y * v.y + b2.z * v.z);
      (u.x * b0.x) * v.x + (u.x * b0.y) * v.y + (u.x * b0.z) * v.z
        + (u.y * b1.x) * v.x + (u.y * b1.y) * v.y + (u.y * b1.z) * v.z
        + (u.z * b2.x) * v.x + (u.z * b2.y) * v.y + (u.z * b2.z) * v.z;
      (u.x * b0.x + u.y * b1.x + u.z * b2.x) * v.x
        + (u.x * b0.y + u.y * b1.y + u.z * b2.y) * v.y
        + (u.x * b0.z + u.y * b1.z + u.z * b2.z) * v.z;
      Dot(RowTimes(u, b), v);
    }
  }

  lemma MatVecMatMul(a: Mat3, b: Mat3, v: Vec3)
    ensures MatVec(MatMul(a, b), v) == MatVec(a, MatVec(b, v))
  {
    DotRowTimes(a.r0, b, v);
    DotRowTimes(a.r1, b, v);
    DotRowTimes(a.r2, b, v);
  }

  lemma RowTimesMatMul(u: Vec3, b: Mat3, c: Mat3)
    ensures RowTimes(u, MatMul(b, c)) == RowTimes(RowTimes(u, b), c)
  {
    // Column j of B C is B times column j of C.
    assert Col0(MatMul(b, c)) == MatVec(b, Col0(c));
    assert Col1(MatMul(b, c)) == MatVec(b, Col1(c));
    assert Col2(MatMul(b, c)) == MatVec(b, Col2(c));
    DotRowTimes(u, b, Col0(c));
    DotRowTimes(u, b, Col1(c));
    DotRowTimes(u, b, Col2(c));
  }

  lemma MatMulAssociative(a: Mat3, b: Mat3, c: Mat3)
    ensures MatMul(MatMul(a, b), c) == MatMul(a, MatMul(b, c))
  {
    RowTimesMatMul(a.r0, b, c);
    RowTimesMatMul(a.r1, b, c);
    RowTimesMatMul(a.r2, b, c);
  }

  lemma TransposeMatMul(a: Mat3, b: Mat3)
    ensures Transpose(MatMul(a, b)) == MatMul(Transpose(b), Transpose(a))
  {
  }

  lemma MatMulOrthonormal(a: Mat3, b: Mat3)
    requires IsOrthonormal(a) && IsOrthonormal(b)
    ensures IsOrthonormal(MatMul(a, b))
  {
    var at, bt := Transpose(a), Transpose(b);
    TransposeMatMul(a, b);
    calc {
      MatMul(Transpose(MatMul(a, b)), MatMul(a, b));
      MatMul(MatMul(bt, at), MatMul(a, b));
      { MatMulAssociative(bt, at, MatMul(a, b)); }
      MatMul(bt, MatMul(at, MatMul(a, b)));
      { MatMulAssociative(at, a, b); }
      MatMul(bt, MatMul(MatMul(at, a), b));
      { MatMulIdentity(b); }
      MatMul(bt, b);
      Identity3;
    }
    calc {
      MatMul(MatMul(a, b), Transpose(MatMul(a, b)));
      MatMul(MatMul(a, b), MatMul(bt, at));
      { MatMulAssociative(MatMul(a, b), bt, at); }
      MatMul(MatMul(MatMul(a, b), bt), at);
      { MatMulAssociative(a, b, bt); }
      MatMul(MatMul(a, MatMul(b, bt)), at);
      { MatMulIdentity(a); }
      MatMul(a, at);
      Identity3;
    }
  }

  // ---------------------------------------------------------------------------
  // Properties of composition and inversion

  /** The identity transform is a two-sided unit of PoseUpdate. */
  lemma PoseUpdateIdentity(a: Transform3)
    ensures PoseUpdate(Identity, a) == a
    ensures PoseUpdate(a, Identity) == a
  {
    MatVecIdentity(a.translation);
    MatMulIdentity(a.rotation);
  }

  /** PoseUpdate(a, b) moves a point by b first and then by a. */
  lemma PoseUpdateApply(a: Transform3, b: Transform3, p: Vec3)
    ensures Apply(PoseUpdate(a, b), p) == Apply(a, Apply(b, p))
  {
    MatVecMatMul(a.rotation, b.rotation, p);
    MatVecAdd(a.rotation, MatVec(b.rotation, p), b.translation);
  }

  lemma PoseUpdateAssociative(a: Transform3, b: Transform3, c: Transform3)
    ensures PoseUpdate(PoseUpdate(a, b), c) == PoseUpdate(a, PoseUpdate(b, c))
  {
    MatMulAssociative(a.rotation, b.rotation, c.rotation);
    MatVecMatMul(a.rotation, b.rotation, c.translation);
    MatVecAdd(a.rotation, b.translation, MatVec(b.rotation, c.translation));
  }

  /** A translation by one unit along x. */
  const ShiftX: Transform3 := Transform3(Vec3(1.0, 0.0, 0.0), Identity3)

  /** A quarter turn about z. */
  const QuarterTurnZ: Transform3 :=
    Transform3(Zero, Mat3(Vec3(0.0, -1.0, 0.0), Vec3(1.0, 0.0, 0.0), Vec3(0.0, 0.0, 1.0)))

  /** Composition is not commutative: shifting then turning differs from turning then shifting. */
  lemma PoseUpdateNotCommutative()
    ensures PoseUpdate(ShiftX, QuarterTurnZ) != PoseUpdate(QuarterTurnZ, ShiftX)
  {
    ShiftThenTurn();
    TurnThenShift();
  }

  lemma ShiftThenTurn()
    ensures PoseUpdate(ShiftX, QuarterTurnZ).translation == Vec3(1.0, 0.0, 0.0)
  {
    MatVecIdentity(Zero);
  }

  lemma TurnThenShift()
    ensures PoseUpdate(QuarterTurnZ, ShiftX).translation == Vec3(0.0, 1.0, 0.0)
  {
  }

  /** Composing two proper rigid transforms keeps the rotation orthonormal. */
  lemma PoseUpdateOrthonormal(a: Transform3, b: Transform3)
    requires IsOrthonormal(a.rotation) && IsOrthonormal(b.rotation)
    ensures IsOrthonormal(PoseUpdate(a, b).rotation)
  {
    MatMulOrthonormal(a.rotation, b.rotation);
  }

  /** PoseInverse is a two-sided inverse of PoseUpdate for orthonormal rotations. */
  lemma PoseInverseIsInverse(a: Transform3)
    requires IsOrthonormal(a.rotation)
    ensures IsOrthonormal(PoseInverse(a).rotation)
    ensures PoseUpdate(PoseInverse(a), a) == Identity
    ensures PoseUpdate(a, PoseInverse(a)) == Identity
  {
    var r, t := a.rotation, a.translation;
    var rt := Transpose(r);
    assert Transpose(rt) == r;
    // Translation of PoseUpdate(PoseInverse(a), a): -R^T t + R^T t.
    assert Add(Neg(MatVec(rt, t)), MatVec(rt, t)) == Zero;
    // Translation of PoseUpdate(a, PoseInverse(a)): t + R (-R^T t) = t - (R R^T) t.
    calc {
      Add(t, MatVec(r, Neg(MatVec(rt, t))));
      { MatVecNeg(r, MatVec(rt, t)); }
      Add(t, Neg(MatVec(r, MatVec(rt, t))));
      { MatVecMatMul(r, rt, t); MatVecIdentity(t); }
      Add(t, Neg(t));
      Zero;
    }
  }

  /** Moving a point by `a` and then by PoseInverse(a) gives the point back. */
  lemma ApplyPoseInverse(a: Transform3, p: Vec3)
    requires IsOrthonormal(a.rotation)
    ensures Apply(PoseInverse(a), Apply(a, p)) == p
  {
    PoseInverseIsInverse(a);
    PoseUpdateApply(PoseInverse(a), a, p);
    MatVecIdentity(p);
  }
}
