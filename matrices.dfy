/**
  Dense real matrices as sequences of rows: the few Eigen operations that the
  covariance computation uses (zero matrix, sum, J^T J) and the facts about
  them that the information-matrix lemmas need.

  Sums are defined by recursion on an index (the first k terms), so that
  unfolding them never builds new sequences.
 */
module Matrices {
  import Geometry

  type Vector = seq<real>
  type Matrix = seq<seq<real>>

  predicate IsMatrix(m: Matrix, rows: nat, cols: nat) {
    |m| == rows && forall i :: 0 <= i < rows ==> |m[i]| == cols
  }

  predicate SameShape(a: Matrix, b: Matrix) {
    |a| == |b| && forall i :: 0 <= i < |a| ==> |a[i]| == |b[i]|
  }

  predicate IsSymmetric(m: Matrix)
    requires IsMatrix(m, |m|, |m|)
  {
    forall i, j :: 0 <= i < |m| && 0 <= j < |m| ==> m[i][j] == m[j][i]
  }

  /** Eigen::MatrixXd::Zero(rows, cols). */
  function Zeros(rows: nat, cols: nat): (z: Matrix)
    ensures IsMatrix(z, rows, cols)
  {
    seq(rows, i => seq(cols, j => 0.0))
  }

  /** Entrywise sum (Eigen's `+`). */
  function Add(a: Matrix, b: Matrix): (c: Matrix)
    requires SameShape(a, b)
    ensures SameShape(c, a)
  {
    seq(|a|, i requires 0 <= i < |a| => seq(|a[i]|, j requires 0 <= j < |a[i]| => a[i][j] + b[i][j]))
  }

  /** The sum of u[i] * v[i] over i < k. */
  function DotUpTo(u: Vector, v: Vector, k: nat): real
    requires k <= |u| && k <= |v|
  {
    if k == 0 then 0.0 else DotUpTo(u, v, k - 1) + u[k - 1] * v[k - 1]
  }

  function Dot(u: Vector, v: Vector): real
    requires |u| == |v|
  {
    DotUpTo(u, v, |u|)
  }

  function MatVec(m: Matrix, x: Vector): (y: Vector)
    requires forall i :: 0 <= i < |m| ==> |m[i]| == |x|
    ensures |y| == |m|
  {
    seq(|m|, i requires 0 <= i < |m| => Dot(m[i], x))
  }

  /** The quadratic form x^T M x. */
  function Quad(m: Matrix, x: Vector): real
    requires IsMatrix(m, |x|, |x|)
  {
    Dot(x, MatVec(m, x))
  }

  /** The outer product r r^T. */
  function Outer(r: Vector): (o: Matrix)
    ensures IsMatrix(o, |r|, |r|)
  {
    seq(|r|, a requires 0 <= a < |r| => seq(|r|, b requires 0 <= b < |r| => r[a] * r[b]))
  }

  /** The sum of J[i][a] * J[i][b] over the rows i < k. */
  function ColumnDotUpTo(j: Matrix, a: nat, b: nat, k: nat): real
    requires k <= |j| && forall i :: 0 <= i < |j| ==> a < |j[i]| && b < |j[i]|
  {
    if k == 0 then 0.0 else ColumnDotUpTo(j, a, b, k - 1) + j[k - 1][a] * j[k - 1][b]
  }

  /** Columns a and b of J are orthogonal over the first k rows when every row has a zero in one of them. */
  lemma {:induction false} ColumnDotUpToVanishes(j: Matrix, a: nat, b: nat, k: nat)
    requires k <= |j| && forall i :: 0 <= i < |j| ==> a < |j[i]| && b < |j[i]|
    requires forall i :: 0 <= i < k ==> j[i][a] == 0.0 || j[i][b] == 0.0
    ensures ColumnDotUpTo(j, a, b, k) == 0.0
  {
    if k > 0 {
      ColumnDotUpToVanishes(j, a, b, k - 1);
    }
  }

  /** Entry (a, b) of J^T J built from the first k rows of J. */
  function GramUpTo(j: Matrix, n: nat, k: nat): (g: Matrix)
    requires k <= |j| && forall i :: 0 <= i < |j| ==> |j[i]| == n
    ensures IsMatrix(g, n, n)
  {
    seq(n, a requires 0 <= a < n => seq(n, b requires 0 <= b < n => ColumnDotUpTo(j, a, b, k)))
  }

  /** J.transpose() * J for a matrix J with n columns: entry (a, b) is column a of J dotted with column b. */
  function Gram(j: Matrix, n: nat): (g: Matrix)
    requires forall i :: 0 <= i < |j| ==> |j[i]| == n
    ensures IsMatrix(g, n, n)
  {
    GramUpTo(j, n, |j|)
  }

  /** The sum of (J[i] . x)^2 over the rows i < k. */
  function SumOfSquaresUpTo(j: Matrix, x: Vector, k: nat): (s: real)
    requires k <= |j| && forall i :: 0 <= i < |j| ==> |j[i]| == |x|
    ensures s >= 0.0
  {
    if k == 0 then 0.0
    else
      var d := Dot(j[k - 1], x);
      Geometry.SquareNonNegative(d);
      SumOfSquaresUpTo(j, x, k - 1) + d * d
  }

  // ---------------------------------------------------------------------------
  // Dot products

  lemma {:induction false} DotUpToSymmetric(u: Vector, v: Vector, k: nat)
    requires k <= |u| && k <= |v|
    ensures DotUpTo(u, v, k) == DotUpTo(v, u, k)
  {
    if k > 0 {
      DotUpToSymmetric(u, v, k - 1);
    }
  }

  lemma DotSymmetric(u: Vector, v: Vector)
    requires |u| == |v|
    ensures Dot(u, v) == Dot(v, u)
  {
    DotUpToSymmetric(u, v, |u|);
  }

  /** Dot(u, w) == Dot(v, w) + Dot(v', w) when u is v + v' entrywise. */
  lemma {:induction false} DotUpToSum(u: Vector, v: Vector, v': Vector, w: Vector, k: nat)
    requires k <= |u| && k <= |v| && k <= |v'| && k <= |w|
    requires forall i :: 0 <= i < k ==> u[i] == v[i] + v'[i]
    ensures DotUpTo(u, w, k) == DotUpTo(v, w, k) + DotUpTo(v', w, k)
  {
    if k > 0 {
      DotUpToSum(u, v, v', w, k - 1);
      assert u[k - 1] * w[k - 1] == v[k - 1] * w[k - 1] + v'[k - 1] * w[k - 1];
    }
  }

  /** Dot(u, w) == c * Dot(v, w) when u is c v entrywise. */
  lemma {:induction false} DotUpToScale(u: Vector, c: real, v: Vector, w: Vector, k: nat)
    requires k <= |u| && k <= |v| && k <= |w|
    requires forall i :: 0 <= i < k ==> u[i] == c * v[i]
    ensures DotUpTo(u, w, k) == c * DotUpTo(v, w, k)
  {
    if k > 0 {
      DotUpToScale(u, c, v, w, k - 1);
      assert u[k - 1] * w[k - 1] == c * (v[k - 1] * w[k - 1]);
    }
  }

  lemma {:induction false} DotUpToZeros(u: Vector, z: Vector, k: nat)
    requires k <= |u| && k <= |z|
    requires forall i :: 0 <= i < k ==> z[i] == 0.0
    ensures DotUpTo(z, u, k) == 0.0
  {
    if k > 0 {
      DotUpToZeros(u, z, k - 1);
    }
  }

  // ---------------------------------------------------------------------------
  // The quadratic form

  lemma QuadZeros(x: Vector)
    ensures Quad(Zeros(|x|, |x|), x) == 0.0
  {
    var z := Zeros(|x|, |x|);
    var y := MatVec(z, x);
    forall i | 0 <= i < |x|
      ensures y[i] == 0.0
    {
      DotUpToZeros(x, z[i], |x|);
    }
    DotUpToZeros(x, y, |x|);
    DotSymmetric(x, y);
  }

  lemma QuadAdd(a: Matrix, b: Matrix, x: Vector)
    requires IsMatrix(a, |x|, |x|) && IsMatrix(b, |x|, |x|)
    ensures Quad(Add(a, b), x) == Quad(a, x) + Quad(b, x)
  {
    var c := Add(a, b);
    var yc, ya, yb := MatVec(c, x), MatVec(a, x), MatVec(b, x);
    forall i | 0 <= i < |x|
      ensures yc[i] == ya[i] + yb[i]
    {
      DotUpToSum(c[i], a[i], b[i], x, |x|);
    }
    DotUpToSum(yc, ya, yb, x, |x|);
    DotSymmetric(x, yc);
    DotSymmetric(x, ya);
    DotSymmetric(x, yb);
  }

  /** x^T (r r^T) x == (r . x)^2 */
  lemma QuadOuter(r: Vector, x: Vector)
    requires |r| == |x|
    ensures Quad(Outer(r), x) == Dot(r, x) * Dot(r, x)
  {
    var d := Dot(r, x);
    var o := Outer(r);
    var y := MatVec(o, x);
    forall a | 0 <= a < |r|
      ensures y[a] == d * r[a]
    {
      DotUpToScale(o[a], r[a], r, x, |x|);
    }
    DotSymmetric(x, y);
    DotUpToScale(y, d, r, x, |x|);
  }

  // ---------------------------------------------------------------------------
  // J^T J

  lemma GramUpToZero(j: Matrix, n: nat)
    requires forall i :: 0 <= i < |j| ==> |j[i]| == n
    ensures GramUpTo(j, n, 0) == Zeros(n, n)
  {
    var g := GramUpTo(j, n, 0);
    forall a | 0 <= a < n
      ensures g[a] == Zeros(n, n)[a]
    {
    }
  }

  /** Taking one more row of J adds that row's outer product to J^T J. */
  lemma GramUpToStep(j: Matrix, n: nat, k: nat)
    requires 0 < k <= |j| && forall i :: 0 <= i < |j| ==> |j[i]| == n
    ensures GramUpTo(j, n, k) == Add(GramUpTo(j, n, k - 1), Outer(j[k - 1]))
  {
    var lhs, rhs := GramUpTo(j, n, k), Add(GramUpTo(j, n, k - 1), Outer(j[k - 1]));
    forall a | 0 <= a < n
      ensures lhs[a] == rhs[a]
    {
      assert forall b :: 0 <= b < n ==> lhs[a][b] == rhs[a][b];
    }
  }

  lemma {:induction false} QuadGramUpTo(j: Matrix, x: Vector, k: nat)
    requires k <= |j| && forall i :: 0 <= i < |j| ==> |j[i]| == |x|
    ensures Quad(GramUpTo(j, |x|, k), x) == SumOfSquaresUpTo(j, x, k)
  {
    if k == 0 {
      GramUpToZero(j, |x|);
      QuadZeros(x);
    } else {
      GramUpToStep(j, |x|, k);
      QuadAdd(GramUpTo(j, |x|, k - 1), Outer(j[k - 1]), x);
      QuadOuter(j[k - 1], x);
      QuadGramUpTo(j, x, k - 1);
    }
  }

  /** x^T (J^T J) x is the squared length of J x, hence never negative. */
  lemma QuadGram(j: Matrix, x: Vector)
    requires forall i :: 0 <= i < |j| ==> |j[i]| == |x|
    ensures Quad(Gram(j, |x|), x) == SumOfSquaresUpTo(j, x, |j|) >= 0.0
  {
    QuadGramUpTo(j, x, |j|);
  }

  lemma {:induction false} ColumnDotUpToSymmetric(j: Matrix, a: nat, b: nat, k: nat)
    requires k <= |j| && forall i :: 0 <= i < |j| ==> a < |j[i]| && b < |j[i]|
    ensures ColumnDotUpTo(j, a, b, k) == ColumnDotUpTo(j, b, a, k)
  {
    if k > 0 {
      ColumnDotUpToSymmetric(j, a, b, k - 1);
    }
  }

  lemma GramSymmetric(j: Matrix, n: nat)
    requires forall i :: 0 <= i < |j| ==> |j[i]| == n
    ensures IsSymmetric(Gram(j, n))
  {
    forall a, b | 0 <= a < n && 0 <= b < n
      ensures Gram(j, n)[a][b] == Gram(j, n)[b][a]
    {
      ColumnDotUpToSymmetric(j, a, b, |j|);
    }
  }

  // ---------------------------------------------------------------------------
  // Sums of matrices

  lemma AddSymmetric(a: Matrix, b: Matrix)
    requires IsMatrix(a, |a|, |a|) && IsMatrix(b, |a|, |a|)
    requires IsSymmetric(a) && IsSymmetric(b)
    ensures IsSymmetric(Add(a, b))
  {
  }

  lemma AddAssociative(a: Matrix, b: Matrix, c: Matrix)
    requires SameShape(a, b) && SameShape(b, c)
    ensures Add(Add(a, b), c) == Add(a, Add(b, c))
  {
    var l, r := Add(Add(a, b), c), Add(a, Add(b, c));
    forall i | 0 <= i < |a|
      ensures l[i] == r[i]
    {
    }
  }

  lemma AddZerosRight(a: Matrix, rows: nat, cols: nat)
    requires IsMatrix(a, rows, cols)
    ensures Add(a, Zeros(rows, cols)) == a
  {
    var c := Add(a, Zeros(rows, cols));
    forall i | 0 <= i < rows
      ensures c[i] == a[i]
    {
    }
  }

  lemma AddCommutative(a: Matrix, b: Matrix)
    requires SameShape(a, b)
    ensures Add(a, b) == Add(b, a)
  {
    var l, r := Add(a, b), Add(b, a);
    forall i | 0 <= i < |a|
      ensures l[i] == r[i]
    {
    }
  }
}
