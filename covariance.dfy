/**
  The information matrix of a GICP alignment, as ComputeICPCovariance builds
  it: for every point of the aligned cloud a 3x6 Jacobian of the point's
  residual with respect to (roll, pitch, yaw, x, y, z), in closed form, and
  the running sum H of J^T J starting from zero.

  The sines and cosines of roll, pitch and yaw are taken as six real numbers,
  so every Jacobian entry is a polynomial and no trigonometry is involved.
 */
module Covariance {
  import Geometry
  import opened Clouds
  import opened Matrices

  /** sin and cos of roll (r), pitch (p) and yaw (y). */
  datatype Angles = Angles(sr: real, cr: real, sp: real, cp: real, sy: real, cy: real)

  /** T(0,3), T(1,3), T(2,3). */
  function TranslationOf(m: Matrix): Geometry.Vec3
    requires IsMatrix(m, 4, 4)
  {
    Geometry.Vec3(m[0][3], m[1][3], m[2][3])
  }

  /**
    The Jacobian of point q under translation t and angles g. Columns 0..2 are
    roll, pitch and yaw, columns 3..5 are x, y and z. Each row depends on one
    translation component only, and each of its rotational entries is that
    row's translational entry times a factor that depends on q and g alone.
   */
  function Jacobian(q: Geometry.Vec3, t: Geometry.Vec3, g: Angles): (j: Matrix)
    ensures IsMatrix(j, 3, 6)
    // J11, J15, J16, J24, J26, J34, J35 vanish
    ensures j[0][0] == 0.0 && j[0][4] == 0.0 && j[0][5] == 0.0
    ensures j[1][3] == 0.0 && j[1][5] == 0.0
    ensures j[2][3] == 0.0 && j[2][4] == 0.0
    // row 1: multiples of J14
    ensures j[0][1] == -(q.z * g.sp + q.x * g.cp * g.cy - q.y * g.cp * g.sy) * j[0][3]
    ensures j[0][2] == (q.y * g.cy * g.sp + q.x * g.sp * g.sy) * j[0][3]
    // row 2: multiples of J25
    ensures j[1][0] == -(q.x * (g.cr * g.sy + g.cp * g.cy * g.sr) + q.y * (g.cr * g.cy - g.cp * g.sr * g.sy)
                         + q.z * g.sp * g.sr) * j[1][4]
    ensures j[1][1] == (q.z * g.cp * g.cr - q.x * g.cr * g.cy * g.sp + q.y * g.cr * g.sp * g.sy) * j[1][4]
    ensures j[1][2] == -(q.x * (g.cy * g.sr + g.cp * g.cr * g.sy) - q.y * (g.sr * g.sy - g.cp * g.cr * g.cy)) * j[1][4]
    // row 3: multiples of J36
    ensures j[2][0] == -(q.x * (g.sr * g.sy - g.cp * g.cr * g.cy) + q.y * (g.cy * g.sr + g.cp * g.cr * g.sy)
                         - q.z * g.cr * g.sp) * j[2][5]
    ensures j[2][1] == (q.z * g.cp * g.sr - q.x * g.cy * g.sp * g.sr + q.y * g.sp * g.sr * g.sy) * j[2][5]
    ensures j[2][2] == (q.x * (g.cr * g.cy - g.cp * g.sr * g.sy) - q.y * (g.cr * g.sy + g.cp * g.cy * g.sr)) * j[2][5]
  {
    var px, py, pz := q.x, q.y, q.z;
    var tx, ty, tz := t.x, t.y, t.z;
    var sr, cr, sp, cp, sy, cy := g.sr, g.cr, g.sp, g.cp, g.sy, g.cy;

    // The common second factors of the rows.
    var f1 := tx - px + pz * cp - px * cy * sp + py * sp * sy;
    var f2 := py - ty + px * (sr * sy - cp * cr * cy) + py * (cy * sr + cp * cr * sy) - pz * cr * sp;
    var f3 := tz - pz + px * (cr * sy + cp * cy * sr) + py * (cr * cy - cp * sr * sy) + pz * sp * sr;

    var j11 := 0.0;
    var j12 := -2.0 * (pz * sp + px * cp * cy - py * cp * sy) * f1;
    var j13 := 2.0 * (py * cy * sp + px * sp * sy) * f1;
    var j14 := 2.0 * tx - 2.0 * px + 2.0 * pz * cp - 2.0 * px * cy * sp + 2.0 * py * sp * sy;
    var j15 := 0.0;
    var j16 := 0.0;

    var j21 := 2.0 * (px * (cr * sy + cp * cy * sr) + py * (cr * cy - cp * sr * sy) + pz * sp * sr) * f2;
    var j22 := -2.0 * (pz * cp * cr - px * cr * cy * sp + py * cr * sp * sy) * f2;
    var j23 := 2.0 * (px * (cy * sr + cp * cr * sy) - py * (sr * sy - cp * cr * cy)) * f2;
    var j24 := 0.0;
    var j25 := 2.0 * ty - 2.0 * py - 2.0 * px * (sr * sy - cp * cr * cy) - 2.0 * py * (cy * sr + cp * cr * sy)
               + 2.0 * pz * cr * sp;
    var j26 := 0.0;

    var j31 := -2.0 * (px * (sr * sy - cp * cr * cy) + py * (cy * sr + cp * cr * sy) - pz * cr * sp) * f3;
    var j32 := 2.0 * (pz * cp * sr - px * cy * sp * sr + py * sp * sr * sy) * f3;
    var j33 := 2.0 * (px * (cr * cy - cp * sr * sy) - py * (cr * sy + cp * cy * sr)) * f3;
    var j34 := 0.0;
    var j35 := 0.0;
    var j36 := 2.0 * tz - 2.0 * pz + 2.0 * px * (cr * sy + cp * cy * sr) + 2.0 * py * (cr * cy - cp * sr * sy)
               + 2.0 * pz * sp * sr;

    // Each translational entry is twice (or minus twice) its row's factor.
    assert j14 == 2.0 * f1;
    assert j25 == -2.0 * f2;
    assert j36 == 2.0 * f3;
    MinusTwiceFactor(pz * sp + px * cp * cy - py * cp * sy, f1);
    TwiceFactor(py * cy * sp + px * sp * sy, f1);
    TwiceFactorNegated(px * (cr * sy + cp * cy * sr) + py * (cr * cy - cp * sr * sy) + pz * sp * sr, f2);
    MinusTwiceFactorNegated(pz * cp * cr - px * cr * cy * sp + py * cr * sp * sy, f2);
    TwiceFactorNegated(px * (cy * sr + cp * cr * sy) - py * (sr * sy - cp * cr * cy), f2);
    MinusTwiceFactor(px * (sr * sy - cp * cr * cy) + py * (cy * sr + cp * cr * sy) - pz * cr * sp, f3);
    TwiceFactor(pz * cp * sr - px * cy * sp * sr + py * sp * sr * sy, f3);
    TwiceFactor(px * (cr * cy - cp * sr * sy) - py * (cr * sy + cp * cy * sr), f3);

    [[j11, j12, j13, j14, j15, j16],
     [j21, j22, j23, j24, j25, j26],
     [j31, j32, j33, j34, j35, j36]]
  }

  lemma TwiceFactor(a: real, f: real)
    ensures 2.0 * a * f == a * (2.0 * f)
  {
  }

  lemma MinusTwiceFactor(a: real, f: real)
    ensures -2.0 * a * f == -a * (2.0 * f)
  {
  }

  lemma TwiceFactorNegated(a: real, f: real)
    ensures 2.0 * a * f == -a * (-2.0 * f)
  {
  }

  lemma MinusTwiceFactorNegated(a: real, f: real)
    ensures -2.0 * a * f == a * (-2.0 * f)
  {
  }

  /** H after the first k points of the cloud: zero plus J^T J for each of them, in order. */
  function Information(cloud: Cloud, t: Geometry.Vec3, g: Angles, k: nat): (h: Matrix)
    requires k <= |cloud|
    ensures IsMatrix(h, 6, 6)
  {
    if k == 0 then Zeros(6, 6)
    else Add(Information(cloud, t, g, k - 1), Gram(Jacobian(cloud[k - 1].pos, t, g), 6))
  }

  /** The loop of ComputeICPCovariance: H = 0, then H += J^T J for every point of the cloud. */
  method AccumulateInformation(cloud: Cloud, m: Matrix, g: Angles) returns (h: Matrix)
    requires IsMatrix(m, 4, 4)
    ensures h == Information(cloud, TranslationOf(m), g, |cloud|)
  {
    var t := TranslationOf(m);
    h := Zeros(6, 6);
    var i := 0;
    while i < |cloud|
      invariant 0 <= i <= |cloud|
      invariant h == Information(cloud, t, g, i)
    {
      var j := Jacobian(cloud[i].pos, t, g);
      h := Add(h, Gram(j, 6));
      i := i + 1;
    }
  }

  // ---------------------------------------------------------------------------
  // What the accumulated H is

  /** H is symmetric after any number of points. */
  lemma {:induction false} InformationSymmetric(cloud: Cloud, t: Geometry.Vec3, g: Angles, k: nat)
    requires k <= |cloud|
    ensures IsSymmetric(Information(cloud, t, g, k))
  {
    if k > 0 {
      InformationSymmetric(cloud, t, g, k - 1);
      GramSymmetric(Jacobian(cloud[k - 1].pos, t, g), 6);
      AddSymmetric(Information(cloud, t, g, k - 1), Gram(Jacobian(cloud[k - 1].pos, t, g), 6));
    }
  }

  /** H is positive semidefinite: x^T H x is never negative. */
  lemma {:induction false} InformationPositiveSemidefinite(cloud: Cloud, t: Geometry.Vec3, g: Angles, k: nat, x: Vector)
    requires k <= |cloud| && |x| == 6
    ensures Quad(Information(cloud, t, g, k), x) >= 0.0
  {
    if k == 0 {
      QuadZeros(x);
    } else {
      var j := Jacobian(cloud[k - 1].pos, t, g);
      InformationPositiveSemidefinite(cloud, t, g, k - 1, x);
      QuadAdd(Information(cloud, t, g, k - 1), Gram(j, 6), x);
      QuadGram(j, x);
    }
  }

  /**
    J^T J of one point: x, y and z are decoupled from each other, and x is
    decoupled from roll, because only one row of J has a translational entry
    per column and the roll entry of the first row is zero.
   */
  lemma JacobianGramStructure(q: Geometry.Vec3, t: Geometry.Vec3, g: Angles)
    ensures var h := Gram(Jacobian(q, t, g), 6);
      h[3][4] == 0.0 && h[3][5] == 0.0 && h[4][5] == 0.0 && h[0][3] == 0.0
  {
    var j := Jacobian(q, t, g);
    ColumnDotUpToVanishes(j, 3, 4, 3);
    ColumnDotUpToVanishes(j, 3, 5, 3);
    ColumnDotUpToVanishes(j, 4, 5, 3);
    ColumnDotUpToVanishes(j, 0, 3, 3);
  }

  /** The translational block of H is diagonal, and H couples x and roll not at all. */
  lemma {:induction false} InformationTranslationBlock(cloud: Cloud, t: Geometry.Vec3, g: Angles, k: nat)
    requires k <= |cloud|
    ensures var h := Information(cloud, t, g, k);
      h[3][4] == 0.0 && h[3][5] == 0.0 && h[4][5] == 0.0 && h[0][3] == 0.0
    ensures var h := Information(cloud, t, g, k);
      h[4][3] == 0.0 && h[5][3] == 0.0 && h[5][4] == 0.0 && h[3][0] == 0.0
  {
    InformationSymmetric(cloud, t, g, k);
    if k > 0 {
      InformationTranslationBlock(cloud, t, g, k - 1);
      JacobianGramStructure(cloud[k - 1].pos, t, g);
    }
  }

  /** H over a prefix depends on that prefix only. */
  lemma {:induction false} InformationPrefix(c: Cloud, d: Cloud, t: Geometry.Vec3, g: Angles, k: nat)
    requires k <= |c| && k <= |d| && c[..k] == d[..k]
    ensures Information(c, t, g, k) == Information(d, t, g, k)
  {
    if k > 0 {
      assert c[k - 1] == c[..k][k - 1] == d[..k][k - 1] == d[k - 1];
      assert c[..k - 1] == c[..k][..k - 1];
      assert d[..k - 1] == d[..k][..k - 1];
      InformationPrefix(c, d, t, g, k - 1);
    }
  }

  /** H over a ++ b after |a| + k points is H over a plus H over the first k points of b. */
  lemma {:induction false} InformationConcatUpTo(a: Cloud, b: Cloud, t: Geometry.Vec3, g: Angles, k: nat)
    requires k <= |b|
    ensures Information(a + b, t, g, |a| + k) == Add(Information(a, t, g, |a|), Information(b, t, g, k))
  {
    var ha := Information(a, t, g, |a|);
    if k == 0 {
      assert (a + b)[..|a|] == a[..|a|];
      InformationPrefix(a + b, a, t, g, |a|);
      AddZerosRight(ha, 6, 6);
    } else {
      InformationConcatUpTo(a, b, t, g, k - 1);
      var c := a + b;
      var n := |a| + k;
      assert c[n - 1] == b[k - 1];
      var hj := Gram(Jacobian(b[k - 1].pos, t, g), 6);
      var hb := Information(b, t, g, k - 1);
      assert Information(c, t, g, n) == Add(Information(c, t, g, n - 1), hj);
      assert Information(b, t, g, k) == Add(hb, hj);
      AddAssociative(ha, hb, hj);
    }
  }

  /** H is a sum over points: splitting the cloud in two and adding the halves' H gives the same matrix. */
  lemma InformationConcat(a: Cloud, b: Cloud, t: Geometry.Vec3, g: Angles)
    ensures Information(a + b, t, g, |a + b|) == Add(Information(a, t, g, |a|), Information(b, t, g, |b|))
  {
    InformationConcatUpTo(a, b, t, g, |b|);
  }

  /** Hence the two halves may be visited in either order. */
  lemma InformationSwapHalves(a: Cloud, b: Cloud, t: Geometry.Vec3, g: Angles)
    ensures Information(a + b, t, g, |a + b|) == Information(b + a, t, g, |b + a|)
  {
    InformationConcat(a, b, t, g);
    InformationConcat(b, a, t, g);
    AddCommutative(Information(a, t, g, |a|), Information(b, t, g, |b|));
  }

  // ---------------------------------------------------------------------------
  // PublishPose: the 6x6 covariance as the 36 slots of a ROS message, row by row

  /** Slot i holds entry (i / 6, i % 6). */
  function Flatten(m: Matrix): (s: seq<real>)
    requires IsMatrix(m, 6, 6)
    ensures |s| == 36
    ensures forall r, c :: 0 <= r < 6 && 0 <= c < 6 ==> s[6 * r + c] == m[r][c]
  {
    var s := seq(36, i requires 0 <= i < 36 => m[i / 6][i % 6]);
    forall r, c | 0 <= r < 6 && 0 <= c < 6
      ensures s[6 * r + c] == m[r][c]
    {
      SlotOfEntry(r, c);
    }
    s
  }

  /** Row r, column c lands in slot 6 r + c, and that slot reads back as (r, c). */
  lemma SlotOfEntry(r: nat, c: nat)
    requires r < 6 && c < 6
    ensures 6 * r + c < 36 && (6 * r + c) / 6 == r && (6 * r + c) % 6 == c
  {
  }

  /** The matrix whose row r is slots 6 r .. 6 r + 5. */
  function Unflatten(s: seq<real>): (m: Matrix)
    requires |s| == 36
    ensures IsMatrix(m, 6, 6)
  {
    seq(6, r requires 0 <= r < 6 => s[6 * r .. 6 * r + 6])
  }

  lemma UnflattenFlatten(m: Matrix)
    requires IsMatrix(m, 6, 6)
    ensures Unflatten(Flatten(m)) == m
  {
    var n := Unflatten(Flatten(m));
    forall r | 0 <= r < 6
      ensures n[r] == m[r]
    {
      assert forall c :: 0 <= c < 6 ==> n[r][c] == Flatten(m)[6 * r + c];
    }
  }

  lemma FlattenUnflatten(s: seq<real>)
    requires |s| == 36
    ensures Flatten(Unflatten(s)) == s
  {
    var m := Unflatten(s);
    forall i | 0 <= i < 36
      ensures Flatten(m)[i] == s[i]
    {
      assert i == 6 * (i / 6) + i % 6;
    }
  }

  /** The copy loop of PublishPose. */
  method FillCovariance(cov: Matrix, slots: array<real>)
    requires IsMatrix(cov, 6, 6) && slots.Length == 36
    modifies slots
    ensures slots[..] == Flatten(cov)
  {
    for i := 0 to 36
      invariant forall k :: 0 <= k < i ==> slots[k] == cov[k / 6][k % 6]
    {
      var row := i / 6;
      var col := i % 6;
      slots[i] := cov[row][col];
    }
  }
}
