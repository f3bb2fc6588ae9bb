/**
  Point clouds of pcl::PointXYZI points, and the rigid motion of a whole
  cloud that pcl::transformPointCloud performs.
 */
module Clouds {
  import opened Geometry

  /** pcl::PointXYZI: a position and an intensity. */
  datatype Point = Point(pos: Vec3, intensity: real)

  type Cloud = seq<Point>

  /** pcl::transformPointCloud with a rigid transform: every position moves, intensities and order stay. */
  function TransformCloud(tf: Transform3, c: Cloud): Cloud {
    seq(|c|, i requires 0 <= i < |c| => Point(Apply(tf, c[i].pos), c[i].intensity))
  }

  /** Moving a cloud by b and then by a is moving it by PoseUpdate(a, b). */
  lemma TransformCloudPoseUpdate(a: Transform3, b: Transform3, c: Cloud)
    ensures TransformCloud(PoseUpdate(a, b), c) == TransformCloud(a, TransformCloud(b, c))
  {
    var l, r := TransformCloud(PoseUpdate(a, b), c), TransformCloud(a, TransformCloud(b, c));
    forall i | 0 <= i < |c|
      ensures l[i] == r[i]
    {
      PoseUpdateApply(a, b, c[i].pos);
    }
  }

  /** The identity transform leaves a cloud as it is. */
  lemma TransformCloudIdentity(c: Cloud)
    ensures TransformCloud(Identity, c) == c
  {
    var r := TransformCloud(Identity, c);
    forall i | 0 <= i < |c|
      ensures r[i] == c[i]
    {
      MatVecIdentity(c[i].pos);
    }
  }

  /** Moving a cloud by a and then by PoseInverse(a) gives the cloud back. */
  lemma TransformCloudInverse(a: Transform3, c: Cloud)
    requires IsOrthonormal(a.rotation)
    ensures TransformCloud(PoseInverse(a), TransformCloud(a, c)) == c
  {
    var r := TransformCloud(PoseInverse(a), TransformCloud(a, c));
    forall i | 0 <= i < |c|
      ensures r[i] == c[i]
    {
      ApplyPoseInverse(a, c[i].pos);
    }
  }
}
