/**
  What the GICP registration hands back to the localizer, and how a 4x4
  homogeneous matrix is read as a pose. The registration itself is a foreign
  library and is not modelled: its result is an input.
 */
module Registration {
  import opened Geometry
  import opened Clouds
  import opened Matrices

  /** icp.align's output cloud, icp.getFinalTransformation() and icp.getFitnessScore(). */
  datatype RegistrationResult = RegistrationResult(aligned: Cloud, transform: Matrix, fitness: real)

  predicate WellFormed(r: RegistrationResult) {
    IsMatrix(r.transform, 4, 4)
  }

  /** The pose whose translation is the last column of T and whose rotation is T's upper-left 3x3 block. */
  function PoseFromMatrix(m: Matrix): Transform3
    requires IsMatrix(m, 4, 4)
  {
    Transform3(
      Vec3(m[0][3], m[1][3], m[2][3]),
      Mat3(Vec3(m[0][0], m[0][1], m[0][2]), Vec3(m[1][0], m[1][1], m[1][2]), Vec3(m[2][0], m[2][1], m[2][2])))
  }

  /** The homogeneous matrix [R t; 0 0 0 1] of a pose. */
  function MatrixOfPose(a: Transform3): (m: Matrix)
    ensures IsMatrix(m, 4, 4)
  {
    var r, t := a.rotation, a.translation;
    [[r.r0.x, r.r0.y, r.r0.z, t.x],
     [r.r1.x, r.r1.y, r.r1.z, t.y],
     [r.r2.x, r.r2.y, r.r2.z, t.z],
     [0.0, 0.0, 0.0, 1.0]]
  }

  predicate IsHomogeneous(m: Matrix)
    requires IsMatrix(m, 4, 4)
  {
    m[3] == [0.0, 0.0, 0.0, 1.0]
  }

  /** Reading a pose back from its matrix loses nothing. */
  lemma PoseFromMatrixOfPose(a: Transform3)
    ensures PoseFromMatrix(MatrixOfPose(a)) == a
  {
  }

  /** A homogeneous matrix is exactly the matrix of the pose read from it. */
  lemma MatrixOfPoseFromMatrix(m: Matrix)
    requires IsMatrix(m, 4, 4) && IsHomogeneous(m)
    ensures MatrixOfPose(PoseFromMatrix(m)) == m
  {
    var n := MatrixOfPose(PoseFromMatrix(m));
    forall i | 0 <= i < 4
      ensures n[i] == m[i]
    {
      assert forall j :: 0 <= j < 4 ==> n[i][j] == m[i][j];
    }
  }

  /** pcl::transformPointCloud with a 4x4 matrix: only the top three rows are used. */
  function TransformCloudByMatrix(m: Matrix, c: Cloud): Cloud
    requires IsMatrix(m, 4, 4)
  {
    TransformCloud(PoseFromMatrix(m), c)
  }

  /** Building [R t] from a pose and transforming by it is the same as moving the cloud by the pose. */
  lemma TransformCloudByMatrixOfPose(a: Transform3, c: Cloud)
    ensures TransformCloudByMatrix(MatrixOfPose(a), c) == TransformCloud(a, c)
  {
    PoseFromMatrixOfPose(a);
  }
}
