/**
  The pose estimator of PointCloudLocalization: an incremental estimate fed by
  odometry and refined by registration results, and an integrated estimate in
  the fixed frame that every measurement advances by the incremental one.

  The decision and the two compositions of a measurement are stated once, as
  the pure functions Accepted and MeasurementStep, and the class's methods are
  proved to change their fields exactly as those functions say.
 */
module Localization {
  import opened Geometry
  import opened Clouds
  import opened Registration
  import Matrices
  import Covariance

  datatype Option<T> = None | Some(value: T)

  /** The loaded parameters the estimator reads: params_.compute_icp_covariance and the three thresholding values. */
  datatype Parameters = Parameters(
    computeIcpCovariance: bool,
    transformThresholding: bool,
    maxTranslation: real,
    maxRotation: real)

  /**
    The threshold rule for a candidate pose update whose rotation has the
    Euler angles `euler`: with thresholding off everything passes; with it
    on, the translation's norm must be at most maxTranslation and the Euler
    angles' norm at most maxRotation, both bounds inclusive.
   */
  predicate Accepted(p: Parameters, candidate: Transform3, euler: Vec3) {
    !p.transformThresholding
    || (NormAtMost(candidate.translation, p.maxTranslation) && NormAtMost(euler, p.maxRotation))
  }

  /** The two running transforms. */
  datatype Estimate = Estimate(incremental: Transform3, integrated: Transform3)

  /**
    One measurement: an accepted candidate is composed onto the incremental
    estimate (on the right); then, accepted or not, the integrated estimate
    is composed with the incremental estimate.
   */
  function MeasurementStep(e: Estimate, candidate: Transform3, accepted: bool): Estimate {
    var incremental := if accepted then PoseUpdate(e.incremental, candidate) else e.incremental;
    Estimate(incremental, PoseUpdate(e.integrated, incremental))
  }

  /** Both transforms are rigid (their rotations are orthonormal). */
  predicate IsRigid(e: Estimate) {
    IsOrthonormal(e.incremental.rotation) && IsOrthonormal(e.integrated.rotation)
  }

  /** compose(integrated, incremental): the sensor pose in the fixed frame, rigid when both estimates are. */
  function FixedFrameTransform(e: Estimate): (f: Transform3)
    ensures IsRigid(e) ==> IsOrthonormal(f.rotation)
  {
    var f := PoseUpdate(e.integrated, e.incremental);
    assert IsRigid(e) ==> IsOrthonormal(f.rotation) by {
      if IsRigid(e) {
        PoseUpdateOrthonormal(e.integrated, e.incremental);
      }
    }
    f
  }

  /**
    The inverse of FixedFrameTransform, from the fixed frame back to the
    sensor: for rigid estimates it undoes FixedFrameTransform on either side.
   */
  function SensorFrameTransform(e: Estimate): (s: Transform3)
    ensures IsRigid(e) ==> PoseUpdate(s, FixedFrameTransform(e)) == Identity
    ensures IsRigid(e) ==> PoseUpdate(FixedFrameTransform(e), s) == Identity
  {
    var f := FixedFrameTransform(e);
    var s := PoseInverse(f);
    assert IsRigid(e) ==> PoseUpdate(s, f) == Identity && PoseUpdate(f, s) == Identity by {
      if IsRigid(e) {
        PoseInverseIsInverse(f);
      }
    }
    s
  }

  // ---------------------------------------------------------------------------
  // The threshold rule

  /**
    Accepted is the source's comparison of the actual norms: for the
    non-negative roots nt and nr of the squared norms, the candidate passes
    iff thresholding is off, or nt <= maxTranslation and nr <= maxRotation.
   */
  lemma AcceptedExactly(p: Parameters, candidate: Transform3, euler: Vec3, nt: real, nr: real)
    requires 0.0 <= nt && nt * nt == NormSq(candidate.translation)
    requires 0.0 <= nr && nr * nr == NormSq(euler)
    ensures Accepted(p, candidate, euler)
      <==> !p.transformThresholding || (nt <= p.maxTranslation && nr <= p.maxRotation)
  {
    NormAtMostIsNormComparison(candidate.translation, nt, p.maxTranslation);
    NormAtMostIsNormComparison(euler, nr, p.maxRotation);
  }

  /** With thresholding on, failing either bound alone is enough to be rejected. */
  lemma RejectedWhenEitherBoundFails(p: Parameters, candidate: Transform3, euler: Vec3, nt: real, nr: real)
    requires 0.0 <= nt && nt * nt == NormSq(candidate.translation)
    requires 0.0 <= nr && nr * nr == NormSq(euler)
    requires p.transformThresholding && (nt > p.maxTranslation || nr > p.maxRotation)
    ensures !Accepted(p, candidate, euler)
  {
    AcceptedExactly(p, candidate, euler, nt, nr);
  }

  /** The identity candidate, whose Euler angles are zero, passes whenever both bounds are non-negative. */
  lemma IdentityAccepted(p: Parameters, euler: Vec3)
    requires 0.0 <= p.maxTranslation && 0.0 <= p.maxRotation && euler == Zero
    ensures Accepted(p, Identity, euler)
  {
    ZeroNormAtMost(p.maxTranslation);
    ZeroNormAtMost(p.maxRotation);
  }

  // ---------------------------------------------------------------------------
  // What a measurement does to the estimates

  /**
    An accepted candidate reaches the integrated estimate exactly once, after
    the incremental estimate that was there before.
   */
  lemma AcceptedMeasurementFolds(e: Estimate, candidate: Transform3)
    ensures MeasurementStep(e, candidate, true).incremental == PoseUpdate(e.incremental, candidate)
    ensures MeasurementStep(e, candidate, true).integrated
         == PoseUpdate(PoseUpdate(e.integrated, e.incremental), candidate)
  {
    PoseUpdateAssociative(e.integrated, e.incremental, candidate);
  }

  /**
    A rejected candidate is never used: the incremental estimate stays and
    the integrated estimate advances by it once more (coasting).
   */
  lemma RejectedMeasurementCoasts(e: Estimate, candidate: Transform3, other: Transform3)
    ensures MeasurementStep(e, candidate, false) == Estimate(e.incremental, PoseUpdate(e.integrated, e.incremental))
    ensures MeasurementStep(e, candidate, false) == MeasurementStep(e, other, false)
  {
  }

  /**
    An identity registration changes nothing beyond coasting, whether it is
    accepted or not; with an identity incremental estimate it leaves both
    estimates as they were.
   */
  lemma IdentityMeasurementCoasts(e: Estimate)
    ensures MeasurementStep(e, Identity, true) == MeasurementStep(e, Identity, false)
    ensures e.incremental == Identity ==> MeasurementStep(e, Identity, true) == e
  {
    PoseUpdateIdentity(e.incremental);
    PoseUpdateIdentity(e.integrated);
  }

  /**
    The converse, for a rigid integrated estimate: if an identity registration
    leaves both estimates as they were, the incremental estimate was the
    identity. Otherwise the integrated estimate moves (coasting).
   */
  lemma IdentityMeasurementMovesIntegrated(e: Estimate, accepted: bool)
    requires IsOrthonormal(e.integrated.rotation)
    requires MeasurementStep(e, Identity, accepted) == e
    ensures e.incremental == Identity
  {
    var a, b := e.integrated, e.incremental;
    PoseUpdateIdentity(b);
    assert PoseUpdate(a, b) == a;
    PoseInverseIsInverse(a);
    PoseUpdateAssociative(PoseInverse(a), a, b);
    PoseUpdateIdentity(b);
  }

  /**
    From rigid estimates a measurement yields rigid estimates, provided the
    candidate is rigid when it is accepted; a discarded candidate, rigid or
    not, cannot break rigidity.
   */
  lemma MeasurementStepKeepsRigid(e: Estimate, candidate: Transform3, accepted: bool)
    requires IsRigid(e) && (accepted ==> IsOrthonormal(candidate.rotation))
    ensures IsRigid(MeasurementStep(e, candidate, accepted))
  {
    if accepted {
      PoseUpdateOrthonormal(e.incremental, candidate);
      PoseUpdateOrthonormal(e.integrated, PoseUpdate(e.incremental, candidate));
    } else {
      PoseUpdateOrthonormal(e.integrated, e.incremental);
    }
  }

  /** A small translation (1 cm along x, bound 1 m) from rest is accepted and becomes the incremental estimate. */
  lemma SmallTranslationAccepted(e: Estimate, p: Parameters)
    requires e.incremental == Identity
    requires p.transformThresholding && p.maxTranslation == 1.0 && 0.0 <= p.maxRotation
    ensures var candidate := Transform3(Vec3(0.01, 0.0, 0.0), Identity3);
      Accepted(p, candidate, Zero)
      && MeasurementStep(e, candidate, Accepted(p, candidate, Zero)).incremental == candidate
  {
    var candidate := Transform3(Vec3(0.01, 0.0, 0.0), Identity3);
    assert NormAtMost(candidate.translation, 1.0) by {
      assert NormSq(candidate.translation) == 0.0001;
    }
    ZeroNormAtMost(p.maxRotation);
    assert MeasurementStep(e, candidate, true).incremental == candidate by {
      PoseUpdateIdentity(candidate);
    }
  }

  /**
    The same translation with a bound of 1 mm is rejected: the incremental
    estimate is kept and the integrated estimate advances by it, not by the
    candidate.
   */
  lemma SmallTranslationRejected(e: Estimate, p: Parameters)
    requires p.transformThresholding && p.maxTranslation == 0.001
    ensures var candidate := Transform3(Vec3(0.01, 0.0, 0.0), Identity3);
      !Accepted(p, candidate, Zero)
      && MeasurementStep(e, candidate, Accepted(p, candidate, Zero))
         == Estimate(e.incremental, PoseUpdate(e.integrated, e.incremental))
  {
  }

  // ---------------------------------------------------------------------------
  // The frame transforms

  /** Moving a cloud to the fixed frame and back to the sensor frame gives it back, and so does the reverse trip. */
  lemma FrameTransformsRoundTrip(e: Estimate, c: Cloud)
    requires IsRigid(e)
    ensures TransformCloud(SensorFrameTransform(e), TransformCloud(FixedFrameTransform(e), c)) == c
    ensures TransformCloud(FixedFrameTransform(e), TransformCloud(SensorFrameTransform(e), c)) == c
  {
    var f := FixedFrameTransform(e);
    PoseUpdateOrthonormal(e.integrated, e.incremental);
    TransformCloudInverse(f, c);
    PoseInverseIsInverse(f);
    TransformCloudPoseUpdate(f, PoseInverse(f), c);
    TransformCloudIdentity(c);
  }

  // ---------------------------------------------------------------------------
  // The estimator object

  /** An output point cloud the caller passes by pointer. */
  class PointCloudBuffer {
    var points: Cloud

    constructor()
      ensures points == []
    {
      points := [];
    }
  }

  class PointCloudLocalization {
    var incrementalEstimate: Transform3
    var integratedEstimate: Transform3
    /** The time of the last measurement, in nanoseconds. */
    var stamp: nat
    var icpFitnessScore: real

    const params: Parameters
    /** Rot3::ToEulerZYX of geometry_utils, which is not part of this model. */
    const toEulerZYX: Mat3 -> Vec3
    /** The sines and cosines of Rot3::Roll, Pitch and Yaw, which are not part of this model. */
    const anglesOf: Mat3 -> Covariance.Angles

    /**
      The estimator after LoadParameters: the integrated estimate is the
      initial pose read from the fiducial calibration, and the incremental
      estimate is a default-constructed transform, the identity.
     */
    constructor(initial: Transform3, params: Parameters, toEulerZYX: Mat3 -> Vec3, anglesOf: Mat3 -> Covariance.Angles)
      ensures incrementalEstimate == Identity && integratedEstimate == initial
      ensures stamp == 0 && icpFitnessScore == 0.0
      ensures this.params == params && this.toEulerZYX == toEulerZYX && this.anglesOf == anglesOf
    {
      incrementalEstimate := Identity;
      integratedEstimate := initial;
      stamp := 0;
      icpFitnessScore := 0.0;
      this.params := params;
      this.toEulerZYX := toEulerZYX;
      this.anglesOf := anglesOf;
    }

    function Current(): Estimate
      reads this
    {
      Estimate(incrementalEstimate, integratedEstimate)
    }

    function GetIncrementalEstimate(): (r: Transform3)
      reads this
      ensures r == Current().incremental
    {
      incrementalEstimate
    }

    function GetIntegratedEstimate(): (r: Transform3)
      reads this
      ensures r == Current().integrated
    {
      integratedEstimate
    }

    /** Replaces the integrated estimate; nothing else changes. */
    method SetIntegratedEstimate(integrated: Transform3)
      modifies this
      ensures integratedEstimate == integrated
      ensures incrementalEstimate == old(incrementalEstimate)
      ensures stamp == old(stamp) && icpFitnessScore == old(icpFitnessScore)
    {
      integratedEstimate := integrated;
    }

    /** Stores the odometry increment as the incremental estimate; nothing else changes. */
    method MotionUpdate(incrementalOdom: Transform3) returns (ok: bool)
      modifies this
      ensures ok
      ensures incrementalEstimate == incrementalOdom
      ensures integratedEstimate == old(integratedEstimate)
      ensures stamp == old(stamp) && icpFitnessScore == old(icpFitnessScore)
    {
      incrementalEstimate := incrementalOdom;
      ok := true;
    }

    /**
      A measurement with the registration's result `reg` for the cloud
      `query` stamped `queryStamp` microseconds. Without an output cloud
      nothing changes and the answer is false. Otherwise the stamp and the
      fitness are stored, the output receives the query moved by T, the
      estimates take one MeasurementStep with T's pose and the threshold
      rule's verdict, and, when requested, the information matrix H of the
      aligned cloud is computed.
     */
    method MeasurementUpdate(query: Cloud, queryStamp: nat, reg: RegistrationResult, alignedQuery: PointCloudBuffer?)
      returns (ok: bool, information: Option<Matrices.Matrix>)
      requires WellFormed(reg)
      modifies this, alignedQuery
      ensures alignedQuery == null ==> !ok && information == None && unchanged(this)
      ensures alignedQuery != null ==>
        var poseUpdate := PoseFromMatrix(reg.transform);
        && ok
        && stamp == queryStamp * 1000
        && icpFitnessScore == reg.fitness
        && alignedQuery.points == TransformCloudByMatrix(reg.transform, query)
        && Current() == MeasurementStep(old(Current()), poseUpdate,
                                        Accepted(params, poseUpdate, toEulerZYX(poseUpdate.rotation)))
        && information == (if params.computeIcpCovariance
                           then Some(Covariance.Information(reg.aligned, Covariance.TranslationOf(reg.transform),
                                                            anglesOf(poseUpdate.rotation), |reg.aligned|))
                           else None)
    {
      if alignedQuery == null {
        return false, None;
      }
      stamp := queryStamp * 1000;
      icpFitnessScore := reg.fitness;

      var t := reg.transform;
      alignedQuery.points := TransformCloudByMatrix(t, query);
      var poseUpdate := PoseFromMatrix(t);

      if !params.transformThresholding
         || (NormAtMost(poseUpdate.translation, params.maxTranslation)
             && NormAtMost(toEulerZYX(poseUpdate.rotation), params.maxRotation))
      {
        incrementalEstimate := PoseUpdate(incrementalEstimate, poseUpdate);
      }
      integratedEstimate := PoseUpdate(integratedEstimate, incrementalEstimate);

      if params.computeIcpCovariance {
        var h := Covariance.AccumulateInformation(reg.aligned, t, anglesOf(poseUpdate.rotation));
        information := Some(h);
      } else {
        information := None;
      }
      ok := true;
    }

    /** Moves `points` into the fixed frame by compose(integrated, incremental); the estimator does not change. */
    method TransformPointsToFixedFrame(points: Cloud, transformed: PointCloudBuffer?) returns (ok: bool)
      modifies transformed
      ensures unchanged(this)
      ensures transformed == null ==> !ok
      ensures transformed != null ==> ok && transformed.points == TransformCloud(FixedFrameTransform(Current()), points)
    {
      if transformed == null {
        return false;
      }
      var estimate := PoseUpdate(integratedEstimate, incrementalEstimate);
      var tf := MatrixOfPose(estimate);
      transformed.points := TransformCloudByMatrix(tf, points);
      TransformCloudByMatrixOfPose(estimate, points);
      ok := true;
    }

    /** Moves `points` from the fixed frame into the sensor frame by the inverse transform; the estimator does not change. */
    method TransformPointsToSensorFrame(points: Cloud, transformed: PointCloudBuffer?) returns (ok: bool)
      modifies transformed
      ensures unchanged(this)
      ensures transformed == null ==> !ok
      ensures transformed != null ==> ok && transformed.points == TransformCloud(SensorFrameTransform(Current()), points)
    {
      if transformed == null {
        return false;
      }
      var estimate := PoseInverse(PoseUpdate(integratedEstimate, incrementalEstimate));
      var tf := MatrixOfPose(estimate);
      transformed.points := TransformCloudByMatrix(tf, points);
      TransformCloudByMatrixOfPose(estimate, points);
      ok := true;
    }
  }
}
