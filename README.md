# PointCloudLocalization in Dafny

A model of the pose estimator in LOCUS's `PointCloudLocalization`, with proofs
about it. The estimator keeps two rigid transforms:

- the *incremental estimate*, which odometry seeds and registration refines;
- the *integrated estimate*, the sensor pose in the fixed frame.

A measurement update takes the result of a GICP registration: the aligned
cloud, a 4x4 transform T and a fitness score. It turns T into a candidate
pose update and screens the candidate with a threshold rule. An accepted
candidate is composed onto the incremental estimate. Accepted or not, the
integrated estimate is then composed with the incremental estimate, so a
rejected measurement coasts on the previous motion.

When the flag is set, the update also builds the information matrix H that
`ComputeICPCovariance` accumulates. For each aligned point it forms a 3x6
Jacobian from closed-form expressions and adds JᵀJ, starting from zero.

Modules:

- `Geometry` (`geometry.dfy`): vectors, 3x3 matrices and rigid transforms
  over `real`. `PoseUpdate` and `PoseInverse` have the standard SE(3)
  definitions, and the file proves the algebra the estimator relies on.
  Norm bounds are compared through squared norms.
- `Clouds` (`clouds.dfy`): clouds of XYZI points, and moving a whole cloud
  by a rigid transform.
- `Matrices` (`matrices.dfy`): Eigen's zero matrix, sum and JᵀJ over
  sequences of rows, plus the facts about quadratic forms and symmetry that
  the H lemmas use.
- `Registration` (`registration.dfy`): the registration result, and reading
  a 4x4 homogeneous matrix as a pose and back.
- `Covariance` (`covariance.dfy`): the Jacobian, the H accumulation loop and
  the row-major copy of a 6x6 covariance into the 36 slots of a ROS message.
  The sines and cosines of roll, pitch and yaw enter as six reals, so every
  Jacobian entry is a polynomial.
- `Localization` (`localization.dfy`): the threshold rule and the
  measurement step as pure functions, and their lemmas. Also the class
  `PointCloudLocalization`, whose fields are the two estimates, the stamp
  and the fitness score. Its methods are proved to update those fields
  exactly as the pure functions say.

Two `geometry_utils` functions are not part of this model: `Rot3::ToEulerZYX`,
and the sines and cosines of `Rot3::Roll/Pitch/Yaw`. The class receives each
as a function value when it is built.

Null output pointers are modelled as a `PointCloudBuffer?` argument.

Three behaviours of the code that the model keeps as they are:

- An identity registration still advances the integrated estimate by the
  incremental estimate (276-277). `IdentityMeasurementCoasts` proves that
  both estimates stay unchanged when the incremental estimate is the
  identity, and `IdentityMeasurementMovesIntegrated` proves the converse for
  a rigid integrated estimate: if neither estimate changes, the incremental
  estimate was the identity.
- H is inverted without a singularity guard (379), so the model has none.
- `aligned_query` receives the query moved by T (256).

## Model

| member | source | states |
|---|---|---|
| Geometry.NormSq | point_cloud_localization/src/PointCloudLocalization.cc:266-267 | the squared norm under `Norm()` is never negative |
| Geometry.NormAtMostIsNormComparison | point_cloud_localization/src/PointCloudLocalization.cc:266-267 | comparing squared norms, with a non-negative bound required, is the same as comparing the norm (any non-negative root) with the bound |
| Geometry.NormAtMost | point_cloud_localization/src/PointCloudLocalization.cc:266-267 | `Norm(v) <= m` as `0 <= m && NormSq(v) <= m*m`; agrees with the real norm by NormAtMostIsNormComparison |
| Geometry.ZeroNormAtMost | point_cloud_localization/src/PointCloudLocalization.cc:266-267 | a zero vector satisfies every non-negative bound |
| Geometry.PoseUpdate | point_cloud_localization/src/PointCloudLocalization.cc:189 | gu::PoseUpdate: (Ra·Rb, Ra·tb + ta), the standard SE(3) composition; its properties are the PoseUpdate lemmas below |
| Geometry.PoseInverse | point_cloud_localization/src/PointCloudLocalization.cc:211-212 | gu::PoseInverse: (Rᵀ, −Rᵀ·t); for a rigid transform it is the two-sided inverse (PoseInverseIsInverse) |
| Geometry.Apply | point_cloud_localization/src/PointCloudLocalization.cc:197 | moving one point by a transform: R·p + t |
| Clouds.TransformCloud | point_cloud_localization/src/PointCloudLocalization.cc:197 | pcl::transformPointCloud with a rigid transform: every position is moved, intensities and order are kept |
| Registration.PoseFromMatrix | point_cloud_localization/src/PointCloudLocalization.cc:258-262 | pose_update: translation from T(0..2, 3), rotation from T's upper-left 3x3 block |
| Registration.TransformCloudByMatrix | point_cloud_localization/src/PointCloudLocalization.cc:256 | pcl::transformPointCloud with a 4x4 matrix: the cloud moved by the pose of the matrix's top three rows |
| Covariance.TranslationOf | point_cloud_localization/src/PointCloudLocalization.cc:316-318 | t_x, t_y, t_z read from T's last column |
| Matrices.Zeros | point_cloud_localization/src/PointCloudLocalization.cc:334 | the zero matrix of the given shape |
| Matrices.Add | point_cloud_localization/src/PointCloudLocalization.cc:377 | the entrywise sum of two matrices of the same shape, which it keeps |
| Matrices.Gram | point_cloud_localization/src/PointCloudLocalization.cc:377 | J.transpose() * J: n×n, entry (a, b) is column a of J dotted with column b; symmetric (GramSymmetric) and with xᵀ(JᵀJ)x the sum of squares of J x (QuadGram) |
| Localization.Accepted | point_cloud_localization/src/PointCloudLocalization.cc:265-267 | the threshold rule: thresholding off, or ‖translation‖ ≤ max_translation and ‖Euler angles‖ ≤ max_rotation, compared through squares (AcceptedExactly ties it to the norms) |
| Localization.MeasurementStep | point_cloud_localization/src/PointCloudLocalization.cc:264-277 | an accepted candidate is composed onto the incremental estimate on the right; then the integrated estimate is composed with the (new) incremental estimate, accepted or not |
| Localization.FixedFrameTransform | point_cloud_localization/src/PointCloudLocalization.cc:188-189 | compose(integrated, incremental), rigid whenever both estimates are |
| Localization.SensorFrameTransform | point_cloud_localization/src/PointCloudLocalization.cc:211-212 | the inverse of compose(integrated, incremental); for rigid estimates it composes with the fixed-frame transform to the identity on both sides |
| Geometry.PoseUpdateIdentity | point_cloud_localization/src/PointCloudLocalization.cc:268 | composing with the identity on either side changes nothing |
| Geometry.PoseUpdateAssociative | point_cloud_localization/src/PointCloudLocalization.cc:268-277 | composition is associative |
| Geometry.PoseUpdateNotCommutative | point_cloud_localization/src/PointCloudLocalization.cc:268 | composition is not commutative: a unit shift and a quarter turn give different results in the two orders |
| Geometry.PoseUpdateApply | point_cloud_localization/src/PointCloudLocalization.cc:188-197 | applying compose(a, b) to a point is applying b, then a |
| Geometry.PoseUpdateOrthonormal | point_cloud_localization/src/PointCloudLocalization.cc:268-277 | composing two rigid transforms gives a rigid transform |
| Geometry.PoseInverseIsInverse | point_cloud_localization/src/PointCloudLocalization.cc:211-212 | for a rigid transform, PoseInverse is rigid and a two-sided inverse under composition |
| Geometry.ApplyPoseInverse | point_cloud_localization/src/PointCloudLocalization.cc:211-220 | applying the inverse after a rigid transform gives the point back |
| Clouds.TransformCloudPoseUpdate | point_cloud_localization/src/PointCloudLocalization.cc:188-197 | moving a cloud by compose(a, b) is moving it by b, then by a |
| Clouds.TransformCloudIdentity | point_cloud_localization/src/PointCloudLocalization.cc:197 | the identity leaves a cloud unchanged |
| Clouds.TransformCloudInverse | point_cloud_localization/src/PointCloudLocalization.cc:211-220 | moving by a rigid transform and then by its inverse gives the cloud back |
| Registration.MatrixOfPose | point_cloud_localization/src/PointCloudLocalization.cc:193-195 | the matrix built from a pose is 4x4 |
| Registration.PoseFromMatrixOfPose | point_cloud_localization/src/PointCloudLocalization.cc:193-195 | reading the pose back from the 4x4 matrix built from it gives that pose |
| Registration.MatrixOfPoseFromMatrix | point_cloud_localization/src/PointCloudLocalization.cc:258-262 | a homogeneous 4x4 T equals the matrix built from the pose read out of it |
| Registration.TransformCloudByMatrixOfPose | point_cloud_localization/src/PointCloudLocalization.cc:193-197 | transforming by the 4x4 matrix of a pose moves the cloud by that pose |
| Covariance.Jacobian | point_cloud_localization/src/PointCloudLocalization.cc:343-369 | J is 3x6; J11, J15, J16, J24, J26, J34 and J35 are zero; each rotational entry is its row's translational entry times a factor of the point and the angles alone |
| Covariance.Information | point_cloud_localization/src/PointCloudLocalization.cc:333-378 | H over the first k points is 6x6 |
| Covariance.AccumulateInformation | point_cloud_localization/src/PointCloudLocalization.cc:316-378 | starting from zero and adding JᵀJ point by point, the loop yields H over the whole aligned cloud, with T's last column as the translation |
| Covariance.InformationSymmetric | point_cloud_localization/src/PointCloudLocalization.cc:333-378 | H is symmetric |
| Covariance.InformationPositiveSemidefinite | point_cloud_localization/src/PointCloudLocalization.cc:333-378 | xᵀHx ≥ 0 for every six-vector x |
| Covariance.JacobianGramStructure | point_cloud_localization/src/PointCloudLocalization.cc:343-377 | in each point's JᵀJ, x, y and z are uncoupled from each other, and x is uncoupled from roll |
| Covariance.InformationTranslationBlock | point_cloud_localization/src/PointCloudLocalization.cc:333-378 | all six off-diagonal entries of H's translational 3x3 block are zero, and so are H's (roll, x) and (x, roll) entries |
| Covariance.InformationPrefix | point_cloud_localization/src/PointCloudLocalization.cc:338-378 | H after k points depends only on the first k points |
| Covariance.InformationConcat | point_cloud_localization/src/PointCloudLocalization.cc:338-378 | H of two concatenated clouds is the sum of their H |
| Covariance.InformationSwapHalves | point_cloud_localization/src/PointCloudLocalization.cc:338-378 | the two halves of a cloud may be visited in either order |
| Covariance.Flatten | point_cloud_localization/src/PointCloudLocalization.cc:418-422 | 36 slots; entry (r, c) sits in slot 6r + c |
| Covariance.SlotOfEntry | point_cloud_localization/src/PointCloudLocalization.cc:419-420 | slot 6r + c is in range, and reads back as row (6r + c)/6 = r and column (6r + c)%6 = c |
| Covariance.UnflattenFlatten | point_cloud_localization/src/PointCloudLocalization.cc:418-422 | the slots determine the matrix: reading rows back from them gives the matrix |
| Covariance.FlattenUnflatten | point_cloud_localization/src/PointCloudLocalization.cc:418-422 | every slot is filled from exactly one entry: flattening the matrix read from 36 slots gives those slots |
| Covariance.FillCovariance | point_cloud_localization/src/PointCloudLocalization.cc:418-422 | after the loop, slot i holds entry (i/6, i%6) for every i below 36 |
| Localization.AcceptedExactly | point_cloud_localization/src/PointCloudLocalization.cc:265-267 | with nt and nr the norms of the translation and the Euler angles, a candidate is accepted iff thresholding is off, or nt ≤ max_translation and nr ≤ max_rotation (both inclusive) |
| Localization.RejectedWhenEitherBoundFails | point_cloud_localization/src/PointCloudLocalization.cc:265-274 | with thresholding on, exceeding either bound alone rejects the candidate |
| Localization.IdentityAccepted | point_cloud_localization/src/PointCloudLocalization.cc:265-268 | the identity candidate, whose Euler angles are zero, is accepted whenever both bounds are non-negative |
| Localization.AcceptedMeasurementFolds | point_cloud_localization/src/PointCloudLocalization.cc:268-277 | on acceptance, incremental := compose(old incremental, candidate), and integrated := compose(compose(old integrated, old incremental), candidate) |
| Localization.RejectedMeasurementCoasts | point_cloud_localization/src/PointCloudLocalization.cc:269-277 | on rejection the incremental estimate is kept, the integrated estimate advances by it, and the candidate has no influence |
| Localization.IdentityMeasurementCoasts | point_cloud_localization/src/PointCloudLocalization.cc:265-277 | accepting or rejecting an identity candidate gives the same estimates, and both estimates stay unchanged when the incremental estimate is the identity |
| Localization.IdentityMeasurementMovesIntegrated | point_cloud_localization/src/PointCloudLocalization.cc:276-277 | for a rigid integrated estimate, an identity registration that leaves both estimates unchanged implies the incremental estimate was the identity; otherwise the integrated estimate moves |
| Localization.MeasurementStepKeepsRigid | point_cloud_localization/src/PointCloudLocalization.cc:268-277 | from rigid estimates and a rigid candidate, a measurement yields rigid estimates |
| Localization.SmallTranslationAccepted | point_cloud_localization/src/PointCloudLocalization.cc:265-268 | a 1 cm translation with a 1 m bound is accepted, and from an identity incremental estimate it becomes the incremental estimate |
| Localization.SmallTranslationRejected | point_cloud_localization/src/PointCloudLocalization.cc:265-277 | the same translation with a 1 mm bound is rejected, and the integrated estimate advances by the kept incremental estimate |
| Localization.FrameTransformsRoundTrip | point_cloud_localization/src/PointCloudLocalization.cc:188-220 | for rigid estimates, the sensor-frame and fixed-frame transforms undo each other, in both orders |
| Localization.PointCloudLocalization.constructor | point_cloud_localization/src/PointCloudLocalization.cc:112-113 | the estimator starts with an identity incremental estimate and the given initial integrated estimate |
| Localization.PointCloudLocalization.GetIncrementalEstimate | point_cloud_localization/src/PointCloudLocalization.cc:149-151 | returns the incremental estimate and changes nothing |
| Localization.PointCloudLocalization.GetIntegratedEstimate | point_cloud_localization/src/PointCloudLocalization.cc:153-155 | returns the integrated estimate and changes nothing |
| Localization.PointCloudLocalization.SetIntegratedEstimate | point_cloud_localization/src/PointCloudLocalization.cc:157-159 | replaces the integrated estimate; every other field stays as it was |
| Localization.PointCloudLocalization.MotionUpdate | point_cloud_localization/src/PointCloudLocalization.cc:172-177 | stores the odometry delta as the incremental estimate, keeps the integrated estimate, stamp and fitness, and returns true |
| Localization.PointCloudLocalization.MeasurementUpdate | point_cloud_localization/src/PointCloudLocalization.cc:225-310 | a null output returns false with nothing changed, not even the stamp. Otherwise: stamp = query stamp × 1000, fitness = the registration's, the output is the query moved by T's top three rows, the estimates take one measurement step with T's pose and the threshold verdict, H is returned iff covariance computation is on, and the result is true |
| Localization.PointCloudLocalization.TransformPointsToFixedFrame | point_cloud_localization/src/PointCloudLocalization.cc:179-200 | a null output returns false; otherwise the output is the cloud moved by compose(integrated, incremental); the estimator never changes |
| Localization.PointCloudLocalization.TransformPointsToSensorFrame | point_cloud_localization/src/PointCloudLocalization.cc:202-223 | a null output returns false; otherwise the output is the cloud moved by the inverse of compose(integrated, incremental); the estimator never changes |

## Left out

- GICP registration (`icp.align`, `getFinalTransformation`, `getFitnessScore`, 238-255) is a foreign library. Its aligned cloud, T and fitness score are the input `RegistrationResult`.
- The `reference` argument of `MeasurementUpdate` is not modelled: only GICP and publishing use it.
- `pcl::transformPointCloud` is modelled as moving each position by the rigid transform from the top three rows of the matrix, keeping intensities and order.
- The bottom row of the `tf` matrix in `TransformPointsTo*` is left uninitialised in the code. pcl does not read it, and the model fills it with 0 0 0 1.
- `H.inverse()`, the scaling by the fitness score, the SVD and the condition number (379-389) are Eigen numerics and are not modelled. `MeasurementUpdate` returns H instead of the covariance.
- Localization.PointCloudLocalization.MeasurementUpdate: returns the information matrix H, not the published covariance H⁻¹ × fitness, because matrix inversion is not modelled.
- Covariance.Jacobian: does not state that row i holds the partial derivatives of a squared residual component. The model has no calculus, so only the zero pattern and the row-multiple structure are stated.
- Floating point is not modelled: all arithmetic is on reals. This covers the single-precision `Matrix4f` T, rounding, and NaN, which would fail both norm comparisons in the code.
- Trigonometry is not modelled. The sines and cosines of roll, pitch and yaw are six real parameters, supplied by the class's `anglesOf` function.
- `Rot3::ToEulerZYX` is not modelled. The class's `toEulerZYX` function supplies it.
- The internals of `geometry_utils` are not part of this model. `PoseUpdate` and `PoseInverse` use the standard SE(3) definitions, `Norm()` is compared through its square, and building a `Rot3` from nine entries is taken to copy them as they are.
- The timestamp conversion `fromNSec(stamp * 1e3)` is modelled as exact multiplication by 1000 on naturals, so the double-precision rounding is left out.
- ROS plumbing is not modelled: `Initialize`, `LoadParameters`, `RegisterCallbacks`, `UpdateTimestamp` and logging.
- The constructor takes the loaded parameters and the initial integrated estimate. The fiducial quaternion-to-RPY conversion (103-113) is not modelled.
- Publishing is not modelled: the TF broadcasts (161-169, 300-307), `PublishPoints`, `PublishConditionNumber` and the ROS message parts of `PublishPose`. Only the covariance copy loop of `PublishPose` is modelled.
- The zero covariance published when covariance computation is off (279-280, 289-292) is not modelled. The model returns no H in that case.
- `internal/src/loop_closure_tools/save_graph.py` is a client for a remote ROS service with no logic of its own, so it is not modelled.
