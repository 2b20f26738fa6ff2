# OpenNI segment tracking: the controller around the PCL pipeline

This project models, in Dafny, the code that the OpenNI segment-tracking demo
(`openni_segment_tracking.cpp`) wraps around its PCL calls, and proves what
that code promises.

The demo tracks a rigid object in a live point-cloud stream with a particle
filter. Each frame is filtered and downsampled. While the one-shot
acquisition latch `firstp_` is open, the frame goes through acquisition:
- a RANSAC plane fit;
- a projection of the whole downsampled frame onto that plane, the convex hull
  of the projected points, and the plane coordinate transform built from it;
- extraction of the points above the hull, then Euclidean clustering;
- a random choice of one cluster, which gets normals and becomes the tracker's
  reference cloud.

Once the latch closes, every frame gets normals attached and goes to the
particle filter. A second callback shows the downsampled cloud, the particles
and the tracked result.

What is modelled:
- **The two callbacks as a state machine.** `SegmentTracking.OpenNISegmentTracking`
  is a class whose fields are the demo's fields. Its tracker is a second class,
  `SegmentTracking.ParticleFilterTracker`. `CloudCallback` (cloud_cb) and
  `VizCallback` (viz_cb) are proved to change the object's state exactly as the
  pure functions `TrackingSpec.CloudStep` and `TrackingSpec.VizStep` say. The
  latch, acquisition, tracking and display properties are lemmas about those
  functions. The lemmas also cover any sequence of frames (`TrackingSpec.Run`).
- **The record-building loops.** These are `addNormalToCloud` and the identical
  inline loop of the tracking branch, the cluster gather, and the particle copy
  of `drawParticles`. Each is a method with a loop, proved against a recursive
  specification function (`Zip`, `Gather`, `Positions`). Lemmas give the
  index-wise meaning of each function, and a round trip for `Zip`.
- **The shape of `estimatePlaneCoordinate`.** Differences, cross products, dot
  products, scaled sums and the blend coefficients tmp, beta2 and alpha are
  computed exactly over the reals. Normalization, the square root and the value
  of a quotient by zero are uninterpreted functions (`Numerics`).
- **The PCL stages as function values.** Pass-through, voxel grid, RANSAC,
  projection, hull, prism, index extraction, clustering, normal estimation and
  the particle filter's `compute` are fields of a `PclStages.Stages` record.
  The callback receives a fresh record with every frame, which stands for the
  randomness of RANSAC and of the particle filter. `Stages.Valid` holds the only
  library guarantees the demo's code relies on:
  - normal estimation yields one normal per point;
  - clustering yields clusters whose indices are in range and whose sizes lie in
    [100, 25000];
  - the particle filter's `compute` returns early on an empty input cloud and
    then leaves the particle set and the result as they were. The stage returns
    `None` for such an early return.
- **`rand()`.** The callback takes its value as a `nat` parameter.

Two behaviours of the code that one might expect to be guarded are modelled as
written:
- Degenerate (collinear) hull points do not give the identity transform. The
  code only checks for at least 3 hull points, and so does
  `EstimatePlaneCoordinate`.
- An empty observed cloud is not checked by the demo. The code always sets the
  input cloud and calls `compute` in the steady-state branch, and so does
  `TrackingSpec.TrackStep`. The skip happens inside the library's `compute`,
  which returns early on an empty cloud. The particles and result are then
  kept, and on the first tracked frame they stay null.

The one place where the model departs from the code is the zero-cluster case of
the acquisition branch. There the code divides by zero, so the model takes the
intended behaviour: no target, and acquisition is retried on the next frame.
See "Findings".

## Model

| member | source | states |
|---|---|---|
| `CloudOps.Zip` | openni_segment_tracking.cpp:376-387 | the merged records are exactly as many as the input points (needs the recursive calls' contract) |
| `CloudOps.ZipAt` | openni_segment_tracking.cpp:378-386 | merged record i has x, y, z, rgb of point i and the normal of normal i |
| `CloudOps.ZipRoundTrip` | openni_segment_tracking.cpp:376-387 | merging loses none of the modelled fields (curvature is not modelled): the point parts give back the input points and the normal parts give back the first \|cloud\| normals |
| `CloudOps.AddNormalToCloud` | openni_segment_tracking.cpp:369-388 | needs \|normals\| >= \|cloud\|; copies width, height and is_dense from the input; appends exactly one record per input point to the existing result, record i built from cloud[i] and normals[i], earlier points untouched; an organized input gives an organized result |
| `CloudOps.Gather` | openni_segment_tracking.cpp:445-449 | the gathered points are exactly as many as the indices |
| `CloudOps.GatherAt` | openni_segment_tracking.cpp:447-448 | gathered point j is nonplane[indices[j]] |
| `CloudOps.GatherInSource` | openni_segment_tracking.cpp:445-449 | every gathered point is a point of the off-plane cloud |
| `CloudOps.GatherCluster` | openni_segment_tracking.cpp:443-452 | needs every index within the off-plane cloud; the segmented cloud has \|indices\| points, point i equals nonplane[indices[i]], width = size, height = 1, is_dense = true; the result is exactly `ClusterCloud` |
| `CloudOps.Positions` | openni_segment_tracking.cpp:217-226 | one xyz point per particle |
| `CloudOps.PositionsAt` | openni_segment_tracking.cpp:219-225 | point i has the x, y, z of particle i |
| `PlaneCoordinate.FromColumns` | openni_segment_tracking.cpp:527-543 | the fill loops on the identity put x, y, z in columns 0-2 and the position in column 3, and leave the bottom row [0, 0, 0, 1] |
| `PlaneCoordinate.EstimateFrame` | openni_segment_tracking.cpp:495-540 | the z axis is flipped so that hull point 1 has a non-positive component along it; the origin is point 1 minus its components along y and x; y is the normalized blend of xx and yy |
| `PlaneCoordinate.EstimatePlaneCoordinate` | openni_segment_tracking.cpp:490-548 | identity for a hull of fewer than 3 points; otherwise columns x, y, z and the position; the bottom row is [0, 0, 0, 1] in both cases; the z column never points away from the sensor as seen from hull point 1 |
| `PlaneCoordinate.FrameOriginIsProjection` | openni_segment_tracking.cpp:537-540 | with an orthonormal x, y the origin has no component along x or y, and along any z orthogonal to both it agrees with hull point 1 |
| `PlaneCoordinate.PlaneOriginOnPlane` | openni_segment_tracking.cpp:527-545 | for a hull of 3 or more points with orthonormal x, y columns, the translation column is the projection of the sensor origin onto the plane through hull point 1 |
| `PlaneCoordinate.BlendCancelsWorldX` | openni_segment_tracking.cpp:510-522 | for any three hull points and any normalize and sqrt: whenever the normalized edge xx has a world-x component, the blended y axis alpha * xx + beta * yy of `EstimateFrame`, with alpha = -beta * tmp, has none |
| `PlaneCoordinate.BlendHasNoWorldX` | openni_segment_tracking.cpp:518-522 | for any xx with a world-x component and any yy, the blend with tmp = ux.yy / ux.xx, beta = sqrt(1 / (1 + tmp^2)) and alpha = -beta * tmp has no world-x component |
| `Acquisition.SelectCluster` | openni_segment_tracking.cpp:441 | rand() % n is a cluster index below n when n > 0, 0 when n = 1, and rand() itself when it is below n |
| `Acquisition.Decide` | openni_segment_tracking.cpp:402-462 | skip the frame exactly when the plane has at most 3 inliers; no target exactly when there are more than 3 inliers and no cluster; otherwise acquire a cluster index below the cluster count |
| `Acquisition.DecideAsWritten` | openni_segment_tracking.cpp:405-443 | the decision as written is undefined exactly when the plane has more than 3 inliers and no cluster survives |
| `Acquisition.AsWrittenDividesByZero` | openni_segment_tracking.cpp:441 | a plane of 4 inliers with zero clusters passes the guard and reaches rand() % 0 |
| `Acquisition.DecideAgreesWhereDefined` | openni_segment_tracking.cpp:405-443 | the corrected and the written decisions agree wherever the written one is defined, and the written one is undefined exactly where the corrected one reports no cluster |
| `TrackingSpec.InitialSatisfiesInv` | openni_segment_tracking.cpp:87-98 | the constructed state (latch open, no new cloud, null clouds, a fresh tracker) satisfies the invariant |
| `TrackingSpec.CloudStepPublishes` | openni_segment_tracking.cpp:395-400 | every frame publishes the filtered and downsampled clouds and ends with new_cloud_ set (line 486) |
| `TrackingSpec.CloudStepPreservesInv` | openni_segment_tracking.cpp:390-488 | cloud_cb keeps the invariant: the latch is closed exactly when a reference cloud is set; that cloud is a dense single row of 100 to 25000 points; minIndices is half its size; input and particles exist only once the latch is closed |
| `TrackingSpec.FewInliersKeepLatchOpen` | openni_segment_tracking.cpp:402-405 | with the latch open and at most 3 inliers, the latch stays open, the tracker (reference cloud included) is unchanged, and only the published clouds and new_cloud_ change |
| `TrackingSpec.AcquisitionOutcome` | openni_segment_tracking.cpp:405-462 | with the latch open and more than 3 inliers: the tracker transform becomes the identity; the plane transform comes from the hull; the latch closes exactly when a cluster survives; the reference cloud is then the chosen cluster with normals attached, point by point, as a dense single row; minIndices is half of it, between 50 and 12500 |
| `TrackingSpec.TrackingOutcome` | openni_segment_tracking.cpp:463-485 | with the latch closed, the latch stays closed; reference cloud, minIndices, tracker transform and plane transform are unchanged; the tracker input has exactly \|downsampled\| points, point i merged with normal i, and the downsampled cloud's header; the particles and result are the filter's outcome on it when compute runs, and stay as they were when it returns early, as it always does on an empty frame |
| `TrackingSpec.LatchNeverReopens` | openni_segment_tracking.cpp:461 | once closed, no sequence of frames reopens the latch or changes the reference cloud or minIndices |
| `TrackingSpec.RunPreservesInv` | openni_segment_tracking.cpp:390-488 | the invariant holds after any sequence of frames |
| `TrackingSpec.VizStepOutcome` | openni_segment_tracking.cpp:261-284 | without a downsampled cloud the state, new_cloud_ included, is unchanged and nothing is shown; otherwise only new_cloud_ changes, to false; particles are drawn exactly when new_cloud_ was set and particles exist; the result is drawn exactly when the particles were, as the tracker's result pose on its reference cloud |
| `TrackingSpec.FrameThenVizDraws` | openni_segment_tracking.cpp:277-283 | after a frame, viz_cb clears new_cloud_ and draws the particles exactly when the tracker has a particle set; after a tracked frame on which compute ran, the particles and the result are drawn; after a tracked empty frame they are drawn exactly when an earlier frame left a particle set |
| `SegmentTracking.ParticleFilterTracker.constructor` | openni_segment_tracking.cpp:121-122 | the new tracker has no reference cloud, no input and no particle set |
| `SegmentTracking.ParticleFilterTracker.SetReferenceCloud` | openni_segment_tracking.cpp:459 | sets the reference cloud and changes nothing else |
| `SegmentTracking.ParticleFilterTracker.SetMinIndices` | openni_segment_tracking.cpp:460 | sets minIndices and changes nothing else |
| `SegmentTracking.ParticleFilterTracker.SetTrans` | openni_segment_tracking.cpp:420 | sets the reference transform and changes nothing else |
| `SegmentTracking.ParticleFilterTracker.SetInputCloud` | openni_segment_tracking.cpp:364 | sets the input cloud and changes nothing else |
| `SegmentTracking.ParticleFilterTracker.Compute` | openni_segment_tracking.cpp:365 | when the filter step runs, replaces the particle set and result with its outcome on the input cloud and changes nothing else; when compute returns early, changes nothing |
| `SegmentTracking.OpenNISegmentTracking.constructor` | openni_segment_tracking.cpp:87-156 | the latch is open, new_cloud_ is false (line 92), every cloud pointer is null, the tracker is fresh, and the invariant holds |
| `SegmentTracking.OpenNISegmentTracking.Tracking` | openni_segment_tracking.cpp:361-367 | the tracker's input becomes the given cloud; its particles and result become the filter's outcome on that cloud, or stay as they were when compute returns early |
| `SegmentTracking.OpenNISegmentTracking.CloudCallback` | openni_segment_tracking.cpp:390-488 | the new state is CloudStep of the old state, and the invariant is kept |
| `SegmentTracking.OpenNISegmentTracking.AcquireTarget` | openni_segment_tracking.cpp:402-462 | the new state is AcquireStep of the old state |
| `SegmentTracking.OpenNISegmentTracking.SetTarget` | openni_segment_tracking.cpp:443-461 | sets the segmented cloud and a reference cloud that is the gathered cluster with normals attached; minIndices is half its size; the latch is cleared; nothing else changes |
| `SegmentTracking.OpenNISegmentTracking.TrackFrame` | openni_segment_tracking.cpp:463-485 | the new state is TrackStep of the old state: normals_, then the merged tracking cloud handed to the tracker, then compute |
| `SegmentTracking.OpenNISegmentTracking.DrawParticles` | openni_segment_tracking.cpp:210-240 | no cloud (false) exactly when the tracker has no particle set; otherwise one xyz point per particle, point i with the coordinates of particle i |
| `SegmentTracking.OpenNISegmentTracking.DrawResult` | openni_segment_tracking.cpp:242-258 | needs a reference cloud; hands over the tracker's result pose and the reference cloud it transforms |
| `SegmentTracking.OpenNISegmentTracking.VizCallback` | openni_segment_tracking.cpp:260-284 | the new state and what is shown are VizStep of the old state, and the invariant is kept |

## Left out

- The PCL algorithms themselves are not modelled: PassThrough, VoxelGrid, SACSegmentation, ProjectInliers, ConvexHull, ExtractPolygonalPrismData, ExtractIndices, EuclideanClusterExtraction, NormalEstimationOMP and the particle filter's `compute` with its coherences. They are foreign library calls and appear only as the function values of `PclStages.Stages`. The numeric settings of lines 95-154, 300-302 and 426 are written down as constants of `PclStages` for reference; only the cluster size bounds enter the model, through `Stages.Valid` and the invariant. Not written down at all: the initial noise covariance and mean (lines 118-119 and 125-126), `setOptimizeCoefficients` (line 104), the thread counts (lines 93 and 122) and `setNegative (false)` (line 155).
- The wrappers `filterPassThrough`, `gridSample`, `planeSegmentation`, `planeProjection`, `convexHull`, `euclideanSegment` and `normalEstimation` (lines 286-359) are single calls of those stages. The model calls the stage functions directly.
- The OpenNI grabber, `run`, `main`, `usage` and device handling: these are I/O and process plumbing.
- Visualization: `drawLine`, `drawPlaneCoordinate`, `drawSearchArea`, the viewer's add/update calls, the background colour and camera reset. `viz_cb` returns what it would show as a `VizOutput` value. `drawResult` hands over the pose and the reference cloud; the transform `toEigenMatrix` / `transformPointCloud` belongs to the library and is not modelled.
- The mutex, the visualizer thread and the one-second `sleep` of `viz_cb` are not modelled, because their purpose is concurrency and timing. The two callbacks are sequential methods.
- The `FPS_CALC_*` timing macros and the console output are not modelled.
- `PlaneCoordinate.EstimatePlaneCoordinate`: floating point is not modelled. `normalize`, `sqrt` and the float value of `ux.dot (yy) / ux.dot (xx)` when the divisor is 0 (an infinity or NaN) are uninterpreted functions of a `Numerics` value, so orthonormality of the basis is not proved. The lemmas about the origin take orthonormality as a hypothesis. Vectors are exact reals rather than `float`.
- The concrete value of `rand()` is a parameter. The conversions between `int` and `size_t` around `rand() % size()` are not modelled, since rand() is non-negative and the result is below the cluster count.
- The unused locals of the acquisition branch (`affine_plane`, `offset`, `tracking_const_ptr`) and the never-used fields `plane_cloud_`, `sensor_view` and `reference_view` are not modelled.
- The `curvature` fields of `pcl::Normal` and `pcl::PointXYZRGBNormal` are not modelled. The merge loops (lines 383-385 and 478-480) copy only `normal[0..2]`, so the program's merged records do not carry the estimated curvature. The model's round trip `CloudOps.ZipRoundTrip` is about the modelled fields only.
- Point-cloud headers (stamp, frame id, sensor origin and orientation) are not modelled. The only header fields kept are width, height and is_dense, which are the only ones the code touches.
- `SegmentTracking.OpenNISegmentTracking.constructor`: it takes the contents of `plane_trans_` as a parameter (Eigen leaves them uninitialized). It also takes the tracker's library defaults (minIndices, transform, result) as parameters.

## Findings

| source | as written | input that shows it | evidently intended | confidence | as-written member | corrected member |
|---|---|---|---|---|---|---|
| openni_segment_tracking.cpp:441 | `rand () % cluster_indices.size ()` runs whenever the plane has more than 3 inliers, with no check that any cluster survived | a frame whose plane has 4 inliers and where no cluster of 100 to 25000 points lies above the hull: `cluster_indices.size () == 0`, a remainder by zero (undefined behaviour) | no target is available; the latch stays open and acquisition is retried on the next frame | high (not executed) | `Acquisition.DecideAsWritten`, `Acquisition.AsWrittenDividesByZero` | `Acquisition.Decide`, `Acquisition.DecideAgreesWhereDefined` |
