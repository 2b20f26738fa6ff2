/**
 * The PCL stages the demo calls, and the configuration it gives them.
 *
 * None of these algorithms is modelled. Each stage is a function value
 * of a `Stages` record that the frame callback receives with every
 * frame; a new record per frame stands for the randomness of RANSAC and
 * of the particle filter. `Stages.Valid` states the only guarantees of
 * the library that the demo's own code relies on.
 */
module PclStages {
  import opened PointTypes
  import opened CloudOps
  import opened PlaneCoordinate

  // Configuration given to the stages by the OpenNISegmentTracking constructor
  // and by euclideanSegment.

  /** pass_: points with z outside [0.0, 2.0] are dropped, the cloud stays organized. */
  const PassThroughMin: real := 0.0
  const PassThroughMax: real := 2.0

  /** grid_: voxel leaf size in every dimension. */
  const VoxelLeafSize: real := 0.01

  /** seg_: RANSAC plane fit. */
  const RansacMaxIterations: nat := 1000
  const RansacDistanceThreshold: real := 0.03

  /** ne_: normal estimation search radius. */
  const NormalSearchRadius: real := 0.03

  /** polygon_extract: height band above the plane hull. */
  const PrismMinHeight: real := 0.01
  const PrismMaxHeight: real := 10.0

  /** euclideanSegment: cluster tolerance and the cluster size bounds. */
  const ClusterTolerance: real := 0.05
  const MinClusterSize: nat := 100
  const MaxClusterSize: nat := 25000

  /** tracker_: particle count, iterations per frame and per-dimension step variance. */
  const ParticleNum: nat := 400
  const IterationNum: nat := 1
  const StepNoiseVariance: real := 0.01 * 0.01

  /** Weights of the distance, HSV colour and normal coherences. */
  const DistanceCoherenceWeight: real := 5.0
  const ColorCoherenceWeight: real := 0.1
  const NormalCoherenceWeight: real := 0.1

  /** seg_.segment: the plane coefficients and the inlier indices. */
  datatype PlaneFit = PlaneFit(coefficients: seq<real>, inliers: seq<int>)

  /** chull.reconstruct: the hull points and the hull polygons (pcl::Vertices). */
  datatype Hull = Hull(cloud: RgbCloud, vertices: seq<seq<nat>>)

  /**
   * What tracker_->compute() leaves behind when it runs a filter step: the
   * particle set and the result pose. The stage returns None when compute
   * returns early and keeps the old particle set and result.
   */
  datatype Estimate = Estimate(particles: seq<ParticleXYZRPY>, result: ParticleXYZRPY)

  /** Every cluster names points of a cloud with `n` points and has an admissible size. */
  predicate ClustersWithin(clusters: seq<seq<int>>, n: int) {
    forall k :: 0 <= k < |clusters| ==>
      IndicesWithin(clusters[k], n) && MinClusterSize <= |clusters[k]| <= MaxClusterSize
  }

  datatype Stages = Stages(
    passThrough: RgbCloud -> RgbCloud,                  // filterPassThrough
    gridSample: RgbCloud -> RgbCloud,                   // gridSample
    planeSegmentation: RgbCloud -> PlaneFit,            // planeSegmentation
    planeProjection: (RgbCloud, seq<real>) -> RgbCloud, // planeProjection
    convexHull: RgbCloud -> Hull,                       // convexHull
    prismSegment: (RgbCloud, RgbCloud) -> seq<int>,     // polygon_extract.segment (hull, cloud)
    extractIndices: (RgbCloud, seq<int>) -> RgbCloud,   // extract_positive_.filter
    euclideanSegment: RgbCloud -> seq<seq<int>>,        // euclideanSegment
    normalEstimation: RgbCloud -> NormalCloud,          // normalEstimation
    particleFilter: RefCloud -> Option<Estimate>,       // tracker_->compute on the input cloud
    numerics: Numerics)                                 // floating point of estimatePlaneCoordinate
  {
    /**
     * The library guarantees the demo depends on: normal estimation yields
     * one normal per input point, Euclidean clustering yields clusters of
     * in-range indices whose sizes respect the configured bounds, and the
     * particle filter's compute returns early, without a filter step, on an
     * empty input cloud.
     */
    ghost predicate Valid() {
      && (forall c :: |normalEstimation(c).points| == |c.points|)
      && (forall c :: ClustersWithin(euclideanSegment(c), |c.points|))
      && (forall c: RefCloud :: |c.points| == 0 ==> particleFilter(c).None?)
    }
  }
}
