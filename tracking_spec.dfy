/**
 * The state of OpenNISegmentTracking and of its particle filter tracker,
 * and the effect of the two callbacks on it, as functions of values.
 *
 * The state machine has two states, told apart by the latch firstp_:
 * while it is set, each frame attempts target acquisition; once an
 * acquisition succeeds it is cleared and every later frame is tracked.
 * The classes in SegmentTracking are proved to follow these functions;
 * the lemmas here state what the source promises about them.
 */
module TrackingSpec {
  import opened PointTypes
  import opened CloudOps
  import opened PlaneCoordinate
  import opened PclStages
  import opened Acquisition

  /** The fields of the particle filter tracker that the demo sets or reads. */
  datatype TrackerState = TrackerState(
    referenceCloud: Option<RefCloud>,
    minIndices: int,
    trans: Matrix4,
    inputCloud: Option<RefCloud>,
    particles: Option<seq<ParticleXYZRPY>>,
    result: ParticleXYZRPY)

  /** The demo's own mutable fields, and its tracker. */
  datatype ControllerState = ControllerState(
    firstp: bool,
    newCloud: bool,
    cloudPass: Option<RgbCloud>,
    cloudPassDownsampled: Option<RgbCloud>,
    normals: Option<NormalCloud>,
    cloudHull: Option<RgbCloud>,
    hullVertices: seq<seq<nat>>,
    nonplaneCloud: Option<RgbCloud>,
    segmentedCloud: Option<RgbCloud>,
    planeTrans: Matrix4,
    tracker: TrackerState)

  /**
   * The state right after construction. The contents of plane_trans_ are
   * indeterminate (Eigen leaves them uninitialized) and the tracker's
   * state is whatever the library constructed, so both are parameters.
   */
  function Initial(planeTrans: Matrix4, tracker: TrackerState): ControllerState
  {
    ControllerState(true, false, None, None, None, None, [], None, None, planeTrans, tracker)
  }

  /** A tracker the library has just constructed: no clouds, no particles. */
  predicate FreshTracker(t: TrackerState) {
    t.referenceCloud.None? && t.inputCloud.None? && t.particles.None?
  }

  /**
   * The invariant of every reachable state: the latch is closed exactly
   * when the tracker holds a reference cloud; that cloud is one gathered
   * cluster (an unorganized, dense row of an admissible size) and
   * minIndices is half its size; the tracker only sees input or
   * particles once the latch is closed.
   */
  predicate Inv(s: ControllerState) {
    && (s.firstp <==> s.tracker.referenceCloud.None?)
    && (s.tracker.inputCloud.Some? ==> !s.firstp)
    && (s.tracker.particles.Some? ==> !s.firstp)
    && (s.tracker.referenceCloud.Some? ==>
          var ref := s.tracker.referenceCloud.value;
          && s.tracker.minIndices == |ref.points| / 2
          && MinClusterSize <= |ref.points| <= MaxClusterSize
          && ref.width == |ref.points| && ref.height == 1 && ref.isDense)
  }

  /**
   * A cloud with its estimated normals attached: the reference cloud built
   * from a cluster, and the steady-state tracking cloud built from a frame.
   */
  function WithNormals(cloud: RgbCloud, st: Stages): RefCloud
    requires st.Valid()
  {
    MergeNormals(cloud, st.normalEstimation(cloud))
  }

  /**
   * The tracker after compute: the filter's particle set and result, or the
   * tracker unchanged when compute returned early.
   */
  function AfterCompute(t: TrackerState, e: Option<Estimate>): TrackerState {
    match e
    case None => t
    case Some(est) => t.(particles := Some(est.particles), result := est.result)
  }

  /**
   * The acquisition branch for the downsampled frame `down`, taken while the
   * latch is open. A plane with more than 3 inliers sets the hull, the plane
   * transform, the tracker's transform (to the identity) and the off-plane
   * cloud; if a cluster survives, one is chosen with the random value, its
   * reference cloud is handed to the tracker with minIndices = size / 2,
   * and the latch closes.
   */
  function AcquireStep(s: ControllerState, down: RgbCloud, st: Stages, random: nat): ControllerState
    requires st.Valid()
  {
    var fit := st.planeSegmentation(down);
    var projected := st.planeProjection(down, fit.coefficients);
    var hull := st.convexHull(projected);
    var nonplane := st.extractIndices(down, st.prismSegment(hull.cloud, down));
    var clusters := st.euclideanSegment(nonplane);
    var planed := s.(cloudHull := Some(hull.cloud), hullVertices := hull.vertices,
                     planeTrans := EstimatePlaneCoordinate(hull.cloud, st.numerics),
                     tracker := s.tracker.(trans := Identity),
                     nonplaneCloud := Some(nonplane));
    match Decide(|fit.inliers|, |clusters|, random)
    case InsufficientInliers => s
    case NoCluster => planed
    case Acquire(k) =>
      var segmented := ClusterCloud(nonplane, clusters[k]);
      var ref := WithNormals(segmented, st);
      planed.(segmentedCloud := Some(segmented),
              tracker := planed.tracker.(referenceCloud := Some(ref), minIndices := |ref.points| / 2),
              firstp := false)
  }

  /**
   * The steady-state branch: normals of the frame into normals_, the merged
   * tracking cloud as the tracker's input, and the particle filter's
   * outcome, if it ran, as its particles and result.
   */
  function TrackStep(s: ControllerState, down: RgbCloud, st: Stages): ControllerState
    requires st.Valid()
  {
    var input := WithNormals(down, st);
    s.(normals := Some(st.normalEstimation(down)),
       tracker := AfterCompute(s.tracker.(inputCloud := Some(input)), st.particleFilter(input)))
  }

  /** cloud_cb on the raw frame `raw`: filter, downsample, take one branch, flag a new cloud. */
  function CloudStep(s: ControllerState, raw: RgbCloud, st: Stages, random: nat): ControllerState
    requires st.Valid()
  {
    var pass := st.passThrough(raw);
    var down := st.gridSample(pass);
    var filtered := s.(cloudPass := Some(pass), cloudPassDownsampled := Some(down));
    var next := if s.firstp then AcquireStep(filtered, down, st, random) else TrackStep(filtered, down, st);
    next.(newCloud := true)
  }

  /** One frame as the callback receives it, with the stage outcomes and rand() value of that frame. */
  datatype Frame = Frame(raw: RgbCloud, stages: Stages, random: nat)

  ghost predicate AllValid(frames: seq<Frame>) {
    forall i :: 0 <= i < |frames| ==> frames[i].stages.Valid()
  }

  /** The state after cloud_cb has run on each frame in turn. */
  function Run(s: ControllerState, frames: seq<Frame>): ControllerState
    requires AllValid(frames)
    decreases |frames|
  {
    if frames == [] then s
    else Run(CloudStep(s, frames[0].raw, frames[0].stages, frames[0].random), frames[1..])
  }

  // ---------------------------------------------------------------
  // Properties of the frame callback
  // ---------------------------------------------------------------

  lemma InitialSatisfiesInv(planeTrans: Matrix4, tracker: TrackerState)
    requires FreshTracker(tracker)
    ensures Inv(Initial(planeTrans, tracker))
  {}

  /** Every frame leaves new_cloud_ set and publishes the filtered and downsampled clouds. */
  lemma CloudStepPublishes(s: ControllerState, raw: RgbCloud, st: Stages, random: nat)
    requires st.Valid()
    ensures var t := CloudStep(s, raw, st, random);
      && t.newCloud
      && t.cloudPass == Some(st.passThrough(raw))
      && t.cloudPassDownsampled == Some(st.gridSample(st.passThrough(raw)))
  {}

  /** The frame callback keeps the invariant. */
  lemma CloudStepPreservesInv(s: ControllerState, raw: RgbCloud, st: Stages, random: nat)
    requires st.Valid() && Inv(s)
    ensures Inv(CloudStep(s, raw, st, random))
  {}

  /**
   * While the latch is open, a plane fit of at most 3 inliers changes
   * nothing but the published clouds and new_cloud_: the latch stays open
   * and the tracker is untouched.
   */
  lemma FewInliersKeepLatchOpen(s: ControllerState, raw: RgbCloud, st: Stages, random: nat)
    requires st.Valid() && s.firstp
    requires |st.planeSegmentation(st.gridSample(st.passThrough(raw))).inliers| <= 3
    ensures var t := CloudStep(s, raw, st, random);
      && t.firstp
      && t.tracker == s.tracker
      && t == s.(cloudPass := t.cloudPass, cloudPassDownsampled := t.cloudPassDownsampled, newCloud := true)
  {}

  /**
   * While the latch is open, a plane fit of more than 3 inliers resets the
   * tracker's transform to the identity and sets the plane transform from
   * the hull; the latch closes exactly when a cluster survives, and then
   * the reference cloud holds, for every i, cluster point i of the
   * off-plane cloud with normal i attached, as one dense row, and
   * minIndices is half its size.
   */
  lemma AcquisitionOutcome(s: ControllerState, raw: RgbCloud, st: Stages, random: nat)
    requires st.Valid() && s.firstp
    requires |st.planeSegmentation(st.gridSample(st.passThrough(raw))).inliers| > 3
    ensures var down := st.gridSample(st.passThrough(raw));
      var fit := st.planeSegmentation(down);
      var hull := st.convexHull(st.planeProjection(down, fit.coefficients));
      var nonplane := st.extractIndices(down, st.prismSegment(hull.cloud, down));
      var clusters := st.euclideanSegment(nonplane);
      var t := CloudStep(s, raw, st, random);
      && t.tracker.trans == Identity
      && t.planeTrans == EstimatePlaneCoordinate(hull.cloud, st.numerics)
      && t.nonplaneCloud == Some(nonplane)
      && (t.firstp <==> |clusters| == 0)
      && (|clusters| == 0 ==> t.tracker.referenceCloud == s.tracker.referenceCloud)
      && (|clusters| > 0 ==>
            var indices := clusters[SelectCluster(random, |clusters|)];
            var normals := st.normalEstimation(ClusterCloud(nonplane, indices));
            && t.tracker.referenceCloud.Some?
            && var ref := t.tracker.referenceCloud.value;
            && |ref.points| == |indices|
            && (forall i :: 0 <= i < |indices| ==>
                  ref.points[i] == MergePoint(nonplane.points[indices[i]], normals.points[i]))
            && ref.width == |indices| && ref.height == 1 && ref.isDense
            && t.tracker.minIndices == |indices| / 2
            && MinClusterSize / 2 <= t.tracker.minIndices <= MaxClusterSize / 2)
  {
    var down := st.gridSample(st.passThrough(raw));
    var fit := st.planeSegmentation(down);
    var hull := st.convexHull(st.planeProjection(down, fit.coefficients));
    var nonplane := st.extractIndices(down, st.prismSegment(hull.cloud, down));
    var clusters := st.euclideanSegment(nonplane);
    assert ClustersWithin(clusters, |nonplane.points|);
    if |clusters| > 0 {
      var indices := clusters[SelectCluster(random, |clusters|)];
      var segmented := ClusterCloud(nonplane, indices);
      var normals := st.normalEstimation(segmented);
      assert |normals.points| == |segmented.points|;
      var ref := MergeNormals(segmented, normals);
      forall i | 0 <= i < |indices|
        ensures ref.points[i] == MergePoint(nonplane.points[indices[i]], normals.points[i])
      {
        ZipAt(segmented.points, normals.points, i);
        GatherAt(nonplane.points, indices, i);
      }
    }
  }

  /**
   * Once the latch is closed, a frame keeps it closed and leaves the
   * reference cloud, minIndices, the tracker's transform and the plane
   * transform as they were; the tracker's input is the downsampled frame
   * with, for every i, normal i attached to point i, under the header of
   * the downsampled frame. The particles and result are the filter's
   * outcome when compute ran, and stay as they were when it returned
   * early, which it always does on an empty frame.
   */
  lemma TrackingOutcome(s: ControllerState, raw: RgbCloud, st: Stages, random: nat)
    requires st.Valid() && !s.firstp
    ensures var down := st.gridSample(st.passThrough(raw));
      var normals := st.normalEstimation(down);
      var t := CloudStep(s, raw, st, random);
      && !t.firstp
      && t.tracker.referenceCloud == s.tracker.referenceCloud
      && t.tracker.minIndices == s.tracker.minIndices
      && t.tracker.trans == s.tracker.trans
      && t.planeTrans == s.planeTrans
      && t.normals == Some(normals)
      && t.tracker.inputCloud.Some?
      && var input := t.tracker.inputCloud.value;
      && |input.points| == |down.points|
      && (forall i :: 0 <= i < |down.points| ==> input.points[i] == MergePoint(down.points[i], normals.points[i]))
      && input.width == down.width && input.height == down.height && input.isDense == down.isDense
      && (st.particleFilter(input).Some? ==>
            && t.tracker.particles == Some(st.particleFilter(input).value.particles)
            && t.tracker.result == st.particleFilter(input).value.result)
      && (st.particleFilter(input).None? ==>
            t.tracker.particles == s.tracker.particles && t.tracker.result == s.tracker.result)
      && (|down.points| == 0 ==>
            t.tracker.particles == s.tracker.particles && t.tracker.result == s.tracker.result)
  {
    var down := st.gridSample(st.passThrough(raw));
    var normals := st.normalEstimation(down);
    assert |normals.points| == |down.points|;
    forall i | 0 <= i < |down.points|
      ensures Zip(down.points, normals.points)[i] == MergePoint(down.points[i], normals.points[i])
    {
      ZipAt(down.points, normals.points, i);
    }
  }

  /**
   * The latch is one-way: from a state where it is closed, no sequence of
   * frames opens it again, replaces the reference cloud or changes
   * minIndices.
   */
  lemma {:induction false} LatchNeverReopens(s: ControllerState, frames: seq<Frame>)
    requires AllValid(frames) && !s.firstp
    ensures var t := Run(s, frames);
      && !t.firstp
      && t.tracker.referenceCloud == s.tracker.referenceCloud
      && t.tracker.minIndices == s.tracker.minIndices
    decreases |frames|
  {
    if frames != [] {
      var f := frames[0];
      TrackingOutcome(s, f.raw, f.stages, f.random);
      LatchNeverReopens(CloudStep(s, f.raw, f.stages, f.random), frames[1..]);
    }
  }

  /** Every state reachable from an invariant state satisfies the invariant. */
  lemma {:induction false} RunPreservesInv(s: ControllerState, frames: seq<Frame>)
    requires AllValid(frames) && Inv(s)
    ensures Inv(Run(s, frames))
    decreases |frames|
  {
    if frames != [] {
      var f := frames[0];
      CloudStepPreservesInv(s, f.raw, f.stages, f.random);
      RunPreservesInv(CloudStep(s, f.raw, f.stages, f.random), frames[1..]);
    }
  }

  // ---------------------------------------------------------------
  // The visualization callback
  // ---------------------------------------------------------------

  /** What drawResult hands to the viewer: the result pose and the reference cloud it transforms. */
  datatype ResultView = ResultView(pose: ParticleXYZRPY, reference: RefCloud)

  /** What one viz_cb call shows. */
  datatype VizOutput =
    | NothingShown
    | Shown(cloud: RgbCloud, particleCloud: Option<Cloud<PointXYZ>>, result: Option<ResultView>)

  /** The particle cloud drawParticles builds, None when the tracker has no particle set. */
  function ParticleCloud(particles: Option<seq<ParticleXYZRPY>>): Option<Cloud<PointXYZ>> {
    match particles
    case None => None
    case Some(ps) => Some(Cloud(Positions(ps), 0, 0, true))
  }

  /**
   * viz_cb: nothing when no downsampled cloud exists yet. Otherwise the
   * downsampled cloud is shown; if new_cloud_ was set the particles are
   * drawn, and the result only when the particles could be drawn; then
   * new_cloud_ is cleared.
   */
  function VizStep(s: ControllerState): (ControllerState, VizOutput)
    requires Inv(s)
  {
    if s.cloudPassDownsampled.None? then (s, NothingShown)
    else
      var particleCloud := if s.newCloud then ParticleCloud(s.tracker.particles) else None;
      var result := if particleCloud.Some?
                    then Some(ResultView(s.tracker.result, s.tracker.referenceCloud.value))
                    else None;
      (s.(newCloud := false), Shown(s.cloudPassDownsampled.value, particleCloud, result))
  }

  /**
   * viz_cb without a downsampled cloud leaves the state alone (new_cloud_
   * included); with one it clears new_cloud_ and changes nothing else. The
   * result is drawn exactly when new_cloud_ was set and the tracker has a
   * particle set, and it is then the tracker's result pose on its
   * reference cloud.
   */
  lemma VizStepOutcome(s: ControllerState)
    requires Inv(s)
    ensures var (t, out) := VizStep(s);
      && (s.cloudPassDownsampled.None? ==> t == s && out == NothingShown)
      && (s.cloudPassDownsampled.Some? ==> t == s.(newCloud := false) && out.Shown?)
      && Inv(t)
      && (out.Shown? ==>
            && out.cloud == s.cloudPassDownsampled.value
            && (out.particleCloud.Some? <==> s.newCloud && s.tracker.particles.Some?)
            && (out.result.Some? <==> out.particleCloud.Some?)
            && (out.result.Some? ==>
                  out.result.value == ResultView(s.tracker.result, s.tracker.referenceCloud.value)))
  {}

  /**
   * A frame followed by a display shows the particles of that frame: after
   * cloud_cb, viz_cb draws exactly when the tracker has particles, and it
   * leaves new_cloud_ cleared. After a tracked frame on which the filter
   * ran, the particles and the result are drawn; after a tracked empty
   * frame they are drawn only if an earlier frame left a particle set.
   */
  lemma FrameThenVizDraws(s: ControllerState, raw: RgbCloud, st: Stages, random: nat)
    requires st.Valid() && Inv(s)
    ensures var down := st.gridSample(st.passThrough(raw));
      var t := CloudStep(s, raw, st, random);
      Inv(t) &&
      var (u, out) := VizStep(t);
      && !u.newCloud
      && out.Shown?
      && (out.particleCloud.Some? <==> t.tracker.particles.Some?)
      && (!s.firstp && st.particleFilter(WithNormals(down, st)).Some? ==>
            out.particleCloud.Some? && out.result.Some?)
      && (!s.firstp && |down.points| == 0 ==>
            (out.particleCloud.Some? <==> s.tracker.particles.Some?))
  {}
}
