/**
 * OpenNISegmentTracking and its particle filter tracker as classes whose
 * methods update their fields in place. Each state-changing method is
 * proved to move the object's abstract state (`State()`) exactly as the
 * functions of TrackingSpec say, and to keep the invariant `Valid()`.
 *
 * The two callbacks run one after the other; the mutex that serializes
 * them in the source is not modelled.
 */
module SegmentTracking {
  import opened PointTypes
  import opened CloudOps
  import opened PlaneCoordinate
  import opened PclStages
  import opened Acquisition
  import opened TrackingSpec

  /** The fields of ParticleFilterOMPTracker that the demo sets or reads. */
  class ParticleFilterTracker {
    var referenceCloud: Option<RefCloud>
    var minIndices: int
    var trans: Matrix4
    var inputCloud: Option<RefCloud>
    var particles: Option<seq<ParticleXYZRPY>>
    var result: ParticleXYZRPY

    function State(): TrackerState
      reads this
    {
      TrackerState(referenceCloud, minIndices, trans, inputCloud, particles, result)
    }

    /** A tracker as the library constructs it: no clouds and no particle set yet. */
    constructor (minIndices0: int, trans0: Matrix4, result0: ParticleXYZRPY)
      ensures State() == TrackerState(None, minIndices0, trans0, None, None, result0)
      ensures FreshTracker(State())
    {
      referenceCloud, minIndices, trans := None, minIndices0, trans0;
      inputCloud, particles, result := None, None, result0;
    }

    /** setReferenceCloud: the target model to track. */
    method SetReferenceCloud(cloud: RefCloud)
      modifies this
      ensures State() == old(State()).(referenceCloud := Some(cloud))
    {
      referenceCloud := Some(cloud);
    }

    /** setMinIndices: the correspondence count below which tracking is degraded. */
    method SetMinIndices(n: int)
      modifies this
      ensures State() == old(State()).(minIndices := n)
    {
      minIndices := n;
    }

    /** setTrans: the reference transform the particles are relative to. */
    method SetTrans(m: Matrix4)
      modifies this
      ensures State() == old(State()).(trans := m)
    {
      trans := m;
    }

    /** setInputCloud: the observation for the next compute. */
    method SetInputCloud(cloud: RefCloud)
      modifies this
      ensures State() == old(State()).(inputCloud := Some(cloud))
    {
      inputCloud := Some(cloud);
    }

    /**
     * compute: replaces the particle set and the result with the filter's
     * outcome on the input cloud, or changes nothing when it returns early.
     */
    method Compute(filter: RefCloud -> Option<Estimate>)
      requires inputCloud.Some?
      modifies this
      ensures filter(old(inputCloud).value).None? ==> State() == old(State())
      ensures filter(old(inputCloud).value).Some? ==>
        State() == old(State()).(particles := Some(filter(old(inputCloud).value).value.particles),
                                 result := filter(old(inputCloud).value).value.result)
    {
      var e := filter(inputCloud.value);
      if e.Some? {
        particles := Some(e.value.particles);
        result := e.value.result;
      }
    }
  }

  class OpenNISegmentTracking {
    const tracker: ParticleFilterTracker
    var firstp: bool
    var newCloud: bool
    var cloudPass: Option<RgbCloud>
    var cloudPassDownsampled: Option<RgbCloud>
    var normals: Option<NormalCloud>
    var cloudHull: Option<RgbCloud>
    var hullVertices: seq<seq<nat>>
    var nonplaneCloud: Option<RgbCloud>
    var segmentedCloud: Option<RgbCloud>
    var planeTrans: Matrix4

    function State(): ControllerState
      reads this, tracker
    {
      ControllerState(firstp, newCloud, cloudPass, cloudPassDownsampled, normals, cloudHull,
                      hullVertices, nonplaneCloud, segmentedCloud, planeTrans, tracker.State())
    }

    ghost predicate Valid()
      reads this, tracker
    {
      Inv(State())
    }

    /**
     * The constructor: the latch open, no new cloud, every cloud pointer
     * null, plane_trans_ as left by Eigen (a parameter), and a freshly
     * constructed tracker.
     */
    constructor (planeTrans0: Matrix4, minIndices0: int, trans0: Matrix4, result0: ParticleXYZRPY)
      ensures Valid() && fresh(tracker)
      ensures State() == Initial(planeTrans0, TrackerState(None, minIndices0, trans0, None, None, result0))
    {
      tracker := new ParticleFilterTracker(minIndices0, trans0, result0);
      firstp, newCloud := true, false;
      cloudPass, cloudPassDownsampled, normals := None, None, None;
      cloudHull, hullVertices, nonplaneCloud, segmentedCloud := None, [], None, None;
      planeTrans := planeTrans0;
    }

    /** tracking: hands the cloud to the tracker and runs one filter step. */
    method Tracking(cloud: RefCloud, filter: RefCloud -> Option<Estimate>)
      modifies tracker
      ensures tracker.State() == AfterCompute(old(tracker.State()).(inputCloud := Some(cloud)), filter(cloud))
    {
      tracker.SetInputCloud(cloud);
      tracker.Compute(filter);
    }

    /**
     * cloud_cb: one frame. The new state is CloudStep of the old one, so the
     * latch, acquisition and tracking properties proved about CloudStep
     * hold of every call.
     */
    method CloudCallback(raw: RgbCloud, st: Stages, random: nat)
      requires Valid() && st.Valid()
      modifies this, tracker
      ensures Valid()
      ensures State() == CloudStep(old(State()), raw, st, random)
    {
      var pass := st.passThrough(raw);
      cloudPass := Some(pass);
      var down := st.gridSample(pass);
      cloudPassDownsampled := Some(down);
      if firstp {
        AcquireTarget(down, st, random);
      } else {
        TrackFrame(down, st);
      }
      newCloud := true;
      CloudStepPreservesInv(old(State()), raw, st, random);
    }

    /** The acquisition branch of cloud_cb, taken while the latch is open. */
    method AcquireTarget(down: RgbCloud, st: Stages, random: nat)
      requires st.Valid()
      modifies this, tracker
      ensures State() == AcquireStep(old(State()), down, st, random)
    {
      var fit := st.planeSegmentation(down);
      if |fit.inliers| > MaxRejectedInliers {
        var projected := st.planeProjection(down, fit.coefficients);
        var hull := st.convexHull(projected);
        cloudHull := Some(hull.cloud);
        hullVertices := hull.vertices;
        planeTrans := EstimatePlaneCoordinate(hull.cloud, st.numerics);
        tracker.SetTrans(Identity);
        var polygon := st.prismSegment(hull.cloud, down);
        var nonplane := st.extractIndices(down, polygon);
        nonplaneCloud := Some(nonplane);
        var clusters := st.euclideanSegment(nonplane);
        assert ClustersWithin(clusters, |nonplane.points|);
        if |clusters| > 0 {
          var segmentIndex := SelectCluster(random, |clusters|);
          SetTarget(nonplane, clusters[segmentIndex], st);
        }
      }
    }

    /**
     * The end of the acquisition branch: gather the chosen cluster, attach its
     * normals, hand it to the tracker with minIndices = size / 2, close the latch.
     */
    method SetTarget(nonplane: RgbCloud, indices: seq<int>, st: Stages)
      requires st.Valid() && IndicesWithin(indices, |nonplane.points|)
      modifies this, tracker
      ensures var segmented := ClusterCloud(nonplane, indices);
        var ref := WithNormals(segmented, st);
        State() == old(State()).(segmentedCloud := Some(segmented),
          tracker := old(State()).tracker.(referenceCloud := Some(ref), minIndices := |ref.points| / 2),
          firstp := false)
    {
      var segmented := GatherCluster(nonplane, indices);
      segmentedCloud := Some(segmented);
      var clusterNormals := st.normalEstimation(segmented);
      var ref := AddNormalToCloud(segmented, clusterNormals, EmptyCloud());
      tracker.SetReferenceCloud(ref);
      tracker.SetMinIndices(|ref.points| / 2);
      firstp := false;
    }

    /** The steady-state branch of cloud_cb, taken once the latch is closed. */
    method TrackFrame(down: RgbCloud, st: Stages)
      requires st.Valid()
      modifies this, tracker
      ensures State() == TrackStep(old(State()), down, st)
    {
      var frameNormals := st.normalEstimation(down);
      normals := Some(frameNormals);
      var trackingCloud := AddNormalToCloud(down, frameNormals, EmptyCloud());
      Tracking(trackingCloud, st.particleFilter);
    }

    /**
     * drawParticles: None when the tracker has no particle set; otherwise
     * a cloud with one xyz point per particle, point i at the translation
     * of particle i.
     */
    method DrawParticles() returns (drawn: Option<Cloud<PointXYZ>>)
      ensures drawn.Some? <==> tracker.particles.Some?
      ensures drawn.Some? ==>
        var ps := tracker.particles.value;
        && |drawn.value.points| == |ps|
        && forall i :: 0 <= i < |ps| ==>
             drawn.value.points[i] == ParticlePosition(ps[i])
      ensures drawn == ParticleCloud(tracker.particles)
    {
      if tracker.particles.None? {
        return None;
      }
      var ps := tracker.particles.value;
      var particleCloud: Cloud<PointXYZ> := EmptyCloud();
      var i := 0;
      while i < |ps|
        invariant 0 <= i <= |ps|
        invariant particleCloud.width == 0 && particleCloud.height == 0 && particleCloud.isDense
        invariant |particleCloud.points| == i
        invariant forall k :: 0 <= k < i ==> particleCloud.points[k] == ParticlePosition(ps[k])
      {
        var point := ParticlePosition(ps[i]);
        particleCloud := particleCloud.(points := particleCloud.points + [point]);
        i := i + 1;
      }
      forall k | 0 <= k < |ps| ensures particleCloud.points[k] == Positions(ps)[k] {
        PositionsAt(ps, k);
      }
      assert particleCloud == Cloud(Positions(ps), 0, 0, true);
      drawn := Some(particleCloud);
    }

    /** drawResult: the tracker's result pose and the reference cloud it is applied to. */
    method DrawResult() returns (view: ResultView)
      requires tracker.referenceCloud.Some?
      ensures view.pose == tracker.result && view.reference == tracker.referenceCloud.value
    {
      view := ResultView(tracker.result, tracker.referenceCloud.value);
    }

    /**
     * viz_cb: returns early without touching new_cloud_ when there is no
     * downsampled cloud; otherwise draws the particles if new_cloud_ is set,
     * the result only if the particles were drawn, and clears new_cloud_.
     */
    method VizCallback() returns (out: VizOutput)
      requires Valid()
      modifies this
      ensures Valid()
      ensures (State(), out) == VizStep(old(State()))
    {
      VizStepOutcome(State());
      if cloudPassDownsampled.None? {
        return NothingShown;
      }
      var particleCloud: Option<Cloud<PointXYZ>> := None;
      var result: Option<ResultView> := None;
      if newCloud {
        particleCloud := DrawParticles();
        if particleCloud.Some? {
          var view := DrawResult();
          result := Some(view);
        }
      }
      newCloud := false;
      out := Shown(cloudPassDownsampled.value, particleCloud, result);
    }
  }
}
