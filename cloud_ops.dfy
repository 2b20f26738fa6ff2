/**
 * The record-building loops the demo writes around its PCL calls:
 * attaching normals to points (addNormalToCloud and the identical loop
 * of the steady-state branch), gathering a cluster out of the off-plane
 * cloud, and projecting particles to xyz points for display.
 *
 * Each loop is a method proved against a recursive specification
 * function; the lemmas give the index-wise meaning of those functions
 * and the round trips back to their inputs.
 */
module CloudOps {
  import opened PointTypes

  // ---------------------------------------------------------------
  // Attaching normals
  // ---------------------------------------------------------------

  /** One merged record: x, y, z, rgb from the point, the normal from the normal. */
  function MergePoint(p: PointXYZRGB, n: Normal): PointXYZRGBNormal {
    PointXYZRGBNormal(p.x, p.y, p.z, p.rgb, n.nx, n.ny, n.nz)
  }

  /** The records appended for `ps`, each point paired with the normal of the same index. */
  function Zip(ps: seq<PointXYZRGB>, ns: seq<Normal>): (r: seq<PointXYZRGBNormal>)
    requires |ns| >= |ps|
    ensures |r| == |ps|
  {
    if ps == [] then [] else [MergePoint(ps[0], ns[0])] + Zip(ps[1..], ns[1..])
  }

  /** Record `i` of the merge comes from point `i` and normal `i`. */
  lemma {:induction false} ZipAt(ps: seq<PointXYZRGB>, ns: seq<Normal>, i: nat)
    requires |ns| >= |ps| && i < |ps|
    ensures Zip(ps, ns)[i] == MergePoint(ps[i], ns[i])
  {
    if i > 0 {
      ZipAt(ps[1..], ns[1..], i - 1);
    }
  }

  /** The position-and-colour part of a merged record. */
  function PointPart(q: PointXYZRGBNormal): PointXYZRGB {
    PointXYZRGB(q.x, q.y, q.z, q.rgb)
  }

  /** The normal part of a merged record. */
  function NormalPart(q: PointXYZRGBNormal): Normal {
    Normal(q.nx, q.ny, q.nz)
  }

  function PointParts(qs: seq<PointXYZRGBNormal>): seq<PointXYZRGB> {
    if qs == [] then [] else [PointPart(qs[0])] + PointParts(qs[1..])
  }

  function NormalParts(qs: seq<PointXYZRGBNormal>): seq<Normal> {
    if qs == [] then [] else [NormalPart(qs[0])] + NormalParts(qs[1..])
  }

  /**
   * Merging loses none of the modelled fields: the merged records give back
   * exactly the input points and the first |ps| normals.
   */
  lemma {:induction false} ZipRoundTrip(ps: seq<PointXYZRGB>, ns: seq<Normal>)
    requires |ns| >= |ps|
    ensures PointParts(Zip(ps, ns)) == ps
    ensures NormalParts(Zip(ps, ns)) == ns[..|ps|]
  {
    if ps != [] {
      var z := Zip(ps, ns);
      assert z[0] == MergePoint(ps[0], ns[0]) && z[1..] == Zip(ps[1..], ns[1..]);
      ZipRoundTrip(ps[1..], ns[1..]);
      assert ns[..|ps|] == [ns[0]] + ns[1..][..|ps| - 1];
    }
  }

  /** The cloud addNormalToCloud produces into a fresh result: merged points, header of `cloud`. */
  function MergeNormals(cloud: RgbCloud, normals: NormalCloud): RefCloud
    requires |normals.points| >= |cloud.points|
  {
    Cloud(Zip(cloud.points, normals.points), cloud.width, cloud.height, cloud.isDense)
  }

  /**
   * addNormalToCloud: copies width, height and is_dense from `cloud` into
   * `dst` and appends one merged record per point of `cloud` to the points
   * already in `dst`. The source reads normals->points[i] for every i below
   * |cloud|, so the normals must be at least as many as the points.
   */
  method AddNormalToCloud(cloud: RgbCloud, normals: NormalCloud, dst: RefCloud)
    returns (result: RefCloud)
    requires |normals.points| >= |cloud.points|
    ensures result.width == cloud.width && result.height == cloud.height
    ensures result.isDense == cloud.isDense
    ensures |result.points| == |dst.points| + |cloud.points|
    ensures result.points[..|dst.points|] == dst.points
    ensures forall i :: 0 <= i < |cloud.points| ==>
      result.points[|dst.points| + i] == MergePoint(cloud.points[i], normals.points[i])
    ensures result.points == dst.points + Zip(cloud.points, normals.points)
    ensures dst.points == [] ==> result == MergeNormals(cloud, normals)
    ensures dst.points == [] && Organized(cloud) ==> Organized(result)
  {
    result := dst.(width := cloud.width, height := cloud.height, isDense := cloud.isDense);
    var i := 0;
    while i < |cloud.points|
      invariant 0 <= i <= |cloud.points|
      invariant result.width == cloud.width && result.height == cloud.height
      invariant result.isDense == cloud.isDense
      invariant |result.points| == |dst.points| + i
      invariant result.points[..|dst.points|] == dst.points
      invariant forall k :: 0 <= k < i ==>
        result.points[|dst.points| + k] == MergePoint(cloud.points[k], normals.points[k])
    {
      var point := MergePoint(cloud.points[i], normals.points[i]);
      result := result.(points := result.points + [point]);
      i := i + 1;
    }
    var zipped := Zip(cloud.points, normals.points);
    forall k | 0 <= k < |cloud.points|
      ensures result.points[|dst.points| + k] == zipped[k]
    {
      ZipAt(cloud.points, normals.points, k);
    }
    assert result.points == dst.points + zipped;
  }

  // ---------------------------------------------------------------
  // Gathering a cluster
  // ---------------------------------------------------------------

  /** Every index names a point of a cloud with `n` points. */
  predicate IndicesWithin(indices: seq<int>, n: int) {
    forall j :: 0 <= j < |indices| ==> 0 <= indices[j] < n
  }

  /** The points of `ps` named by `indices`, in the order of the indices. */
  function Gather<P>(ps: seq<P>, indices: seq<int>): (r: seq<P>)
    requires IndicesWithin(indices, |ps|)
    ensures |r| == |indices|
  {
    if indices == [] then [] else [ps[indices[0]]] + Gather(ps, indices[1..])
  }

  /** Point `j` of the gathered cloud is the source point named by index `j`. */
  lemma {:induction false} GatherAt<P>(ps: seq<P>, indices: seq<int>, j: nat)
    requires IndicesWithin(indices, |ps|) && j < |indices|
    ensures Gather(ps, indices)[j] == ps[indices[j]]
  {
    if j > 0 {
      GatherAt(ps, indices[1..], j - 1);
    }
  }

  /** A gathered point is always a point of the source cloud. */
  lemma GatherInSource<P>(ps: seq<P>, indices: seq<int>)
    requires IndicesWithin(indices, |ps|)
    ensures forall q :: q in Gather(ps, indices) ==> q in ps
  {}

  /**
   * The segmented cloud of a cluster: the gathered points as one unorganized
   * row (width = number of points, height = 1), dense. GatherCluster is
   * proved to build exactly this cloud.
   */
  function ClusterCloud(nonplane: RgbCloud, indices: seq<int>): RgbCloud
    requires IndicesWithin(indices, |nonplane.points|)
  {
    Cloud(Gather(nonplane.points, indices), |indices|, 1, true)
  }

  /**
   * The cluster gather of the acquisition branch: a fresh cloud holding
   * nonplane[indices[i]] for every i, then marked as one unorganized row
   * and dense.
   */
  method GatherCluster(nonplane: RgbCloud, indices: seq<int>) returns (segmented: RgbCloud)
    requires IndicesWithin(indices, |nonplane.points|)
    ensures |segmented.points| == |indices|
    ensures forall i :: 0 <= i < |indices| ==> segmented.points[i] == nonplane.points[indices[i]]
    ensures segmented.points == Gather(nonplane.points, indices)
    ensures segmented.width == |indices| && segmented.height == 1 && segmented.isDense
    ensures Organized(segmented)
    ensures segmented == ClusterCloud(nonplane, indices)
  {
    segmented := EmptyCloud();
    var i := 0;
    while i < |indices|
      invariant 0 <= i <= |indices|
      invariant |segmented.points| == i
      invariant forall k :: 0 <= k < i ==> segmented.points[k] == nonplane.points[indices[k]]
    {
      var point := nonplane.points[indices[i]];
      segmented := segmented.(points := segmented.points + [point]);
      i := i + 1;
    }
    segmented := segmented.(width := |segmented.points|, height := 1, isDense := true);
    var gathered := Gather(nonplane.points, indices);
    forall k | 0 <= k < |indices| ensures segmented.points[k] == gathered[k] {
      GatherAt(nonplane.points, indices, k);
    }
  }

  // ---------------------------------------------------------------
  // Particle positions
  // ---------------------------------------------------------------

  /** The xyz point drawn for a particle: its translation part. */
  function ParticlePosition(p: ParticleXYZRPY): PointXYZ {
    PointXYZ(p.x, p.y, p.z)
  }

  /** The xyz points drawn for a particle set, one per particle, in order. */
  function Positions(ps: seq<ParticleXYZRPY>): (r: seq<PointXYZ>)
    ensures |r| == |ps|
  {
    if ps == [] then [] else [ParticlePosition(ps[0])] + Positions(ps[1..])
  }

  /** Point `i` of the particle display has the coordinates of particle `i`. */
  lemma {:induction false} PositionsAt(ps: seq<ParticleXYZRPY>, i: nat)
    requires i < |ps|
    ensures Positions(ps)[i] == ParticlePosition(ps[i])
  {
    if i > 0 {
      PositionsAt(ps[1..], i - 1);
    }
  }
}
