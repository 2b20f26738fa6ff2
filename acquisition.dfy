/**
 * The decision the frame callback takes while the acquisition latch is
 * open: skip the frame, find no target, or acquire a randomly chosen
 * cluster.
 *
 * The source, as written, evaluates rand() % cluster_indices.size()
 * without checking that any cluster survived; with zero clusters that
 * is a division by zero. `DecideAsWritten` records this; `Decide` is the
 * corrected decision (no target, retry on the next frame) that the rest
 * of the model uses.
 */
module Acquisition {
  import opened PointTypes

  /** A plane needs more than this many inliers before acquisition proceeds. */
  const MaxRejectedInliers: nat := 3

  datatype Decision =
    | InsufficientInliers  // the plane fit has at most 3 inliers: nothing is acquired
    | NoCluster            // a plane but no cluster: nothing is acquired
    | Acquire(clusterIndex: nat)

  /** rand() % n for a non-negative rand() value: a cluster index. */
  function SelectCluster(random: nat, n: nat): (k: nat)
    requires n > 0
    ensures k < n
    ensures n == 1 ==> k == 0
    ensures random < n ==> k == random
  {
    random % n
  }

  /**
   * The acquisition decision for a plane fit with `inlierCount` inliers and
   * `clusterCount` surviving clusters.
   */
  function Decide(inlierCount: nat, clusterCount: nat, random: nat): (d: Decision)
    ensures d.InsufficientInliers? <==> inlierCount <= MaxRejectedInliers
    ensures d.NoCluster? <==> inlierCount > MaxRejectedInliers && clusterCount == 0
    ensures d.Acquire? <==> inlierCount > MaxRejectedInliers && clusterCount > 0
    ensures d.Acquire? ==> d.clusterIndex < clusterCount
  {
    if inlierCount <= MaxRejectedInliers then InsufficientInliers
    else if clusterCount == 0 then NoCluster
    else Acquire(SelectCluster(random, clusterCount))
  }

  /**
   * The same decision as the source writes it: the only guard is the
   * inlier count, and the cluster index is rand() % clusterCount. None
   * stands for the undefined result of that remainder when clusterCount is 0.
   */
  function DecideAsWritten(inlierCount: nat, clusterCount: nat, random: nat): (d: Option<Decision>)
    ensures d.None? <==> inlierCount > MaxRejectedInliers && clusterCount == 0
  {
    if inlierCount <= MaxRejectedInliers then Some(InsufficientInliers)
    else if clusterCount == 0 then None
    else Some(Acquire(random % clusterCount))
  }

  /** A plane of 4 inliers and no surviving cluster passes the guard and reaches rand() % 0. */
  lemma AsWrittenDividesByZero()
    ensures 4 > MaxRejectedInliers
    ensures DecideAsWritten(4, 0, 0).None?
  {}

  /**
   * The corrected decision differs from the written one exactly where the
   * written one is undefined, and there it reports NoCluster.
   */
  lemma DecideAgreesWhereDefined(inlierCount: nat, clusterCount: nat, random: nat)
    ensures DecideAsWritten(inlierCount, clusterCount, random).Some? ==>
      DecideAsWritten(inlierCount, clusterCount, random).value == Decide(inlierCount, clusterCount, random)
    ensures DecideAsWritten(inlierCount, clusterCount, random).None? <==>
      Decide(inlierCount, clusterCount, random) == NoCluster
  {}
}
