/**
 * Point and cloud records of the segment-tracking demo.
 *
 * Coordinates, colours and normals are modelled as reals; the
 * single-precision floats of the PCL point types are not modelled.
 * A cloud keeps the three header fields the demo reads or writes
 * (width, height, is_dense) and its point vector.
 */
module PointTypes {

  /** A possibly-null shared pointer (boost::shared_ptr): None is null. */
  datatype Option<T> = None | Some(value: T)

  /** pcl::PointXYZRGB: a position and the packed colour value. */
  datatype PointXYZRGB = PointXYZRGB(x: real, y: real, z: real, rgb: real)

  /** pcl::Normal: the three normal components normal[0..2]; its curvature is not modelled. */
  datatype Normal = Normal(nx: real, ny: real, nz: real)

  /** pcl::PointXYZRGBNormal: the tracker's reference point type, without its curvature. */
  datatype PointXYZRGBNormal =
    PointXYZRGBNormal(x: real, y: real, z: real, rgb: real, nx: real, ny: real, nz: real)

  /** pcl::PointXYZ: what the particle display draws. */
  datatype PointXYZ = PointXYZ(x: real, y: real, z: real)

  /** pcl::tracking::ParticleXYZRPY: a 6-DoF pose hypothesis and its weight. */
  datatype ParticleXYZRPY =
    ParticleXYZRPY(x: real, y: real, z: real, roll: real, pitch: real, yaw: real, weight: real)

  /** pcl::PointCloud<P>: the point vector and the header fields width, height, is_dense. */
  datatype Cloud<P> = Cloud(points: seq<P>, width: nat, height: nat, isDense: bool)

  type RgbCloud = Cloud<PointXYZRGB>
  type NormalCloud = Cloud<Normal>
  type RefCloud = Cloud<PointXYZRGBNormal>

  /** A default-constructed pcl::PointCloud: no points, 0 x 0, dense. */
  function EmptyCloud<P>(): Cloud<P> {
    Cloud([], 0, 0, true)
  }

  /** The header agrees with the point vector: width * height points. */
  predicate Organized<P>(c: Cloud<P>) {
    c.width * c.height == |c.points|
  }
}
