/**
 * The shape of estimatePlaneCoordinate: the 4 x 4 transform built from
 * the first three convex-hull points.
 *
 * Differences, cross and dot products and scaled sums are computed
 * exactly over the reals, and so are the blend coefficients tmp, beta2
 * and alpha. The floating-point steps without an exact real counterpart,
 * normalization, the square root and a quotient by zero, are supplied as
 * the functions of a `Numerics` value and are not interpreted.
 */
module PlaneCoordinate {
  import opened PointTypes

  datatype Vec3 = Vec3(x: real, y: real, z: real)

  function Add(a: Vec3, b: Vec3): Vec3 { Vec3(a.x + b.x, a.y + b.y, a.z + b.z) }
  function Sub(a: Vec3, b: Vec3): Vec3 { Vec3(a.x - b.x, a.y - b.y, a.z - b.z) }
  function Neg(a: Vec3): Vec3 { Vec3(-a.x, -a.y, -a.z) }
  function Scale(k: real, a: Vec3): Vec3 { Vec3(k * a.x, k * a.y, k * a.z) }
  function Dot(a: Vec3, b: Vec3): real { a.x * b.x + a.y * b.y + a.z * b.z }
  function Cross(a: Vec3, b: Vec3): Vec3 {
    Vec3(a.y * b.z - a.z * b.y, a.z * b.x - a.x * b.z, a.x * b.y - a.y * b.x)
  }

  /** The world x axis, ux in the source. */
  const UnitX := Vec3(1.0, 0.0, 0.0)

  /** The position of a hull point. */
  function PointVec(p: PointXYZRGB): Vec3 { Vec3(p.x, p.y, p.z) }

  /** One row of an Eigen::Matrix4f. */
  datatype Row4 = Row4(c0: real, c1: real, c2: real, c3: real)

  /** An Eigen::Matrix4f, row by row. */
  datatype Matrix4 = Matrix4(r0: Row4, r1: Row4, r2: Row4, r3: Row4)

  /** The bottom row every rigid transform keeps. */
  const HomogeneousRow := Row4(0.0, 0.0, 0.0, 1.0)

  /** Eigen::Matrix4f::Identity(). */
  const Identity := Matrix4(Row4(1.0, 0.0, 0.0, 0.0), Row4(0.0, 1.0, 0.0, 0.0),
                            Row4(0.0, 0.0, 1.0, 0.0), HomogeneousRow)

  function Entry(r: Row4, j: nat): real
    requires j < 4
  {
    if j == 0 then r.c0 else if j == 1 then r.c1 else if j == 2 then r.c2 else r.c3
  }

  /** The upper three entries of column `j`. */
  function Column(m: Matrix4, j: nat): Vec3
    requires j < 4
  {
    Vec3(Entry(m.r0, j), Entry(m.r1, j), Entry(m.r2, j))
  }

  /**
   * The two fill loops of estimatePlaneCoordinate applied to the identity:
   * columns 0, 1, 2 become x, y, z, column 3 becomes the position, and the
   * bottom row is left as it was in the identity.
   */
  function FromColumns(x: Vec3, y: Vec3, z: Vec3, position: Vec3): (m: Matrix4)
    ensures Column(m, 0) == x && Column(m, 1) == y && Column(m, 2) == z
    ensures Column(m, 3) == position
    ensures m.r3 == HomogeneousRow
  {
    Matrix4(Row4(x.x, y.x, z.x, position.x),
            Row4(x.y, y.y, z.y, position.y),
            Row4(x.z, y.z, z.z, position.z),
            Identity.r3)
  }

  /**
   * The floating-point steps left uninterpreted: Eigen's normalize(), sqrt,
   * and the value of a quotient a / 0 (an infinity or NaN in float, with no
   * real counterpart), as a function of the dividend a.
   */
  datatype Numerics = Numerics(normalize: Vec3 -> Vec3, sqrt: real -> real,
                               quotientByZero: real -> real)

  /**
   * What estimatePlaneCoordinate computes from three hull points: the basis
   * x, y, z and the origin, together with the normalized first edge xx, its
   * normalized cross product yy with z, and the blended, not yet normalized
   * y axis alpha * xx + beta * yy.
   */
  datatype PlaneFrame = PlaneFrame(x: Vec3, y: Vec3, z: Vec3, position: Vec3,
                                   xx: Vec3, yy: Vec3, blended: Vec3)

  /** tmp = ux.dot(yy) / ux.dot(xx), through `num` when the divisor is zero. */
  function Ratio(a: real, b: real, num: Numerics): real {
    if b != 0.0 then a / b else num.quotientByZero(a)
  }

  /**
   * The blend of xx and yy: tmp, beta2 = 1 / (1 + tmp^2), beta = sqrt(beta2)
   * and alpha = -beta * tmp give the y axis alpha * xx + beta * yy.
   */
  function Blend(xx: Vec3, yy: Vec3, num: Numerics): Vec3 {
    var tmp := Ratio(Dot(UnitX, yy), Dot(UnitX, xx), num);
    var beta2 := 1.0 / (1.0 + tmp * tmp);
    var beta := num.sqrt(beta2);
    var alpha := -beta * tmp;
    Add(Scale(alpha, xx), Scale(beta, yy))
  }

  /** The origin of the frame: B plus the components of -B along y and along x. */
  function FrameOrigin(b: Vec3, x: Vec3, y: Vec3): Vec3 {
    Add(Add(b, Scale(-Dot(b, y), y)), Scale(-Dot(b, x), x))
  }

  /**
   * The basis construction from hull points P0, P1 (= B), P2. The normal z
   * is flipped so that it does not point away from the sensor: B . z <= 0.
   */
  function EstimateFrame(p0: PointXYZRGB, p1: PointXYZRGB, p2: PointXYZRGB, num: Numerics)
    : (f: PlaneFrame)
    ensures Dot(PointVec(p1), f.z) <= 0.0
    ensures f.position == FrameOrigin(PointVec(p1), f.x, f.y)
    ensures f.blended == Blend(f.xx, f.yy, num) && f.y == num.normalize(f.blended)
  {
    var b := PointVec(p1);
    var ba := Sub(PointVec(p0), b);
    var bc := Sub(PointVec(p2), b);
    var z0 := num.normalize(Cross(bc, ba));
    var z := if Dot(b, z0) > 0.0 then Neg(z0) else z0;
    var xx := num.normalize(if Dot(ba, UnitX) < 0.0 then Neg(ba) else ba);
    var yy := num.normalize(Cross(z, xx));
    var y0 := Blend(xx, yy, num);
    var x := num.normalize(Cross(y0, z));
    var y := num.normalize(y0);
    PlaneFrame(x, y, z, FrameOrigin(b, x, y), xx, yy, y0)
  }

  /**
   * estimatePlaneCoordinate: the identity when the hull has fewer than
   * three points; otherwise the basis x, y, z of EstimateFrame as the
   * first three columns and its origin as the fourth. The bottom row is
   * [0, 0, 0, 1] either way.
   */
  function EstimatePlaneCoordinate(hull: RgbCloud, num: Numerics): (m: Matrix4)
    ensures |hull.points| < 3 ==> m == Identity
    ensures m.r3 == HomogeneousRow
    ensures |hull.points| >= 3 ==>
      var f := EstimateFrame(hull.points[0], hull.points[1], hull.points[2], num);
      Column(m, 0) == f.x && Column(m, 1) == f.y && Column(m, 2) == f.z &&
      Column(m, 3) == f.position
    ensures |hull.points| >= 3 ==> Dot(PointVec(hull.points[1]), Column(m, 2)) <= 0.0
  {
    if |hull.points| >= 3 then
      var f := EstimateFrame(hull.points[0], hull.points[1], hull.points[2], num);
      FromColumns(f.x, f.y, f.z, f.position)
    else
      Identity
  }

  lemma DotAdd(a: Vec3, b: Vec3, c: Vec3)
    ensures Dot(Add(a, b), c) == Dot(a, c) + Dot(b, c)
  {}

  lemma DotScale(k: real, a: Vec3, c: Vec3)
    ensures Dot(Scale(k, a), c) == k * Dot(a, c)
  {}

  lemma DotSymmetric(a: Vec3, b: Vec3)
    ensures Dot(a, b) == Dot(b, a)
  {}

  /** x and y are unit vectors at right angles (exactly, over the reals). */
  predicate Orthonormal(x: Vec3, y: Vec3) {
    Dot(x, x) == 1.0 && Dot(y, y) == 1.0 && Dot(x, y) == 0.0
  }

  /**
   * When x and y are orthonormal, the origin of the frame is the foot of
   * the perpendicular from the sensor origin onto the plane through B
   * spanned by x and y: it has no component along x or y, and along any
   * direction z orthogonal to both it agrees with B.
   */
  lemma FrameOriginIsProjection(b: Vec3, x: Vec3, y: Vec3, z: Vec3)
    requires Orthonormal(x, y)
    ensures Dot(FrameOrigin(b, x, y), x) == 0.0
    ensures Dot(FrameOrigin(b, x, y), y) == 0.0
    ensures Dot(z, x) == 0.0 && Dot(z, y) == 0.0 ==> Dot(FrameOrigin(b, x, y), z) == Dot(b, z)
  {
    var kb, kx := Dot(b, y), Dot(b, x);
    var p := Add(b, Scale(-kb, y));
    var o := Add(p, Scale(-kx, x));
    forall c: Vec3 ensures Dot(o, c) == Dot(b, c) - kb * Dot(y, c) - kx * Dot(x, c) {
      DotAdd(p, Scale(-kx, x), c);
      DotAdd(b, Scale(-kb, y), c);
      DotScale(-kb, y, c);
      DotScale(-kx, x, c);
    }
    DotSymmetric(x, y);
    DotSymmetric(z, x);
    DotSymmetric(z, y);
  }

  /**
   * For a hull of three or more points with an orthonormal x, y basis, the
   * translation column of the plane transform is the projection of the
   * sensor origin onto the plane through hull point 1: orthogonal to the
   * x and y columns, and, when the z column is orthogonal to both, at the
   * same height along z as hull point 1.
   */
  lemma PlaneOriginOnPlane(hull: RgbCloud, num: Numerics)
    requires |hull.points| >= 3
    ensures var m := EstimatePlaneCoordinate(hull, num);
      Orthonormal(Column(m, 0), Column(m, 1)) ==>
        Dot(Column(m, 3), Column(m, 0)) == 0.0 && Dot(Column(m, 3), Column(m, 1)) == 0.0 &&
        (Dot(Column(m, 2), Column(m, 0)) == 0.0 && Dot(Column(m, 2), Column(m, 1)) == 0.0 ==>
           Dot(Column(m, 3), Column(m, 2)) == Dot(PointVec(hull.points[1]), Column(m, 2)))
  {
    var m := EstimatePlaneCoordinate(hull, num);
    var f := EstimateFrame(hull.points[0], hull.points[1], hull.points[2], num);
    if Orthonormal(f.x, f.y) {
      FrameOriginIsProjection(PointVec(hull.points[1]), f.x, f.y, f.z);
    }
  }

  /** The closed-form blend cancels the world-x component whenever xx has one. */
  lemma BlendHasNoWorldX(xx: Vec3, yy: Vec3, num: Numerics)
    requires xx.x != 0.0
    ensures Blend(xx, yy, num).x == 0.0
  {
    var tmp := Ratio(Dot(UnitX, yy), Dot(UnitX, xx), num);
    var beta := num.sqrt(1.0 / (1.0 + tmp * tmp));
    assert Dot(UnitX, xx) == xx.x && Dot(UnitX, yy) == yy.x;
    assert tmp * xx.x == yy.x;
    calc {
      Blend(xx, yy, num).x;
      (-beta * tmp) * xx.x + beta * yy.x;
      -beta * (tmp * xx.x) + beta * yy.x;
      0.0;
    }
  }

  /**
   * The blend step of EstimateFrame: whenever the normalized first edge xx
   * has a world-x component (so that tmp is a real quotient), the closed
   * form alpha = -beta * tmp cancels it, and the blended y axis lies in the
   * world y-z plane, whatever sqrt and normalize return.
   */
  lemma BlendCancelsWorldX(p0: PointXYZRGB, p1: PointXYZRGB, p2: PointXYZRGB, num: Numerics)
    ensures var f := EstimateFrame(p0, p1, p2, num);
      Dot(UnitX, f.xx) != 0.0 ==> Dot(UnitX, f.blended) == 0.0
  {
    var f := EstimateFrame(p0, p1, p2, num);
    if Dot(UnitX, f.xx) != 0.0 {
      BlendHasNoWorldX(f.xx, f.yy, num);
    }
  }
}
