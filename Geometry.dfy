/** AutoCAD's geometry value types as far as the flattening rules use them,
    the tolerance every rule compares against, and the two ClearZ helpers. */
module Geometry {

  /** A point in the world coordinate system (AutoCAD's Point3d, a value type). */
  datatype Point3d = Point3d(x: real, y: real, z: real)

  /** A direction in the world coordinate system (AutoCAD's Vector3d). */
  datatype Vector3d = Vector3d(x: real, y: real, z: real)

  /** A point in an entity's own plane (AutoCAD's Point2d), e.g. a polyline vertex. */
  datatype Point2d = Point2d(x: real, y: real)

  /** The threshold below which a depth counts as zero. */
  const TOLERANCE: real := 0.0001

  function Abs(r: real): (a: real)
    ensures a >= 0.0
    ensures a == r || a == -r
  {
    if r < 0.0 then -r else r
  }

  /** The early-exit test of every rule except the spline's: the depth is within tolerance. */
  predicate WithinTolerance(z: real) {
    Abs(z) < TOLERANCE
  }

  /** The spline rule's test, with a strict comparison: the depth is above tolerance. */
  predicate AboveTolerance(z: real) {
    Abs(z) > TOLERANCE
  }

  /** Same X and Y: the two points project onto the same point of the XY plane. */
  predicate SameXY(p: Point3d, q: Point3d) {
    p.x == q.x && p.y == q.y
  }

  predicate SameVectorXY(u: Vector3d, v: Vector3d) {
    u.x == v.x && u.y == v.y
  }

  /** The point with the same X and Y and a zero Z. */
  function ClearZ(p: Point3d): Point3d {
    Point3d(p.x, p.y, 0.0)
  }

  /** The vector with the same X and Y and a zero Z. */
  function ClearVectorZ(v: Vector3d): Vector3d {
    Vector3d(v.x, v.y, 0.0)
  }

  /** ClearZ projects onto the XY plane: it keeps X and Y, zeroes Z, is the
      only point doing both, and a second application changes nothing. */
  lemma ClearZProjects(p: Point3d, q: Point3d)
    ensures SameXY(p, ClearZ(p)) && ClearZ(p).z == 0.0
    ensures SameXY(p, q) && q.z == 0.0 ==> q == ClearZ(p)
    ensures ClearZ(ClearZ(p)) == ClearZ(p)
    ensures p.z == 0.0 <==> ClearZ(p) == p
  {
  }

  /** The same four facts for the vector overload. */
  lemma ClearVectorZProjects(v: Vector3d, w: Vector3d)
    ensures SameVectorXY(v, ClearVectorZ(v)) && ClearVectorZ(v).z == 0.0
    ensures SameVectorXY(v, w) && w.z == 0.0 ==> w == ClearVectorZ(v)
    ensures ClearVectorZ(ClearVectorZ(v)) == ClearVectorZ(v)
    ensures v.z == 0.0 <==> ClearVectorZ(v) == v
  {
  }

  /** The two tests disagree only on the boundary: a depth of exactly the tolerance
      is outside tolerance for the early-exit test but not above it for the spline test. */
  lemma ToleranceTestsDisagreeOnlyAtBoundary(z: real)
    ensures !WithinTolerance(z) && !AboveTolerance(z) <==> Abs(z) == TOLERANCE
    ensures WithinTolerance(z) ==> !AboveTolerance(z)
  {
  }
}
