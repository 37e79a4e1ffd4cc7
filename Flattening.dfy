/** The flattening rule table as pure functions over an entity's geometric state:
    which fields carry a depth, when a rule fires, and what it writes. The
    imperative rules in module Planarization are proved against these. */
module Flattening {
  import opened Geometry

  /** The nine concrete dimension classes; every one of them is handled by the single
      Dimension rule. */
  datatype DimensionKind =
    | Aligned | ArcLength | Diametric | LineAngular2 | Point3Angular
    | Radial | RadialLarge | Rotated | Ordinate

  /** The state of one drawing entity: one constructor per kind the rule table knows,
      plus block references and every other kind. Besides the fields a rule reads and
      writes, each kind keeps a few of its other properties, so that the model can say
      the rule leaves them alone. */
  datatype Shape =
    | Line(startPoint: Point3d, endPoint: Point3d)
    | Xline(basePoint: Point3d, secondPoint: Point3d)
    | Ray(basePoint: Point3d, secondPoint: Point3d)
    | Arc(center: Point3d, radius: real, startAngle: real, endAngle: real)
    | Circle(center: Point3d, radius: real)
    | Ellipse(center: Point3d, majorAxis: Vector3d, radiusRatio: real)
    | DBText(position: Point3d, alignmentPoint: Point3d, normal: Vector3d, textString: string)
    | MText(location: Point3d, direction: Vector3d, contents: string)
    | Polyline(elevation: real, vertices: seq<Point2d>)
    | DBPoint(position: Point3d)
    | Dimension(kind: DimensionKind, elevation: real, textPosition: Point3d)
    | Hatch(elevation: real, patternName: string)
    | Spline(controlPoints: seq<Point3d>)
    | BlockReference(position: Point3d, blockName: string)
    | Other(typeName: string)

  /** The kinds the dispatcher has a rule for. */
  predicate HasRule(s: Shape) {
    !s.BlockReference? && !s.Other?
  }

  /** The depths a rule inspects, in the order it inspects them. */
  function Depths(s: Shape): seq<real> {
    match s
    case Line(p, q) => [p.z, q.z]
    case Xline(p, q) => [p.z, q.z]
    case Ray(p, q) => [p.z, q.z]
    case Arc(c, _, _, _) => [c.z]
    case Circle(c, _) => [c.z]
    case Ellipse(c, _, _) => [c.z]
    case DBText(p, _, _, _) => [p.z]
    case MText(p, d, _) => [p.z, d.z]
    case Polyline(e, _) => [e]
    case DBPoint(p) => [p.z]
    case Dimension(_, e, _) => [e]
    case Hatch(e, _) => [e]
    case Spline(cps) => seq(|cps|, i requires 0 <= i < |cps| => cps[i].z)
    case BlockReference(_, _) => []
    case Other(_) => []
  }

  /** Every depth a rule inspects is zero. */
  predicate AllDepthsZero(s: Shape) {
    forall i :: 0 <= i < |Depths(s)| ==> Depths(s)[i] == 0.0
  }

  /** The guard of each rule, as the code writes it: every rule but the spline's
      returns early when all its depths are within tolerance; the spline rule fires
      when some control point is strictly above tolerance; kinds without a rule never fire. */
  predicate NeedsFlattening(s: Shape) {
    match s
    case Line(p, q) => !(WithinTolerance(p.z) && WithinTolerance(q.z))
    case Xline(p, q) => !(WithinTolerance(p.z) && WithinTolerance(q.z))
    case Ray(p, q) => !(WithinTolerance(p.z) && WithinTolerance(q.z))
    case Arc(c, _, _, _) => !WithinTolerance(c.z)
    case Circle(c, _) => !WithinTolerance(c.z)
    case Ellipse(c, _, _) => !WithinTolerance(c.z)
    case DBText(p, _, _, _) => !WithinTolerance(p.z)
    case MText(p, d, _) => !(WithinTolerance(p.z) && WithinTolerance(d.z))
    case Polyline(e, _) => !WithinTolerance(e)
    case DBPoint(p) => !WithinTolerance(p.z)
    case Dimension(_, e, _) => !WithinTolerance(e)
    case Hatch(e, _) => !WithinTolerance(e)
    case Spline(cps) => exists i :: 0 <= i < |cps| && AboveTolerance(cps[i].z)
    case BlockReference(_, _) => false
    case Other(_) => false
  }

  /** `t` is `s` seen from above: the same kind, the same other properties, the same
      number of control points, and every depth-bearing point or vector with the same
      X and Y; only the depths may differ. */
  predicate SamePlan(s: Shape, t: Shape) {
    match s
    case Line(p, q) => t.Line? && SameXY(p, t.startPoint) && SameXY(q, t.endPoint)
    case Xline(p, q) => t.Xline? && SameXY(p, t.basePoint) && SameXY(q, t.secondPoint)
    case Ray(p, q) => t.Ray? && SameXY(p, t.basePoint) && SameXY(q, t.secondPoint)
    case Arc(c, r, a0, a1) =>
      t.Arc? && SameXY(c, t.center) && t.radius == r && t.startAngle == a0 && t.endAngle == a1
    case Circle(c, r) => t.Circle? && SameXY(c, t.center) && t.radius == r
    case Ellipse(c, m, k) =>
      t.Ellipse? && SameXY(c, t.center) && t.majorAxis == m && t.radiusRatio == k
    case DBText(p, a, n, str) =>
      t.DBText? && SameXY(p, t.position) && t.alignmentPoint == a && t.normal == n && t.textString == str
    case MText(p, d, str) =>
      t.MText? && SameXY(p, t.location) && SameVectorXY(d, t.direction) && t.contents == str
    case Polyline(_, vs) => t.Polyline? && t.vertices == vs
    case DBPoint(p) => t.DBPoint? && SameXY(p, t.position)
    case Dimension(k, _, tp) => t.Dimension? && t.kind == k && t.textPosition == tp
    case Hatch(_, name) => t.Hatch? && t.patternName == name
    case Spline(cps) =>
      && t.Spline? && |t.controlPoints| == |cps|
      && forall i :: 0 <= i < |cps| ==> SameXY(cps[i], t.controlPoints[i])
    case BlockReference(_, _) => t == s
    case Other(_) => t == s
  }

  /** Every control point with its Z cleared. */
  function ClearZAll(ps: seq<Point3d>): (r: seq<Point3d>)
    ensures |r| == |ps|
    ensures forall i :: 0 <= i < |ps| ==> SameXY(ps[i], r[i]) && r[i].z == 0.0
  {
    seq(|ps|, i requires 0 <= i < |ps| => ClearZ(ps[i]))
  }

  /** What a rule writes once its guard has fired: every depth-bearing field
      through ClearZ, every elevation set to 0.0. Kinds without a rule are left as they are. */
  function ZeroDepth(s: Shape): (r: Shape)
    ensures SamePlan(s, r) && AllDepthsZero(r)
  {
    match s
    case Line(p, q) => Line(ClearZ(p), ClearZ(q))
    case Xline(p, q) => Xline(ClearZ(p), ClearZ(q))
    case Ray(p, q) => Ray(ClearZ(p), ClearZ(q))
    case Arc(c, r, a0, a1) => Arc(ClearZ(c), r, a0, a1)
    case Circle(c, r) => Circle(ClearZ(c), r)
    case Ellipse(c, m, k) => Ellipse(ClearZ(c), m, k)
    case DBText(p, a, n, str) => DBText(ClearZ(p), a, n, str)
    case MText(p, d, str) => MText(ClearZ(p), ClearVectorZ(d), str)
    case Polyline(_, vs) => Polyline(0.0, vs)
    case DBPoint(p) => DBPoint(ClearZ(p))
    case Dimension(k, _, tp) => Dimension(k, 0.0, tp)
    case Hatch(_, name) => Hatch(0.0, name)
    case Spline(cps) => Spline(ClearZAll(cps))
    case BlockReference(_, _) => s
    case Other(_) => s
  }

  /** The effect of one rule on an entity: the zero-depth form when the guard fires,
      the entity untouched otherwise. */
  function Flatten(s: Shape): (r: Shape)
    ensures SamePlan(s, r)
    ensures NeedsFlattening(s) ==> AllDepthsZero(r)
    ensures !NeedsFlattening(s) ==> r == s
    ensures !NeedsFlattening(r)
  {
    if NeedsFlattening(s) then
      var r := ZeroDepth(s);
      ZeroDepthIsPlanar(r);
      r
    else
      s
  }

  /** A shape whose depths are all zero does not trigger its rule. */
  lemma ZeroDepthIsPlanar(s: Shape)
    requires AllDepthsZero(s)
    ensures !NeedsFlattening(s)
  {
    if s.Spline? {
      forall i | 0 <= i < |s.controlPoints|
        ensures !AboveTolerance(s.controlPoints[i].z)
      {
        assert Depths(s)[i] == s.controlPoints[i].z;
      }
    } else if HasRule(s) {
      assert Depths(s)[0] == 0.0;
      assert |Depths(s)| == 2 ==> Depths(s)[1] == 0.0;
    }
  }

  /** ZeroDepth is determined by its contract: the only shape with the same plan and
      all depths zero. */
  lemma {:induction false} ZeroDepthIsUnique(s: Shape, t: Shape)
    requires SamePlan(s, t) && AllDepthsZero(t)
    ensures t == ZeroDepth(s)
  {
    var z := ZeroDepth(s);
    match s
    case Spline(cps) =>
      assert |t.controlPoints| == |z.controlPoints|;
      forall i | 0 <= i < |cps|
        ensures t.controlPoints[i] == z.controlPoints[i]
      {
        assert Depths(t)[i] == t.controlPoints[i].z;
      }
      assert t.controlPoints == z.controlPoints;
    case Line(_, _) =>
      assert Depths(t)[0] == 0.0 && Depths(t)[1] == 0.0;
    case Xline(_, _) =>
      assert Depths(t)[0] == 0.0 && Depths(t)[1] == 0.0;
    case Ray(_, _) =>
      assert Depths(t)[0] == 0.0 && Depths(t)[1] == 0.0;
    case MText(_, _, _) =>
      assert Depths(t)[0] == 0.0 && Depths(t)[1] == 0.0;
    case BlockReference(_, _) =>
    case Other(_) =>
    case _ =>
      assert Depths(t)[0] == 0.0;
  }

  /** Each rule's guard, stated over the depths it inspects: a rule other than the
      spline's fires exactly when some depth is at or above the tolerance in absolute
      value; the spline rule fires exactly when some control point is strictly above it. */
  lemma NeedsFlatteningIffDepthOffPlane(s: Shape)
    ensures !s.Spline? ==>
      (NeedsFlattening(s) <==> exists i :: 0 <= i < |Depths(s)| && Abs(Depths(s)[i]) >= TOLERANCE)
    ensures s.Spline? ==>
      (NeedsFlattening(s) <==> exists i :: 0 <= i < |Depths(s)| && Abs(Depths(s)[i]) > TOLERANCE)
  {
    if s.Spline? {
      var cps := s.controlPoints;
      if NeedsFlattening(s) {
        var i :| 0 <= i < |cps| && AboveTolerance(cps[i].z);
        assert Depths(s)[i] == cps[i].z;
      }
      if exists i :: 0 <= i < |Depths(s)| && Abs(Depths(s)[i]) > TOLERANCE {
        var i :| 0 <= i < |Depths(s)| && Abs(Depths(s)[i]) > TOLERANCE;
        assert AboveTolerance(cps[i].z);
      }
    } else if HasRule(s) {
      if |Depths(s)| == 2 {
        assert NeedsFlattening(s) <==> Abs(Depths(s)[0]) >= TOLERANCE || Abs(Depths(s)[1]) >= TOLERANCE;
      } else {
        assert NeedsFlattening(s) <==> Abs(Depths(s)[0]) >= TOLERANCE;
      }
    }
  }

  /** Running a rule a second time after it has run reports no change and writes nothing. */
  lemma FlattenIsIdempotent(s: Shape)
    ensures !NeedsFlattening(Flatten(s))
    ensures Flatten(Flatten(s)) == Flatten(s)
  {
  }

  /** Each rule applied to every entity of a list. */
  function FlattenAll(shapes: seq<Shape>): (r: seq<Shape>)
    ensures |r| == |shapes|
    ensures forall i :: 0 <= i < |shapes| ==> r[i] == Flatten(shapes[i])
  {
    seq(|shapes|, i requires 0 <= i < |shapes| => Flatten(shapes[i]))
  }

  /** How many entities of a list of distinct entities the counting pass reports
      as cleared. */
  function ClearedCount(shapes: seq<Shape>): nat {
    if shapes == [] then 0
    else ClearedCount(shapes[..|shapes| - 1]) + (if NeedsFlattening(shapes[|shapes| - 1]) then 1 else 0)
  }

  /** The count never exceeds the number of entities, and reaches it exactly when
      every entity needs flattening. */
  lemma {:induction false} ClearedCountBounded(shapes: seq<Shape>)
    ensures ClearedCount(shapes) <= |shapes|
    ensures ClearedCount(shapes) == |shapes| <==> forall i :: 0 <= i < |shapes| ==> NeedsFlattening(shapes[i])
  {
    if shapes != [] {
      var init := shapes[..|shapes| - 1];
      ClearedCountBounded(init);
      if ClearedCount(shapes) == |shapes| {
        forall i | 0 <= i < |shapes|
          ensures NeedsFlattening(shapes[i])
        {
          if i < |init| {
            assert init[i] == shapes[i];
          }
        }
      }
      if forall i :: 0 <= i < |shapes| ==> NeedsFlattening(shapes[i]) {
        assert forall i :: 0 <= i < |init| ==> NeedsFlattening(init[i]) by {
          forall i | 0 <= i < |init| ensures NeedsFlattening(init[i]) {
            assert init[i] == shapes[i];
          }
        }
      }
    }
  }

  /** Counting one more entity of a list adds one exactly when its rule fires. */
  lemma ClearedCountAppend(shapes: seq<Shape>, k: nat)
    requires k < |shapes|
    ensures ClearedCount(shapes[..k + 1]) == ClearedCount(shapes[..k]) + (if NeedsFlattening(shapes[k]) then 1 else 0)
  {
    assert shapes[..k + 1][..k] == shapes[..k];
  }

  /** The count is zero exactly when no entity needs flattening. */
  lemma {:induction false} ClearedCountZero(shapes: seq<Shape>)
    ensures ClearedCount(shapes) == 0 <==> forall i :: 0 <= i < |shapes| ==> !NeedsFlattening(shapes[i])
  {
    if shapes != [] {
      var init := shapes[..|shapes| - 1];
      ClearedCountZero(init);
      forall i | 0 <= i < |init| ensures init[i] == shapes[i] { }
    }
  }

  /** A second pass over a flattened list clears nothing and leaves every entity as it was. */
  lemma SecondPassClearsNothing(shapes: seq<Shape>)
    ensures ClearedCount(FlattenAll(shapes)) == 0
    ensures FlattenAll(FlattenAll(shapes)) == FlattenAll(shapes)
  {
    ClearedCountZero(FlattenAll(shapes));
  }

  /** The tolerance boundary, kind by kind: a depth of exactly 0.0001 triggers the
      line rule but not the spline rule, a smaller depth triggers neither, and a block
      reference is never flattened whatever its depth. */
  lemma ToleranceBoundary()
    ensures NeedsFlattening(Line(Point3d(0.0, 0.0, 0.0001), Point3d(1.0, 1.0, 0.0)))
    ensures !NeedsFlattening(Line(Point3d(0.0, 0.0, 0.00009999), Point3d(1.0, 1.0, 0.0)))
    ensures !NeedsFlattening(Spline([Point3d(0.0, 0.0, 0.0001)]))
    ensures NeedsFlattening(Spline([Point3d(0.0, 0.0, 0.0), Point3d(2.0, 0.0, -5.0)]))
    ensures NeedsFlattening(Polyline(1.0, []))
    ensures !NeedsFlattening(BlockReference(Point3d(0.0, 0.0, 5.0), "B"))
  {
    var cps := [Point3d(0.0, 0.0, 0.0), Point3d(2.0, 0.0, -5.0)];
    assert AboveTolerance(cps[1].z);
  }

  /** When the MText rule fires it clears the direction's Z too, even when only the
      location was off the plane; the DBText rule never touches its normal or
      alignment point; the spline rule rewrites every control point, including those
      already within tolerance. */
  lemma RulesRewriteAllTheirFields()
    ensures Flatten(MText(Point3d(1.0, 2.0, 3.0), Vector3d(1.0, 0.0, 0.00001), "m"))
         == MText(Point3d(1.0, 2.0, 0.0), Vector3d(1.0, 0.0, 0.0), "m")
    ensures Flatten(DBText(Point3d(1.0, 2.0, 3.0), Point3d(4.0, 5.0, 6.0), Vector3d(0.0, 0.0, 1.0), "t"))
         == DBText(Point3d(1.0, 2.0, 0.0), Point3d(4.0, 5.0, 6.0), Vector3d(0.0, 0.0, 1.0), "t")
    ensures Flatten(Spline([Point3d(0.0, 0.0, 0.00001), Point3d(1.0, 1.0, 1.0)]))
         == Spline([Point3d(0.0, 0.0, 0.0), Point3d(1.0, 1.0, 0.0)])
  {
    var s := Spline([Point3d(0.0, 0.0, 0.00001), Point3d(1.0, 1.0, 1.0)]);
    assert AboveTolerance(s.controlPoints[1].z);
    assert ClearZAll(s.controlPoints) == [Point3d(0.0, 0.0, 0.0), Point3d(1.0, 1.0, 0.0)];
  }
}
