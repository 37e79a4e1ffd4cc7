/** The flattening rules as they run: each rule reads an entity's depth-bearing
    properties, returns false without writing when they are all within tolerance,
    and otherwise overwrites them with their Z-cleared form and returns true; a
    dispatcher picks the rule by the entity's kind; a counting pass runs the
    dispatcher over a list of entities. Each method is proved against the pure
    rule table of module Flattening. */
module Planarization {
  import opened Geometry
  import opened Flattening

  /** A drawing entity of the host document, whose properties the rules overwrite
      in place. Its kind never changes; only the values of its properties do. */
  class Entity {
    var shape: Shape

    constructor (s: Shape)
      ensures shape == s
    {
      shape := s;
    }
  }

  method ClearLine(obj: Entity) returns (changed: bool)
    requires obj.shape.Line?
    modifies obj
    ensures changed == NeedsFlattening(old(obj.shape))
    ensures obj.shape == Flatten(old(obj.shape))
  {
    if Abs(obj.shape.startPoint.z) < TOLERANCE && Abs(obj.shape.endPoint.z) < TOLERANCE {
      return false;
    }
    obj.shape := Line(ClearZ(obj.shape.startPoint), obj.shape.endPoint);
    obj.shape := Line(obj.shape.startPoint, ClearZ(obj.shape.endPoint));
    return true;
  }

  method ClearXline(obj: Entity) returns (changed: bool)
    requires obj.shape.Xline?
    modifies obj
    ensures changed == NeedsFlattening(old(obj.shape))
    ensures obj.shape == Flatten(old(obj.shape))
  {
    if Abs(obj.shape.basePoint.z) < TOLERANCE && Abs(obj.shape.secondPoint.z) < TOLERANCE {
      return false;
    }
    obj.shape := Xline(ClearZ(obj.shape.basePoint), obj.shape.secondPoint);
    obj.shape := Xline(obj.shape.basePoint, ClearZ(obj.shape.secondPoint));
    return true;
  }

  method ClearRay(obj: Entity) returns (changed: bool)
    requires obj.shape.Ray?
    modifies obj
    ensures changed == NeedsFlattening(old(obj.shape))
    ensures obj.shape == Flatten(old(obj.shape))
  {
    if Abs(obj.shape.basePoint.z) < TOLERANCE && Abs(obj.shape.secondPoint.z) < TOLERANCE {
      return false;
    }
    obj.shape := Ray(ClearZ(obj.shape.basePoint), obj.shape.secondPoint);
    obj.shape := Ray(obj.shape.basePoint, ClearZ(obj.shape.secondPoint));
    return true;
  }

  method ClearArc(obj: Entity) returns (changed: bool)
    requires obj.shape.Arc?
    modifies obj
    ensures changed == NeedsFlattening(old(obj.shape))
    ensures obj.shape == Flatten(old(obj.shape))
  {
    if Abs(obj.shape.center.z) < TOLERANCE {
      return false;
    }
    obj.shape := Arc(ClearZ(obj.shape.center), obj.shape.radius, obj.shape.startAngle, obj.shape.endAngle);
    return true;
  }

  method ClearCircle(obj: Entity) returns (changed: bool)
    requires obj.shape.Circle?
    modifies obj
    ensures changed == NeedsFlattening(old(obj.shape))
    ensures obj.shape == Flatten(old(obj.shape))
  {
    if Abs(obj.shape.center.z) < TOLERANCE {
      return false;
    }
    obj.shape := Circle(ClearZ(obj.shape.center), obj.shape.radius);
    return true;
  }

  method ClearEllipse(obj: Entity) returns (changed: bool)
    requires obj.shape.Ellipse?
    modifies obj
    ensures changed == NeedsFlattening(old(obj.shape))
    ensures obj.shape == Flatten(old(obj.shape))
  {
    if Abs(obj.shape.center.z) < TOLERANCE {
      return false;
    }
    obj.shape := Ellipse(ClearZ(obj.shape.center), obj.shape.majorAxis, obj.shape.radiusRatio);
    return true;
  }

  method ClearDBText(obj: Entity) returns (changed: bool)
    requires obj.shape.DBText?
    modifies obj
    ensures changed == NeedsFlattening(old(obj.shape))
    ensures obj.shape == Flatten(old(obj.shape))
  {
    if Abs(obj.shape.position.z) < TOLERANCE {
      return false;
    }
    var t := obj.shape;
    obj.shape := DBText(ClearZ(t.position), t.alignmentPoint, t.normal, t.textString);
    return true;
  }

  method ClearMText(obj: Entity) returns (changed: bool)
    requires obj.shape.MText?
    modifies obj
    ensures changed == NeedsFlattening(old(obj.shape))
    ensures obj.shape == Flatten(old(obj.shape))
  {
    if Abs(obj.shape.location.z) < TOLERANCE && Abs(obj.shape.direction.z) < TOLERANCE {
      return false;
    }
    obj.shape := MText(ClearZ(obj.shape.location), obj.shape.direction, obj.shape.contents);
    obj.shape := MText(obj.shape.location, ClearVectorZ(obj.shape.direction), obj.shape.contents);
    return true;
  }

  method ClearPolyline(obj: Entity) returns (changed: bool)
    requires obj.shape.Polyline?
    modifies obj
    ensures changed == NeedsFlattening(old(obj.shape))
    ensures obj.shape == Flatten(old(obj.shape))
  {
    if Abs(obj.shape.elevation) < TOLERANCE {
      return false;
    }
    obj.shape := Polyline(0.0, obj.shape.vertices);
    return true;
  }

  method ClearDBPoint(obj: Entity) returns (changed: bool)
    requires obj.shape.DBPoint?
    modifies obj
    ensures changed == NeedsFlattening(old(obj.shape))
    ensures obj.shape == Flatten(old(obj.shape))
  {
    if Abs(obj.shape.position.z) < TOLERANCE {
      return false;
    }
    obj.shape := DBPoint(ClearZ(obj.shape.position));
    return true;
  }

  /** One rule for every dimension class: only the elevation is inspected. */
  method ClearDimension(obj: Entity) returns (changed: bool)
    requires obj.shape.Dimension?
    modifies obj
    ensures changed == NeedsFlattening(old(obj.shape))
    ensures obj.shape == Flatten(old(obj.shape))
  {
    if Abs(obj.shape.elevation) < TOLERANCE {
      return false;
    }
    obj.shape := Dimension(obj.shape.kind, 0.0, obj.shape.textPosition);
    return true;
  }

  method ClearHatch(obj: Entity) returns (changed: bool)
    requires obj.shape.Hatch?
    modifies obj
    ensures changed == NeedsFlattening(old(obj.shape))
    ensures obj.shape == Flatten(old(obj.shape))
  {
    if Abs(obj.shape.elevation) < TOLERANCE {
      return false;
    }
    obj.shape := Hatch(0.0, obj.shape.patternName);
    return true;
  }

  /** The spline rule copies the control points into a local array while looking for
      one strictly above tolerance, then, if it found one, writes every copied point
      back with its Z cleared. */
  method ClearSpline(obj: Entity) returns (changed: bool)
    requires obj.shape.Spline?
    modifies obj
    ensures changed == NeedsFlattening(old(obj.shape))
    ensures obj.shape == Flatten(old(obj.shape))
  {
    var myFlag := false;
    var n := |obj.shape.controlPoints|;
    var objControlPoints := new Point3d[n];
    for i := 0 to n
      invariant obj.shape == old(obj.shape)
      invariant objControlPoints[..i] == obj.shape.controlPoints[..i]
      invariant myFlag <==> exists j :: 0 <= j < i && AboveTolerance(obj.shape.controlPoints[j].z)
    {
      objControlPoints[i] := obj.shape.controlPoints[i];
      if Abs(objControlPoints[i].z) > TOLERANCE {
        myFlag := true;
      }
    }
    assert objControlPoints[..] == old(obj.shape.controlPoints);
    assert myFlag == NeedsFlattening(old(obj.shape)) by {
      if myFlag {
        var j :| 0 <= j < n && AboveTolerance(objControlPoints[j].z);
        assert old(obj.shape).controlPoints[j] == objControlPoints[j];
      }
    }

    if !myFlag {
      return false;
    }
    for i := 0 to n
      invariant obj.shape.Spline? && |obj.shape.controlPoints| == n
      invariant objControlPoints[..] == old(obj.shape.controlPoints)
      invariant obj.shape.controlPoints[..i] == ClearZAll(objControlPoints[..i])
      invariant obj.shape.controlPoints[i..] == objControlPoints[i..]
    {
      obj.shape := Spline(obj.shape.controlPoints[i := ClearZ(objControlPoints[i])]);
    }
    assert obj.shape.controlPoints == ClearZAll(objControlPoints[..n]);
    return true;
  }

  /** The dispatcher: runs the rule for the entity's kind; a kind without a rule,
      a block reference among them, is reported unchanged and left as it is. */
  method ClearEntity(cEntity: Entity) returns (changed: bool)
    modifies cEntity
    ensures changed == NeedsFlattening(old(cEntity.shape))
    ensures cEntity.shape == Flatten(old(cEntity.shape))
    ensures !HasRule(old(cEntity.shape)) ==> !changed && cEntity.shape == old(cEntity.shape)
  {
    if cEntity.shape.Line? { changed := ClearLine(cEntity); return; }
    if cEntity.shape.Xline? { changed := ClearXline(cEntity); return; }
    if cEntity.shape.Ray? { changed := ClearRay(cEntity); return; }
    if cEntity.shape.Arc? { changed := ClearArc(cEntity); return; }
    if cEntity.shape.Circle? { changed := ClearCircle(cEntity); return; }
    if cEntity.shape.Ellipse? { changed := ClearEllipse(cEntity); return; }
    if cEntity.shape.DBText? { changed := ClearDBText(cEntity); return; }
    if cEntity.shape.MText? { changed := ClearMText(cEntity); return; }
    if cEntity.shape.Polyline? { changed := ClearPolyline(cEntity); return; }
    if cEntity.shape.DBPoint? { changed := ClearDBPoint(cEntity); return; }
    if cEntity.shape.Dimension? { changed := ClearDimension(cEntity); return; }
    if cEntity.shape.Hatch? { changed := ClearHatch(cEntity); return; }
    if cEntity.shape.Spline? { changed := ClearSpline(cEntity); return; }
    return false;
  }

  /** The entities of a list, in order, as the rule table sees them. */
  ghost function Shapes(objList: seq<Entity>): (r: seq<Shape>)
    reads set e | e in objList
    ensures |r| == |objList|
    ensures forall i :: 0 <= i < |objList| ==> r[i] == objList[i].shape
  {
    seq(|objList|, i requires 0 <= i < |objList| reads objList => objList[i].shape)
  }

  /** The state of every listed entity. */
  ghost function ShapeOf(objList: seq<Entity>): (m: map<Entity, Shape>)
    reads set e | e in objList
    ensures forall e :: e in objList ==> e in m && m[e] == e.shape
  {
    map e | e in objList :: e.shape
  }

  /** The distinct entities among the first `n` listed whose rule fires on their state in `m`. */
  ghost function Needing(objList: seq<Entity>, m: map<Entity, Shape>, n: nat): set<Entity>
    requires n <= |objList|
  {
    set e | e in objList[..n] && e in m && NeedsFlattening(m[e])
  }

  /** Looking at one more listed entity adds it to Needing exactly when it was not
      listed before and its rule fires. */
  lemma NeedingGrows(objList: seq<Entity>, m: map<Entity, Shape>, k: nat)
    requires k < |objList| && objList[k] in m
    ensures |Needing(objList, m, k + 1)| == |Needing(objList, m, k)|
      + (if objList[k] !in objList[..k] && NeedsFlattening(m[objList[k]]) then 1 else 0)
  {
    var x := objList[k];
    var seen, seen' := Needing(objList, m, k), Needing(objList, m, k + 1);
    assert objList[..k + 1] == objList[..k] + [x];
    if x in objList[..k] || !NeedsFlattening(m[x]) {
      assert seen' == seen;
    } else {
      assert seen' == seen + {x} && x !in seen;
    }
  }

  predicate Distinct(objList: seq<Entity>) {
    forall i, j :: 0 <= i < j < |objList| ==> objList[i] != objList[j]
  }

  /** On a list without repeats, Needing counts the listed entities whose rule fires,
      one by one. */
  lemma {:induction false} NeedingCountsDistinct(objList: seq<Entity>, m: map<Entity, Shape>, before: seq<Shape>, k: nat)
    requires Distinct(objList) && |before| == |objList| && k <= |objList|
    requires forall i :: 0 <= i < |objList| ==> objList[i] in m && m[objList[i]] == before[i]
    ensures |Needing(objList, m, k)| == ClearedCount(before[..k])
  {
    if k > 0 {
      NeedingCountsDistinct(objList, m, before, k - 1);
      NeedingGrows(objList, m, k - 1);
      ClearedCountAppend(before, k - 1);
      assert objList[k - 1] !in objList[..k - 1];
    }
  }

  /** The counting pass: runs the dispatcher on every entity of the list and returns
      how many calls reported a change. The block-reference branch does nothing, so
      `recurseIn` has no effect. An entity listed twice is flattened on its first
      visit and reported unchanged on the second, so the count is the number of
      distinct listed entities that needed flattening; for a list without repeats it
      is ClearedCount of the entities' prior states. */
  method ClearList(objList: seq<Entity>, recurseIn: bool) returns (countCleared: nat)
    modifies set e | e in objList
    ensures countCleared <= |objList|
    ensures countCleared == |Needing(objList, old(ShapeOf(objList)), |objList|)|
    ensures Distinct(objList) ==> countCleared == ClearedCount(old(Shapes(objList)))
    ensures forall e :: e in objList ==> e.shape == Flatten(old(e.shape))
  {
    ghost var m := ShapeOf(objList);
    ghost var before := Shapes(objList);
    if Distinct(objList) {
      NeedingCountsDistinct(objList, m, before, |objList|);
      assert before[..|objList|] == before;
    }
    countCleared := 0;
    for k := 0 to |objList|
      invariant countCleared <= k
      invariant forall e :: e in objList ==>
        e.shape == if e in objList[..k] then Flatten(m[e]) else m[e]
      invariant countCleared == |Needing(objList, m, k)|
    {
      var myObj := objList[k];
      if recurseIn && myObj.shape.BlockReference? {
        // nested block contents are not visited
      }
      NeedingGrows(objList, m, k);
      var changed := ClearEntity(myObj);
      if changed {
        countCleared := countCleared + 1;
      }
    }
    assert objList[..|objList|] == objList;
  }

  /** Two passes in succession: the second reports no change and leaves every entity
      as the first pass left it, whatever the flag. */
  method ClearListTwice(objList: seq<Entity>, recurseIn: bool) returns (first: nat, second: nat)
    modifies set e | e in objList
    ensures first <= |objList| && second == 0
    ensures forall e :: e in objList ==> e.shape == Flatten(old(e.shape))
  {
    first := ClearList(objList, recurseIn);
    ghost var mid := ShapeOf(objList);
    second := ClearList(objList, recurseIn);
    assert Needing(objList, mid, |objList|) == {};
  }
}
