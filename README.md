# Laurus planarization, modelled in Dafny

Laurus is an AutoCAD plug-in whose `clear` command flattens a drawing onto the XY
plane. Each supported entity kind has a rule. The rule reads the entity's
depth-bearing properties: one or two points, a direction vector, a scalar
elevation, or the control points of a spline. If all of them are within the
tolerance `0.0001`, the rule writes nothing and returns `false`. Otherwise it
overwrites them with their Z-cleared form and returns `true`. A dispatcher picks
the rule by the entity's type, and a counting pass runs the dispatcher over a
list of entities and returns how many calls reported a change.

The project has three modules, one file each:

- `Geometry` (Geometry.dfy): `Point3d`, `Vector3d`, `Point2d`, the tolerance,
  the two tolerance tests, and the two `ClearZ` overloads (`ClearZ`, `ClearVectorZ`).
- `Flattening` (Flattening.dfy): the rule table as pure functions. `Shape` has
  one constructor per kind the dispatcher knows, plus `BlockReference` and
  `Other`. Besides the fields a rule touches, each kind keeps a few of its other
  AutoCAD properties (an arc's radius and angles, an ellipse's major axis, a
  text's alignment point and normal, a polyline's vertices, a dimension's class
  and text position, and so on), so that the model can say what a rule leaves
  alone. `NeedsFlattening` is each rule's guard as the code writes it.
  `ZeroDepth` is what a rule writes once its guard fires. `Flatten` is the
  effect of one rule call, and `ClearedCount` is the count the list pass
  returns for a list without repeats. `SamePlan(s, t)` says that `t` differs from `s` at most in its depths.
- `Planarization` (Planarization.dfy): the rules as they run, on a class
  `Entity` whose `shape` field the rules overwrite in place. There are the 13
  per-kind methods, the dispatcher `ClearEntity`, and the counting loop
  `ClearList`. Every method is proved against `NeedsFlattening` and `Flatten`.
  The spline rule keeps the source's two loops and its local array of control
  points.

Facts about the code that the model keeps:

- Only the 13 kinds in the dispatcher are flattened. The dispatcher
  (Laurus/Planarizartion.cs:174-189) has no rule for block references, so they
  are never flattened.
- A text (`DBText`) rule touches only its position, never a direction.
- All nine dimension classes go through the one elevation-only rule. None of
  their defining points are cleared.
- There is no quad-solid rule, no layer-lock save and restore, and no descent
  into blocks. The block-reference branch of the list pass is empty, so
  `recurseIn` has no effect.
- The spline rule fires only when some control point is strictly above the
  tolerance (`>`). Every other rule fires when a depth is at or above it, since
  its early exit uses `<`. So a depth of exactly `0.0001` flattens a line but
  not a spline.
- When the spline rule fires, it writes every control point back with its Z
  cleared, and it reports a change only when its guard fired.

## Model

| member | source | states |
|---|---|---|
| `Geometry.ClearZProjects` | Laurus/Planarizartion.cs:25-28 | `ClearZ` keeps X and Y and sets Z to 0. It is the only point that does both, applying it twice equals applying it once, and it is the identity exactly on points with Z = 0 |
| `Geometry.ClearVectorZProjects` | Laurus/Planarizartion.cs:35-38 | the same four facts for the vector overload |
| `Geometry.ToleranceTestsDisagreeOnlyAtBoundary` | Laurus/Planarizartion.cs:151 | the spline test (`> 0.0001`) and the other rules' early-exit test (`< 0.0001`) both fail exactly when the absolute depth equals the tolerance; a depth within tolerance is never above it |
| `Flattening.ClearZAll` | Laurus/Planarizartion.cs:157-159 | rewriting every control point keeps their number and each point's X and Y, and zeroes each Z |
| `Flattening.ZeroDepth` | Laurus/Planarizartion.cs:45-162 | what each rule writes has the same kind, the same other properties and the same X/Y as the entity, and every depth the rule inspects is 0 |
| `Flattening.ZeroDepthIsUnique` | Laurus/Planarizartion.cs:45-162 | the written form is the only shape with the entity's plan and all inspected depths zero |
| `Flattening.ZeroDepthIsPlanar` | Laurus/Planarizartion.cs:45-162 | a shape whose inspected depths are all zero does not trigger its rule |
| `Flattening.Flatten` | Laurus/Planarizartion.cs:45-162 | one rule call keeps the plan. It zeroes every inspected depth when the guard fires (including depths already within tolerance), leaves the entity untouched when the guard does not fire, and its result no longer triggers the rule |
| `Flattening.NeedsFlatteningIffDepthOffPlane` | Laurus/Planarizartion.cs:45-162 | a rule other than the spline's fires iff some inspected depth has absolute value at least 0.0001; the spline rule fires iff some control point's Z is strictly above 0.0001 |
| `Flattening.FlattenIsIdempotent` | Laurus/Planarizartion.cs:45-162 | a second call of any rule reports no change and writes nothing |
| `Flattening.ToleranceBoundary` | Laurus/Planarizartion.cs:45-162 | at depth 0.0001 a line is flattened but a spline is not. At depth 0.00009999 a line is not flattened. Depth -5.0 flattens a spline, elevation 1.0 flattens a polyline, and a block reference at depth 5.0 is never flattened |
| `Flattening.RulesRewriteAllTheirFields` | Laurus/Planarizartion.cs:96-162 | MText clears its direction's Z even when only the location was off the plane. DBText leaves its alignment point and normal alone. A spline clears every control point, including those within tolerance |
| `Flattening.ClearedCountAppend` | Laurus/Planarizartion.cs:203 | one more entity adds one to the count exactly when its rule fires |
| `Flattening.ClearedCountBounded` | Laurus/Planarizartion.cs:197-206 | the count is at most the list length, and equals it iff every entity needs flattening |
| `Flattening.ClearedCountZero` | Laurus/Planarizartion.cs:197-206 | the count is zero iff no entity needs flattening |
| `Flattening.SecondPassClearsNothing` | Laurus/Planarizartion.cs:197-206 | after one pass, a second pass counts nothing and changes no entity |
| `Planarization.ClearLine` | Laurus/Planarizartion.cs:45-52 | returns whether the line's guard fires on its prior state, and leaves the line in state `Flatten` of its prior state |
| `Planarization.ClearXline` | Laurus/Planarizartion.cs:54-61 | the same for an Xline's base and second points |
| `Planarization.ClearRay` | Laurus/Planarizartion.cs:63-70 | the same for a ray's base and second points |
| `Planarization.ClearArc` | Laurus/Planarizartion.cs:72-78 | the same for an arc's center; radius and angles are kept |
| `Planarization.ClearCircle` | Laurus/Planarizartion.cs:80-86 | the same for a circle's center |
| `Planarization.ClearEllipse` | Laurus/Planarizartion.cs:88-94 | the same for an ellipse's center; the major axis is kept, Z included |
| `Planarization.ClearDBText` | Laurus/Planarizartion.cs:96-102 | the same for a text's position only |
| `Planarization.ClearMText` | Laurus/Planarizartion.cs:104-111 | the same for an MText's location and direction together |
| `Planarization.ClearPolyline` | Laurus/Planarizartion.cs:113-119 | the same for a polyline's elevation, set to 0.0; vertices are kept |
| `Planarization.ClearDBPoint` | Laurus/Planarizartion.cs:121-127 | the same for a point entity's position |
| `Planarization.ClearDimension` | Laurus/Planarizartion.cs:129-135 | the same for the elevation of any of the nine dimension classes; the text position is kept |
| `Planarization.ClearHatch` | Laurus/Planarizartion.cs:137-143 | the same for a hatch's elevation |
| `Planarization.ClearSpline` | Laurus/Planarizartion.cs:145-162 | the two loops return whether some control point is strictly above tolerance, and when so rewrite every control point through `ClearZ` |
| `Planarization.ClearEntity` | Laurus/Planarizartion.cs:174-189 | the dispatcher returns the guard of the entity's rule and applies that rule. For a kind without a rule, block references included, it returns `false` and writes nothing |
| `Planarization.NeedingGrows` | Laurus/Planarizartion.cs:199-204 | visiting one more listed entity adds it to the set of distinct entities needing flattening exactly when it was not listed before and its rule fires |
| `Planarization.NeedingCountsDistinct` | Laurus/Planarizartion.cs:197-206 | on a list without repeats, the number of distinct entities needing flattening is `ClearedCount` of their states |
| `Planarization.ClearList` | Laurus/Planarizartion.cs:197-206 | the pass flattens every listed entity. It returns the number of distinct listed entities whose rule fired, which is at most the list length, and is `ClearedCount` of the prior states when the list has no repeats. Nothing depends on `recurseIn` |
| `Planarization.ClearListTwice` | Laurus/Planarizartion.cs:197-206 | a second pass right after the first returns 0 and leaves every entity as the first pass left it |

## Left out

- The `clear` command (Laurus/Planarizartion.cs:211-240) is host I/O: the yes/no prompt loop, the transaction start, commit and abort, the summary message, and exception handling. The count of examined objects it prints is just the list length.
- The `test` command (Laurus/Planarizartion.cs:245-252) only prints the number of entities.
- `GetEntsInDatabase` is a library call whose code is not visible. `ClearList` takes the entity list as a parameter, repeats allowed.
- `UpgradeOpen`/`DowngradeOpen` are not modelled; they change no entity property when they succeed.
- Host calls (open-mode changes, property setters, control-point access) are modelled as never failing. In AutoCAD a failing call (for example `UpgradeOpen` on an entity of a locked layer) raises an exception. `ClearList` does not catch it, so the pass would stop part-way and the command's handler would abort the transaction and discard every write. `ClearList`'s postconditions hold only when every host call succeeds.
- ClearXline, ClearRay: host property coupling is modelled as independent stored fields. AutoCAD stores an Xline or Ray as a base point plus a unit direction, and `SecondPoint` is derived from them. Writing `BasePoint` and then `SecondPoint` (Laurus/Planarizartion.cs:57-58, 66-67) therefore renormalises the direction. The stored second point can then differ in X and Y from the old one, while the model keeps `secondPoint`'s X and Y.
- `GetControlPointAt`/`SetControlPointAt` are modelled as reading and replacing one element of the spline's control-point sequence.
- Laurus/Init.cs is plug-in registration and a welcome banner, and is not part of this model.
- Coordinates are Dafny `real`. IEEE-754 rounding, NaN and infinities are not modelled; only the comparisons against 0.0001 matter.
- The `ulong` counter is a `nat`. It is bounded by the list length, so it cannot wrap.
- C# type tests also accept subclasses (an attribute reference is a `DBText`; a 2D or 3D polyline is not a `Polyline`). The model gives each entity the kind whose rule the dispatcher picks for it.
- The model's entities carry only a few of their other AutoCAD properties. The rules touch none of them.
