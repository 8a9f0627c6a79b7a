# Sketch builder replay, modelled in Dafny

This project models the sketch builder of FreeCAD-BuilderPy. The builder is a
fluent API for making FreeCAD sketches in code:

- `SketchBuilder` collects features: moves, lines, horizontal and vertical
  lines, and B-splines with control-point circles.
- Each feature carries constraints: horizontal, vertical, symmetric to the
  origin, distance in x or y, coincident to the origin, coincident with a
  point of another feature, and radius.
- A feature can be marked as construction geometry.
- `build(name)` picks the target sketch. It reuses the single sketch with that
  name, after deleting its constraints and geometry; otherwise it adds a new
  one. It then replays every feature in insertion order against that sketch,
  with one fresh context. The context holds a cursor and the index of the last
  geometry entry added (-1 before the first).

Replaying a feature works like this:

- The feature adds its geometry and takes the next index from the context.
- It writes that index into its own `geometry_index`.
- It writes one constraint record per attached constraint, in attachment order.
- If it is marked as construction, it toggles its entry to construction.

A coincidence with another feature reads that feature's `geometry_index` at
the time the constraint is applied, not when it was attached.

The files:

- `sketch.dfy` (module `Sketcher`): the host as far as the builder observes it.
  Geometry entries are values. Constraint records are the argument lists given
  to the host's constraint constructor. There is a sketch object, with its
  geometry, records and construction toggles, and a document with
  `findObjects`, `addObject` and `recompute`.
- `context.dfy` (module `BuilderContext`): `SketchBuilderContext` as a class.
- `features.dfy` (module `Features`): the feature hierarchy as one class
  `Feature`, tagged with a constant `kind`, and the constraints as a datatype.
  It also holds the pure replay specification:
  - `Shape` is what a build reads of a feature;
  - `ReplayState` is the cursor, the counter, the sketch's three lists, and the
    indices written so far, plus those the features held before the build;
  - `Step` and `Replay` compute the state that replay produces.

  Every `append` method is proved against `Step`. It leaves the sketch, the
  context and every feature's `geometryIndex` exactly as the specification says.
- `builder.dfy` (module `Builder`): `AbstractBuilder` and `SketchBuilder`,
  merged into one class. `Build` is proved to leave in the sketch exactly what
  `Replay` computes from the features' current state.
- `references.dfy` (module `RecordReferences`): after a whole build with
  only backward references and origin literals, every geometry index in a
  record is the origin's or names an existing entry. Every construction toggle
  names an existing entry, and no entry is toggled twice.
- `properties.dfy` (module `ReplayProperties`): what a replay guarantees.
  - The counter always names the last geometry entry.
  - Each applied feature holds the position of its last entry.
  - Each kind lays out its entries as its `append` does.
  - A backward reference reads the referenced feature's final index.
  - A forward reference reads the index the feature held before the build.
  - With only backward references, a rebuild gives the same sketch.
- `scenario.dfy` (module `MainScenario`): the script's main block. It proves
  the exact geometry, records, toggles and indices of the "TestSketch" build.
  `MainBlock` makes the builder calls themselves, in order, and builds into a
  document.

The model follows the code's actual behaviour:

- A feature's index starts at 0; nothing marks a feature not applied yet.
- Nothing guards against applying a feature twice.
- A forward reference silently reads 0 on a first build, or the previous
  build's index on a rebuild. The lemmas `ForwardReferenceReadsStale` and
  `ForwardReferenceExample` state this.

## Model

| member | source | states |
|---|---|---|
| BuilderContext.Context.constructor | app/SketchBuilder.py:50-54 | a new context has its cursor at (0, 0) and its geometry index at -1 |
| BuilderContext.Context.Move | app/SketchBuilder.py:56-57 | the cursor becomes the absolute point (x, y) |
| BuilderContext.Context.Add | app/SketchBuilder.py:59-65 | returns the old cursor as start and old cursor + v as end; the cursor moves to end |
| BuilderContext.Context.GeometryAdded | app/SketchBuilder.py:67-72 | the index grows by one and the new value is returned |
| Features.Feature.Move | app/SketchBuilder.py:132-135 | a move feature with its absolute target and no constraints |
| Features.Feature.Line | app/SketchBuilder.py:141-145 | a line feature with its delta, no constraints, not construction, index 0 |
| Features.Feature.Circle | app/SketchBuilder.py:186-191 | a circle feature with its centre and radius, no constraints, index 0 |
| Features.Feature.Bspline | app/SketchBuilder.py:160-165 | a spline feature with no control points, not construction, index 0 |
| Features.Feature.Construction | app/SketchBuilder.py:83-86 | sets the construction flag and returns the same feature |
| Features.Feature.Horizontal | app/SketchBuilder.py:88-91 | appends one Horizontal constraint, returns the same feature |
| Features.Feature.Vertical | app/SketchBuilder.py:93-96 | appends one Vertical constraint, returns the same feature |
| Features.Feature.SymmetricToOrigin | app/SketchBuilder.py:98-101 | appends a symmetry about the origin (-1, 1) |
| Features.Feature.DistanceX | app/SketchBuilder.py:103-106 | appends a DistanceX constraint holding the distance |
| Features.Feature.DistanceY | app/SketchBuilder.py:108-111 | appends a DistanceY constraint holding the distance |
| Features.Feature.CoincidentToOrigin | app/SketchBuilder.py:113-116 | appends a coincidence with the literal origin point |
| Features.Feature.Coincident | app/SketchBuilder.py:118-122 | appends a coincidence holding a reference to the other feature and its point index, reading nothing of it |
| Features.Feature.ConstraintRadius | app/SketchBuilder.py:193-196 | appends a Radius constraint holding the circle's own radius |
| Features.Feature.Point | app/SketchBuilder.py:167-172 | appends a fresh circle of radius 10 at (x, y) with one Radius(10) constraint, marked construction, and returns it |
| Features.Feature.GeometryAdded | app/SketchBuilder.py:124-125 | the context's index grows by one and the feature holds the new value |
| Features.Feature.ApplyConstruction | app/SketchBuilder.py:127-129 | toggles the context's current index exactly when the feature is construction |
| Features.Constraint.Apply | app/SketchBuilder.py:209-279 | appends exactly one record: the constraint's record, with the feature reference resolved to its current index |
| Features.Materialize | app/SketchBuilder.py:213-279 | each record has its constraint's own type tag. Horizontal, Vertical and Distance records hold both anchors (four integers); Symmetric holds both anchors and then the symmetry point. Only Distance and Radius carry a value (their distance or radius). A coincidence holds the referenced pair (the literal, or the feature index passed in with its point index) followed by the first anchor. Radius holds the first anchor's geometry |
| Features.Feature.ApplyConstraints | app/SketchBuilder.py:153-155 | appends one record per constraint, in attachment order, anchored at the given pairs |
| Features.RecordsAt | app/SketchBuilder.py:153-155 | record k of a constraint list is the record of constraint k |
| Features.Feature.AppendLine | app/SketchBuilder.py:147-157 | sketch, context and feature indices follow the line step of the specification |
| Features.Feature.AppendCircle | app/SketchBuilder.py:198-206 | sketch, context and feature indices follow the circle step |
| Features.Feature.AppendCircles | app/SketchBuilder.py:176-178 | replays the control circles in order and returns their centres in order |
| Features.Feature.AppendBspline | app/SketchBuilder.py:174-183 | sketch, context and indices follow the spline step: circles, then one spline through their centres |
| Features.Feature.Append | app/SketchBuilder.py:137-206 | whatever the feature kind, the result is one specification step |
| Builder.Shapes | app/AbstractBuilder.py:31-32 | one shape per feature, in order, each describing its feature |
| Features.LeavesFields | app/SketchBuilder.py:176-178 | the shapes a build reads of the control circles are fixed by the circles' constraints and construction flags |
| Builder.SketchBuilder.constructor | app/SketchBuilder.py:10-13 | a builder whose only feature is a fresh move to the start point, with no constraints, no control points, not construction, index 0 |
| Builder.SketchBuilder.AddFeature | app/AbstractBuilder.py:14-17 | the feature is appended to the list and returned |
| Builder.SketchBuilder.Move | app/SketchBuilder.py:15-18 | appends a fresh move feature to (x, y), with no constraints, no control points, not construction, index 0, keeps the earlier features and returns the builder |
| Builder.SketchBuilder.Line | app/SketchBuilder.py:20-21 | appends and returns a fresh line with the given delta, no constraints, not construction, index 0 |
| Builder.SketchBuilder.HorizontalLine | app/SketchBuilder.py:23-29 | a fresh line (dx, 0) with Horizontal, then DistanceX(dx) only when asked; not construction, index 0 |
| Builder.SketchBuilder.VerticalLine | app/SketchBuilder.py:31-37 | a fresh line (0, dy) with Vertical, then DistanceY(dy) only when asked; not construction, index 0 |
| Builder.SketchBuilder.Bspline | app/SketchBuilder.py:39-40 | appends and returns a fresh spline with no control points, no constraints, not construction, index 0 |
| Builder.SketchBuilder.BuildContext | app/SketchBuilder.py:42-43 | a fresh context at (0, 0) with index -1 |
| Builder.SketchBuilder.CleanupObject | app/SketchBuilder.py:45-47 | the sketch is left with no constraints, no geometry and no construction toggles |
| Builder.ReusableListed | app/AbstractBuilder.py:20-24 | the sketch a build may reuse is one of the document's objects and has the requested name |
| Builder.SketchBuilder.FindCandidates | app/AbstractBuilder.py:38-39 | the document's objects with that name |
| Sketcher.Named | app/AbstractBuilder.py:38-39 | only objects with that name, and every object with that name |
| Sketcher.NamedCounts | app/AbstractBuilder.py:38-39 | each object with the name is found exactly as often as it occurs in the document; others never |
| Sketcher.Document.FindObjects | app/AbstractBuilder.py:38-39 | the document's objects with that name, each as often as it occurs, so \|candidates\| == 1 means exactly one such object |
| Builder.SketchBuilder.Resolve | app/AbstractBuilder.py:20-27 | exactly one candidate: that sketch, cleared. Otherwise: a fresh sketch of that name appended to the document. Either way the sketch starts empty |
| Builder.SketchBuilder.ReplayAt | app/AbstractBuilder.py:31-32 | applying feature i moves the state from Replay of i features to Replay of i + 1 |
| Builder.SketchBuilder.ReplayFeatures | app/AbstractBuilder.py:29-32 | one context and all features in insertion order give the state Replay computes |
| Builder.SketchBuilder.Populate | app/AbstractBuilder.py:29-32 | an empty sketch ends with the geometry, records and toggles of the whole replay, and every feature holds its replayed index |
| Builder.SketchBuilder.Build | app/AbstractBuilder.py:19-36 | the sketch is the reused or new one as Resolve says; its contents and every feature's index are those Run computes from the features as they were |
| RecordReferences.MaterializeWithin | app/SketchBuilder.py:213-279 | a record anchored at existing entries, whose feature reference names an existing entry, mentions only existing entries or the origin |
| RecordReferences.RecordsWithin | app/SketchBuilder.py:153-155 | the same for every record of a constraint list whose targets are already placed |
| RecordReferences.LineGrounded | app/SketchBuilder.py:147-157 | a line whose targets are placed keeps all records and toggles pointing at existing entries, with toggles increasing |
| RecordReferences.CircleGrounded | app/SketchBuilder.py:198-206 | the same for a circle |
| RecordReferences.PointsGrounded | app/SketchBuilder.py:176-177 | the same for a run of control points |
| RecordReferences.StepGrounded | app/SketchBuilder.py:137-206 | the same for any feature kind, spline included |
| RecordReferences.ReplayGrounded | app/AbstractBuilder.py:31-32 | with backward references and origin literals, every intermediate state of a build is grounded |
| RecordReferences.IncreasingOnce | app/SketchBuilder.py:127-129 | a strictly increasing toggle list holds each index at most once |
| RecordReferences.BuildRecordsGrounded | app/AbstractBuilder.py:29-32 | after a build, every geometry index in every record is -1 (the origin) or below the geometry count; every toggle names an entry; an entry is construction (toggled an odd number of times, as Sketch.IsConstruction reads it) exactly when it was toggled |
| ReplayProperties.LastPos | app/SketchBuilder.py:124-125 | the position of the last occurrence, after which the feature does not occur again |
| ReplayProperties.StepLayout | app/SketchBuilder.py:137-206 | one step adds an entry per placement and writes last-placement indices; every other index, and the lists already written, are untouched |
| ReplayProperties.ReplaySpan | app/AbstractBuilder.py:31-32 | the same holds for any run of consecutive features |
| ReplayProperties.BuildLayout | app/AbstractBuilder.py:29-32 | after a build the counter names the last entry; a placed feature holds its last position, which is less than the geometry count; any other feature keeps its old index |
| ReplayProperties.EarlierReferenceIsFinal | app/SketchBuilder.py:247-254 | a reference to a feature no later step places reads its final index, which is its last position so far |
| ReplayProperties.ForwardReferenceReadsStale | app/SketchBuilder.py:247-254 | a reference to a feature not placed yet reads what it held before the build (0 when new) |
| ReplayProperties.ForwardReferenceExample | app/SketchBuilder.py:247-260 | a line tied to a later line writes a record pointing at the stale index, while the later line ends at index 1 |
| ReplayProperties.LineLayout | app/SketchBuilder.py:147-157 | one segment from the cursor to cursor + delta; the cursor moves to its end; the line holds its index; its records come in order, anchored at (idx, 1) and (idx, 2); a toggle only when it is construction |
| ReplayProperties.CircleLayout | app/SketchBuilder.py:198-206 | one circle with its own centre and radius; the cursor stays; records anchored at (idx, 3); a toggle only when it is construction |
| ReplayProperties.PointLayout | app/SketchBuilder.py:167-172 | a control point writes Radius(idx, 10) first, then coincidences ending in (idx, 3), and toggles idx |
| ReplayProperties.CentersAt | app/SketchBuilder.py:176-178 | the collected poles are the centres of the control points, in order |
| ReplayProperties.CirclesAdded | app/SketchBuilder.py:176-177 | n control points add exactly their n circles, in order, and leave the cursor |
| ReplayProperties.BsplineLayout | app/SketchBuilder.py:174-183 | m circles and then a non-periodic, degree-3 spline whose poles are exactly their centres; the spline holds the index after the last circle; it writes no record or toggle of its own |
| ReplayProperties.RebuildIsStable | app/AbstractBuilder.py:19-36 | when every reference points backwards, two builds from any old indices produce the same geometry, records, toggles and placed indices |
| MainScenario.BaseLineStep | app/SketchBuilder.py:291-293 | the base line from (-90, 0) ends at (90, 0) as entry 0, with Horizontal, DistanceX 180 and symmetry records, toggled |
| MainScenario.HeightLineStep | app/SketchBuilder.py:294-295 | the height line from (0, 0) to (0, 65) as entry 1, with Vertical, DistanceY 65 and a coincidence with the origin, toggled |
| MainScenario.PlainPointStep | app/SketchBuilder.py:300 | a control point with no tie adds its circle and one Radius record, toggled |
| MainScenario.TiedPointStep | app/SketchBuilder.py:298-299 | a tied control point adds its circle, then a Radius record and a coincidence with the other feature's current index |
| MainScenario.FirstTwoPoints | app/SketchBuilder.py:298-300 | the first two control points become entries 2 and 3 |
| MainScenario.FirstPoints | app/SketchBuilder.py:298-301 | the first three control points become entries 2 to 4, the third tied to the height line's end |
| MainScenario.FourPoints | app/SketchBuilder.py:298-302 | the first four control points become entries 2 to 5 |
| MainScenario.PointsPhase | app/SketchBuilder.py:298-304 | all five control points become entries 2 to 6, with their records in order |
| MainScenario.LinesPhase | app/SketchBuilder.py:291-295 | the features before the spline give the two segments, their six records and toggles 0 and 1 |
| MainScenario.SplinePhase | app/SketchBuilder.py:297-306 | the spline feature adds the five circles and then a spline through their centres at index 7 |
| MainScenario.MainSketch | app/SketchBuilder.py:282-306 | the "TestSketch" build: the exact geometry list, the 14 records, toggles 0 to 6, the lines at 0 and 1, the points at 2 to 6 and the spline at 7 |
| MainScenario.MainPlacement | app/SketchBuilder.py:291-306 | the indices that build writes: base line 0, height line 1, points 2 to 6, spline 7 |
| MainScenario.MainConstruction | app/SketchBuilder.py:292-304 | toggles 0 to 6 make exactly entries 0 to 6 construction geometry |
| MainScenario.AddPoint | app/SketchBuilder.py:298-304 | `point(x, y)`, then `coincident` when the point is tied: a fresh circle appended to the spline, holding Radius(10) and the tie, construction |
| MainScenario.SplinePoints | app/SketchBuilder.py:298-304 | the five `point` calls append five distinct fresh circles with the fields of the main block's control points |
| MainScenario.BaseLineCalls | app/SketchBuilder.py:292-293 | the base-line calls append one fresh feature, the symmetric construction base line |
| MainScenario.HeightLineCalls | app/SketchBuilder.py:294-295 | the move and height-line calls append a fresh move to (0, 0) and the construction height line tied to the origin |
| MainScenario.SplineCalls | app/SketchBuilder.py:297-304 | the spline calls append one fresh spline whose control points are the main block's five |
| MainScenario.MainCalls | app/SketchBuilder.py:291-304 | all builder calls of the main block, in order: five fresh, distinct features with the main block's shapes |
| MainScenario.MainShapes | app/SketchBuilder.py:291-304 | features with those shapes give the main block's shape list |
| MainScenario.MainUniverse | app/SketchBuilder.py:291-304 | the main block's features are well formed, and a build touches only them and the control circles |
| MainScenario.MainRun | app/SketchBuilder.py:291-306 | whatever indices the features hold, a build of them produces the main block's geometry, records and toggles |
| MainScenario.MainBuilder | app/SketchBuilder.py:291-304 | after the builder calls, a build touches only objects those calls made and produces the main block's sketch |
| MainScenario.MainBlock | app/SketchBuilder.py:291-306 | the builder calls and `build("TestSketch")` leave that sketch with the main block's geometry, records and toggles; every entry but the spline is construction geometry |

## Left out

- InitGui.py (workbench registration) is not part of this model.
- Console output (`print`) is left out; it changes no state.
- FreeCAD vectors of floating-point numbers are exact `real` points. There is
  no rounding, and there is no third coordinate; the circle normal (0, 0, 1) is
  implicit.
- Part's curves and the sketch solver are left out. A geometry entry is the
  data it was built from. A constraint record is the type tag and the
  arguments given to `Sketcher.Constraint`.
- `Part.BSplineCurve`: the arguments left as `None`/`False`, other than
  periodic and degree, are not recorded.
- `Document.Recompute` is a no-op. Solving changes nothing the builder observes.
- `FreeCAD.ActiveDocument` is passed in as a `Document`. The main block's
  "no active document" branch is left out.
- Document.FindObjects matches by exact name and ignores the object type. The
  document holds only sketch objects.
- Builder.SketchBuilder.Build requires that no circle carries a Horizontal,
  Vertical, symmetry or distance constraint. This covers a control-point
  circle, and a circle feature added directly with `addFeature`. Such a constraint
  would index the missing second anchor (`None`), and the source then raises
  an exception partway through the build. That error path is not modelled.
- AbstractBuilder and SketchBuilder are one class. So are all the feature
  classes, since Dafny classes have no inheritance here. The base
  `AbstractFeature.append` no-op is the move case minus the context update.
  `AbstractBuilder.build_context` returning `None` is unreachable once
  merged.
- `object_type` ("Sketcher::SketchObject") is not stored. Only sketches are
  built.
- The fluent constraint methods (`Construction`, `Horizontal` and so on, up to
  `Coincident`) require a feature that is not a move. A move feature has none
  of them, and calling one in the source raises an exception.
- Referencing a move feature in a coincidence gives index 0 in the model. In
  the source a move has no `geometry_index` attribute, so this would raise an
  exception.
- The spline's `builder` field is not modelled; nothing reads it. A spline's
  own constraints and construction flag are never applied by its `append`.
  The model keeps them, and `BsplineLayout` states that they have no effect.
- MainScenario.MainBlock takes the document as a parameter. It uses the main
  block's numbers already worked out, for example 90 for `base_length / 2`.
