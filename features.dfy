// Drawing features and the constraints attached to them.
//
// A feature is an object: its fluent methods append to its constraint list, and
// applying it writes its geometryIndex. Each `Append*` method is proved against
// the pure replay step of the same name (`Step`, `LineStep`, ...), which says
// what the sketch, the context and the features' indices are once the feature
// has been applied.

module Features {
  import opened Sketcher
  import opened BuilderContext

  /** Where a coincidence points: a literal (geometry, point) pair, or a point of
      another feature named by identity, whose geometryIndex is read only when
      the constraint is applied. */
  datatype PointRef =
    | Literal(anchor: Anchor)
    | OfFeature(feature: Feature, pos: int)

  type DistanceType = t: ConstraintType | t == DistanceX || t == DistanceY witness DistanceX

  /** A constraint attached to a feature, not yet applied to a sketch. */
  datatype Constraint =
    | HorizontalConstraint
    | VerticalConstraint
    | SymmetryConstraint(point: Anchor)
    | CoincidentConstraint(target: PointRef)
    | DistanceConstraint(distance: real, distanceType: DistanceType)
    | RadiusConstraint(radius: real)
  {
    /** The kinds that read the second anchor; a circle has none to give. */
    predicate NeedsSecond()
    {
      HorizontalConstraint? || VerticalConstraint? || SymmetryConstraint? || DistanceConstraint?
    }

    /** The referenced feature's geometryIndex as it is right now (0 when the
        constraint references no feature). */
    function ReferencedIndex(): int
      reads if CoincidentConstraint? && target.OfFeature? then {target.feature} else {}
    {
      if CoincidentConstraint? && target.OfFeature? then target.feature.geometryIndex else 0
    }

    /** Writes this constraint's record, anchored at idx1 (and idx2). */
    method Apply(sketch: Sketch, idx1: Anchor, idx2: Option<Anchor>)
      requires NeedsSecond() ==> idx2.Some?
      modifies sketch`constraints
      ensures sketch.constraints == old(sketch.constraints) + [Materialize(this, idx1, idx2, ReferencedIndex())]
    {
      var featureIndex := ReferencedIndex();
      sketch.AddConstraint(Materialize(this, idx1, idx2, featureIndex));
    }
  }

  /** The record a constraint writes when anchored at idx1 (and idx2), given the
      geometryIndex its referenced feature holds at that moment. */
  function Materialize(c: Constraint, idx1: Anchor, idx2: Option<Anchor>, featureIndex: int): (r: Record)
    requires c.NeedsSecond() ==> idx2.Some?
    ensures c.NeedsSecond() ==> |r.ints| == (if c.SymmetryConstraint? then 6 else 4) &&
                                r.ints[..4] == [idx1.geo, idx1.pos, idx2.value.geo, idx2.value.pos]
    ensures c.HorizontalConstraint? ==> r.kind == Horizontal && r.value == None
    ensures c.VerticalConstraint? ==> r.kind == Vertical && r.value == None
    ensures c.SymmetryConstraint? ==> r.kind == Symmetric && r.ints[4..] == [c.point.geo, c.point.pos] && r.value == None
    ensures c.DistanceConstraint? ==> r.kind == c.distanceType && r.value == Some(c.distance)
    ensures c.CoincidentConstraint? ==>
              r.kind == Coincident && |r.ints| == 4 && r.value == None && r.ints[2..] == [idx1.geo, idx1.pos] &&
              r.ints[..2] == (match c.target
                              case Literal(a) => [a.geo, a.pos]
                              case OfFeature(_, pos) => [featureIndex, pos])
    ensures c.RadiusConstraint? ==> r == Record(Radius, [idx1.geo], Some(c.radius))
  {
    match c
    case HorizontalConstraint =>
      Record(Horizontal, [idx1.geo, idx1.pos, idx2.value.geo, idx2.value.pos], None)
    case VerticalConstraint =>
      Record(Vertical, [idx1.geo, idx1.pos, idx2.value.geo, idx2.value.pos], None)
    case SymmetryConstraint(p) =>
      Record(Symmetric, [idx1.geo, idx1.pos, idx2.value.geo, idx2.value.pos, p.geo, p.pos], None)
    case CoincidentConstraint(target) =>
      var point := match target
        case Literal(a) => a
        case OfFeature(_, pos) => Anchor(featureIndex, pos);
      Record(Coincident, [point.geo, point.pos, idx1.geo, idx1.pos], None)
    case DistanceConstraint(d, t) =>
      Record(t, [idx1.geo, idx1.pos, idx2.value.geo, idx2.value.pos], Some(d))
    case RadiusConstraint(radius) =>
      Record(Radius, [idx1.geo], Some(radius))
  }

  /** Constraints a circle can carry: it passes no second anchor. */
  predicate CircleSafe(cs: seq<Constraint>)
  {
    forall k :: 0 <= k < |cs| ==> !cs[k].NeedsSecond()
  }

  /** The features that coincidences in cs reference. */
  function Targets(cs: seq<Constraint>): set<Feature>
  {
    set k | 0 <= k < |cs| && cs[k].CoincidentConstraint? && cs[k].target.OfFeature? :: cs[k].target.feature
  }

  datatype FeatureKind =
    | MoveKind(x: real, y: real)
    | LineKind(toAdd: Point)
    | CircleKind(center: Point, radius: real)
    | BsplineKind

  class Feature {
    const kind: FeatureKind
    var constraints: seq<Constraint>
    var constructionGeometry: bool
    var geometryIndex: int
    /** The control-point circles of a B-spline; empty for every other kind. */
    var circles: seq<Feature>

    constructor Move(x: real, y: real)
      ensures kind == MoveKind(x, y)
      ensures constraints == [] && !constructionGeometry && geometryIndex == 0 && circles == []
    {
      kind := MoveKind(x, y);
      constraints, constructionGeometry, geometryIndex, circles := [], false, 0, [];
    }

    constructor Line(addX: real, addY: real)
      ensures kind == LineKind(Sketcher.Point(addX, addY))
      ensures constraints == [] && !constructionGeometry && geometryIndex == 0 && circles == []
    {
      kind := LineKind(Sketcher.Point(addX, addY));
      constraints, constructionGeometry, geometryIndex, circles := [], false, 0, [];
    }

    constructor Circle(x: real, y: real, radius: real)
      ensures kind == CircleKind(Sketcher.Point(x, y), radius)
      ensures constraints == [] && !constructionGeometry && geometryIndex == 0 && circles == []
    {
      kind := CircleKind(Sketcher.Point(x, y), radius);
      constraints, constructionGeometry, geometryIndex, circles := [], false, 0, [];
    }

    constructor Bspline()
      ensures kind == BsplineKind
      ensures constraints == [] && !constructionGeometry && geometryIndex == 0 && circles == []
    {
      kind := BsplineKind;
      constraints, constructionGeometry, geometryIndex, circles := [], false, 0, [];
    }

    // Fluent constraint methods: each appends one constraint and returns this.
    // A move feature has none of them.

    method Construction() returns (self: Feature)
      requires !kind.MoveKind?
      modifies this`constructionGeometry
      ensures constructionGeometry && self == this
    {
      constructionGeometry := true;
      self := this;
    }

    method AddConstraint(c: Constraint) returns (self: Feature)
      requires !kind.MoveKind?
      modifies this`constraints
      ensures constraints == old(constraints) + [c] && self == this
    {
      constraints := constraints + [c];
      self := this;
    }

    method Horizontal() returns (self: Feature)
      requires !kind.MoveKind?
      modifies this`constraints
      ensures constraints == old(constraints) + [HorizontalConstraint] && self == this
    {
      self := AddConstraint(HorizontalConstraint);
    }

    method Vertical() returns (self: Feature)
      requires !kind.MoveKind?
      modifies this`constraints
      ensures constraints == old(constraints) + [VerticalConstraint] && self == this
    {
      self := AddConstraint(VerticalConstraint);
    }

    method SymmetricToOrigin() returns (self: Feature)
      requires !kind.MoveKind?
      modifies this`constraints
      ensures constraints == old(constraints) + [SymmetryConstraint(Origin)] && self == this
    {
      self := AddConstraint(SymmetryConstraint(Origin));
    }

    method DistanceX(distance: real) returns (self: Feature)
      requires !kind.MoveKind?
      modifies this`constraints
      ensures constraints == old(constraints) + [DistanceConstraint(distance, ConstraintType.DistanceX)] && self == this
    {
      self := AddConstraint(DistanceConstraint(distance, ConstraintType.DistanceX));
    }

    method DistanceY(distance: real) returns (self: Feature)
      requires !kind.MoveKind?
      modifies this`constraints
      ensures constraints == old(constraints) + [DistanceConstraint(distance, ConstraintType.DistanceY)] && self == this
    {
      self := AddConstraint(DistanceConstraint(distance, ConstraintType.DistanceY));
    }

    method CoincidentToOrigin() returns (self: Feature)
      requires !kind.MoveKind?
      modifies this`constraints
      ensures constraints == old(constraints) + [CoincidentConstraint(Literal(Origin))] && self == this
    {
      self := AddConstraint(CoincidentConstraint(Literal(Origin)));
    }

    /** Ties a point of this feature to point pointIndex of another feature,
        by reference: nothing about that feature is read here. */
    method Coincident(feature: Feature, pointIndex: int) returns (self: Feature)
      requires !kind.MoveKind?
      modifies this`constraints
      ensures constraints == old(constraints) + [CoincidentConstraint(OfFeature(feature, pointIndex))]
      ensures self == this
    {
      self := AddConstraint(CoincidentConstraint(OfFeature(feature, pointIndex)));
    }

    method ConstraintRadius() returns (self: Feature)
      requires kind.CircleKind?
      modifies this`constraints
      ensures constraints == old(constraints) + [RadiusConstraint(kind.radius)] && self == this
    {
      self := AddConstraint(RadiusConstraint(kind.radius));
    }

    /** Adds a control point: a radius-10 construction circle holding its radius. */
    method Point(x: real, y: real) returns (circle: Feature)
      requires kind.BsplineKind?
      modifies this`circles
      ensures fresh(circle) && circles == old(circles) + [circle]
      ensures circle.kind == CircleKind(Sketcher.Point(x, y), 10.0)
      ensures circle.constraints == [RadiusConstraint(10.0)] && circle.constructionGeometry
      ensures circle.geometryIndex == 0 && circle.circles == []
    {
      circle := new Feature.Circle(x, y, 10.0);
      var c := circle.ConstraintRadius();
      c := circle.Construction();
      circles := circles + [circle];
    }

    // Applying a feature.

    /** Takes the next geometry index from the context and keeps it. */
    method GeometryAdded(ctx: Context)
      modifies this`geometryIndex, ctx`geometryIndex
      ensures ctx.geometryIndex == old(ctx.geometryIndex) + 1
      ensures geometryIndex == ctx.geometryIndex
    {
      geometryIndex := ctx.GeometryAdded();
    }

    /** Marks the last added entry as construction geometry if so requested. */
    method ApplyConstruction(sketch: Sketch, ctx: Context)
      modifies sketch`toggles
      ensures sketch.toggles == old(sketch.toggles) + (if constructionGeometry then [ctx.geometryIndex] else [])
    {
      if constructionGeometry {
        sketch.ToggleConstruction(ctx.geometryIndex);
      }
    }

    /** Applies every attached constraint, in order, anchored at idx1 (and idx2). */
    method ApplyConstraints(sketch: Sketch, idx1: Anchor, idx2: Option<Anchor>,
                            ghost s: ReplayState, ghost objs: set<Feature>)
      requires idx2.None? ==> CircleSafe(constraints)
      requires Agrees(s, objs) && Targets(constraints) <= objs
      modifies sketch`constraints
      ensures sketch.constraints == old(sketch.constraints) + Records(constraints, idx1, idx2, s)
    {
      var i := 0;
      while i < |constraints|
        invariant 0 <= i <= |constraints|
        invariant sketch.constraints == old(sketch.constraints) + Records(constraints[..i], idx1, idx2, s)
      {
        var c := constraints[i];
        assert c.CoincidentConstraint? && c.target.OfFeature? ==> c.target.feature in Targets(constraints);
        c.Apply(sketch, idx1, idx2);
        assert constraints[..i + 1][..i] == constraints[..i];
        i := i + 1;
      }
      assert constraints[..i] == constraints;
    }

    method AppendLine(sketch: Sketch, ctx: Context, ghost sh: Shape, ghost s: ReplayState, ghost objs: set<Feature>)
      requires kind.LineKind? && Fields(this, sh)
      requires Follows(sketch, ctx, s, objs) && Targets(constraints) <= objs
      modifies sketch`geometry, sketch`constraints, sketch`toggles, ctx`cursor, ctx`geometryIndex, this`geometryIndex
      ensures Follows(sketch, ctx, LineStep(sh, s), objs)
    {
      var start, end := ctx.Add(kind.toAdd);
      sketch.AddGeometry(Geom.Line(start, end));
      GeometryAdded(ctx);
      ghost var s1 := Placed(this, s.(cursor := end, geometry := s.geometry + [Geom.Line(start, end)]));
      ApplyConstraints(sketch, Anchor(ctx.geometryIndex, 1), Some(Anchor(ctx.geometryIndex, 2)), s1, objs);
      ApplyConstruction(sketch, ctx);
    }

    method AppendCircle(sketch: Sketch, ctx: Context, ghost sh: Shape, ghost s: ReplayState, ghost objs: set<Feature>)
      requires kind.CircleKind? && CircleSafe(constraints) && Fields(this, sh)
      requires Follows(sketch, ctx, s, objs) && Targets(constraints) <= objs
      modifies sketch`geometry, sketch`constraints, sketch`toggles, ctx`geometryIndex, this`geometryIndex
      ensures Follows(sketch, ctx, CircleStep(sh, s), objs)
    {
      sketch.AddGeometry(Geom.Circle(kind.center, kind.radius));
      GeometryAdded(ctx);
      ghost var s1 := Placed(this, s.(geometry := s.geometry + [Geom.Circle(kind.center, kind.radius)]));
      ApplyConstraints(sketch, Anchor(ctx.geometryIndex, 3), None, s1, objs);
      ApplyConstruction(sketch, ctx);
    }

    /** Applies control point i on top of the state the points before it
        produced, and returns its centre. */
    method AppendPoint(i: nat, sketch: Sketch, ctx: Context, ghost sh: Shape, ghost s: ReplayState,
                       ghost objs: set<Feature>) returns (center: Sketcher.Point)
      requires i < |circles| == |sh.points| && Fields(circles[i], sh.points[i])
      requires AllCircles(sh.points) && Targets(sh.points[i].constraints) <= objs
      requires Follows(sketch, ctx, Replay(sh.points, i, s), objs)
      modifies sketch`geometry, sketch`constraints, sketch`toggles, ctx`geometryIndex, {circles[i]}`geometryIndex
      ensures Follows(sketch, ctx, Replay(sh.points, i + 1, s), objs)
      ensures center == sh.points[i].kind.center
    {
      circles[i].AppendCircle(sketch, ctx, sh.points[i], Replay(sh.points, i, s), objs);
      assert Step(sh.points[i], Replay(sh.points, i, s)) == CircleStep(sh.points[i], Replay(sh.points, i, s));
      center := circles[i].kind.center;
    }

    /** Applies the control-point circles in order and collects their centres. */
    method AppendCircles(sketch: Sketch, ctx: Context, ghost sh: Shape, ghost s: ReplayState, ghost objs: set<Feature>)
      returns (poles: seq<Sketcher.Point>)
      requires Describes(this, sh) && AllCircles(sh.points)
      requires forall k :: 0 <= k < |sh.points| ==> Targets(sh.points[k].constraints) <= objs
      requires Follows(sketch, ctx, s, objs)
      modifies sketch`geometry, sketch`constraints, sketch`toggles, ctx`geometryIndex, circles`geometryIndex
      ensures Follows(sketch, ctx, Replay(sh.points, |sh.points|, s), objs)
      ensures poles == Centers(sh.points, |sh.points|)
    {
      poles := [];
      var i := 0;
      while i < |circles|
        invariant 0 <= i <= |circles|
        invariant Follows(sketch, ctx, Replay(sh.points, i, s), objs)
        invariant poles == Centers(sh.points, i)
      {
        var center := AppendPoint(i, sketch, ctx, sh, s, objs);
        poles := poles + [center];
        i := i + 1;
      }
    }

    /** Applies the control-point circles, then adds the spline through their
        centres. The spline's own constraints and construction flag are not used. */
    method AppendBspline(sketch: Sketch, ctx: Context, ghost sh: Shape, ghost s: ReplayState, ghost objs: set<Feature>)
      requires kind.BsplineKind? && Describes(this, sh) && WellFormed(sh)
      requires Follows(sketch, ctx, s, objs) && ShapeTargets(sh) <= objs
      modifies sketch`geometry, sketch`constraints, sketch`toggles, ctx`geometryIndex, this`geometryIndex,
               circles`geometryIndex
      ensures Follows(sketch, ctx, BsplineStep(sh, s), objs)
    {
      PointTargets(sh);
      var poles := AppendCircles(sketch, ctx, sh, s, objs);
      ghost var s1 := Replay(sh.points, |sh.points|, s);
      sketch.AddGeometry(BSpline(poles, false, 3));
      GeometryAdded(ctx);
      ghost var s2 := BsplineStep(sh, s);
      assert s2 == Placed(this, s1.(geometry := s1.geometry + [BSpline(poles, false, 3)]));
      forall t | t in objs
        ensures t.geometryIndex == IndexOf(s2, t)
      {
        if t != this {
          assert IndexOf(s2, t) == IndexOf(s1, t);
        }
      }
    }

    /** Applies this feature to the sketch, in the context of one build. */
    method Append(sketch: Sketch, ctx: Context, ghost sh: Shape, ghost s: ReplayState, ghost objs: set<Feature>)
      requires Describes(this, sh) && WellFormed(sh)
      requires Follows(sketch, ctx, s, objs) && ShapeTargets(sh) <= objs
      modifies sketch`geometry, sketch`constraints, sketch`toggles, ctx`cursor, ctx`geometryIndex, this`geometryIndex,
               circles`geometryIndex
      ensures Follows(sketch, ctx, Step(sh, s), objs)
    {
      match kind
      case MoveKind(x, y) =>
        ctx.Move(x, y);
      case LineKind(_) =>
        AppendLine(sketch, ctx, sh, s, objs);
      case CircleKind(_, _) =>
        AppendCircle(sketch, ctx, sh, s, objs);
      case BsplineKind =>
        AppendBspline(sketch, ctx, sh, s, objs);
    }
  }

  // The replay specification. It works on Shapes: what a build reads of each
  // feature (everything but its geometryIndex), so that writing indices during
  // the build leaves the specification untouched.

  /** A feature as a build reads it: its identity, kind, constraints,
      construction flag and, for a B-spline, its control-point circles. */
  datatype Shape = Shape(
    obj: Feature,
    kind: FeatureKind,
    constraints: seq<Constraint>,
    construction: bool,
    points: seq<Shape>)

  /** sh holds f's own fields (its control points aside). */
  ghost predicate Fields(f: Feature, sh: Shape)
    reads f`constraints, f`constructionGeometry
  {
    sh.obj == f && sh.kind == f.kind && sh.constraints == f.constraints && sh.construction == f.constructionGeometry
  }

  /** sh is what a build reads of f, control points included. */
  ghost predicate Describes(f: Feature, sh: Shape)
    reads f`constraints, f`constructionGeometry, f`circles, f.circles`constraints, f.circles`constructionGeometry
  {
    Fields(f, sh) && |sh.points| == |f.circles| &&
    forall k :: 0 <= k < |f.circles| ==> Fields(f.circles[k], sh.points[k])
  }

  function ShapeOf(f: Feature): (sh: Shape)
    reads f`constraints, f`constructionGeometry, f`circles, f.circles`constraints, f.circles`constructionGeometry
    ensures Describes(f, sh)
  {
    Shape(f, f.kind, f.constraints, f.constructionGeometry, Leaves(f.circles))
  }

  /** The shapes of control-point circles, whose own control points are never read. */
  function Leaves(cs: seq<Feature>): (r: seq<Shape>)
    reads cs`constraints, cs`constructionGeometry
    ensures |r| == |cs| && forall k :: 0 <= k < |cs| ==> Fields(cs[k], r[k]) && r[k].points == []
  {
    if cs == [] then []
    else Leaves(cs[..|cs| - 1]) + [Shape(cs[|cs| - 1], cs[|cs| - 1].kind, cs[|cs| - 1].constraints,
                                         cs[|cs| - 1].constructionGeometry, [])]
  }
  /** Leaves is fixed by the circles' fields: circles holding the fields of
      shapes without control points give exactly those shapes. */
  lemma {:induction false} LeavesFields(cs: seq<Feature>, shs: seq<Shape>)
    requires |cs| == |shs| && forall k :: 0 <= k < |cs| ==> Fields(cs[k], shs[k]) && shs[k].points == []
    ensures Leaves(cs) == shs
  {
    if cs != [] {
      LeavesFields(cs[..|cs| - 1], shs[..|shs| - 1]);
      assert shs == shs[..|shs| - 1] + [shs[|shs| - 1]];
    }
  }


  /** The geometryIndex written to each feature applied so far in this build
      (placed), and the value each feature held before the build (stale). */
  datatype Indices = Indices(placed: map<Feature, int>, stale: map<Feature, int>)

  /** The state of a build between two features: the context, the sketch's three
      lists, and the features' indices. */
  datatype ReplayState = ReplayState(
    cursor: Point,
    counter: int,
    geometry: seq<Geom>,
    records: seq<Record>,
    toggles: seq<int>,
    indices: Indices)

  /** The geometryIndex feature t holds in state s. */
  function IndexOf(s: ReplayState, t: Feature): int
  {
    var ix := s.indices;
    if t in ix.placed then ix.placed[t] else if t in ix.stale then ix.stale[t] else 0
  }

  /** The sketch and the context are the ones state s describes. */
  ghost predicate Matches(sketch: Sketch, ctx: Context, s: ReplayState)
    reads sketch`geometry, sketch`constraints, sketch`toggles, ctx`cursor, ctx`geometryIndex
  {
    ctx.cursor == s.cursor && ctx.geometryIndex == s.counter &&
    sketch.geometry == s.geometry && sketch.constraints == s.records && sketch.toggles == s.toggles
  }

  /** The sketch, the context and the indices of objs are the ones s describes. */
  ghost predicate Follows(sketch: Sketch, ctx: Context, s: ReplayState, objs: set<Feature>)
    reads sketch`geometry, sketch`constraints, sketch`toggles, ctx`cursor, ctx`geometryIndex, objs`geometryIndex
  {
    Matches(sketch, ctx, s) && Agrees(s, objs)
  }

  /** Every feature in objs holds the geometryIndex that s assigns it. */
  ghost predicate Agrees(s: ReplayState, objs: set<Feature>)
    reads objs`geometryIndex
  {
    forall t :: t in objs ==> t.geometryIndex == IndexOf(s, t)
  }

  /** Counts one more entry and writes the new index to f. */
  function Placed(f: Feature, s: ReplayState): ReplayState
  {
    s.(counter := s.counter + 1, indices := s.indices.(placed := s.indices.placed[f := s.counter + 1]))
  }

  /** The records of cs applied in order, anchored at idx1 (and idx2), each
      feature reference read in state s. */
  function Records(cs: seq<Constraint>, idx1: Anchor, idx2: Option<Anchor>, s: ReplayState): (r: seq<Record>)
    requires idx2.None? ==> CircleSafe(cs)
    ensures |r| == |cs|
  {
    if cs == [] then []
    else Records(cs[..|cs| - 1], idx1, idx2, s) + [Materialize(cs[|cs| - 1], idx1, idx2, RefIndex(cs[|cs| - 1], s))]
  }

  /** One record per constraint, in attachment order, each the record of that
      constraint with the feature reference resolved in s. */
  lemma {:induction false} RecordsAt(cs: seq<Constraint>, idx1: Anchor, idx2: Option<Anchor>, s: ReplayState)
    requires idx2.None? ==> CircleSafe(cs)
    ensures forall k :: 0 <= k < |cs| ==>
              Records(cs, idx1, idx2, s)[k] == Materialize(cs[k], idx1, idx2, RefIndex(cs[k], s))
  {
    if cs != [] {
      RecordsAt(cs[..|cs| - 1], idx1, idx2, s);
    }
  }

  /** The geometryIndex that c reads in state s (0 when c references no feature). */
  function RefIndex(c: Constraint, s: ReplayState): int
  {
    if c.CoincidentConstraint? && c.target.OfFeature? then IndexOf(s, c.target.feature) else 0
  }

  function ConstructionToggle(sh: Shape, index: int): seq<int>
  {
    if sh.construction then [index] else []
  }

  function LineStep(sh: Shape, s: ReplayState): ReplayState
    requires sh.kind.LineKind?
  {
    var end := Plus(s.cursor, sh.kind.toAdd);
    var s1 := Placed(sh.obj, s.(cursor := end, geometry := s.geometry + [Geom.Line(s.cursor, end)]));
    var n := s1.counter;
    s1.(records := s1.records + Records(sh.constraints, Anchor(n, 1), Some(Anchor(n, 2)), s1),
        toggles := s1.toggles + ConstructionToggle(sh, n))
  }

  function CircleStep(sh: Shape, s: ReplayState): ReplayState
    requires sh.kind.CircleKind? && CircleSafe(sh.constraints)
  {
    var s1 := Placed(sh.obj, s.(geometry := s.geometry + [Geom.Circle(sh.kind.center, sh.kind.radius)]));
    var n := s1.counter;
    s1.(records := s1.records + Records(sh.constraints, Anchor(n, 3), None, s1),
        toggles := s1.toggles + ConstructionToggle(sh, n))
  }

  predicate AllCircles(ps: seq<Shape>)
  {
    forall k :: 0 <= k < |ps| ==> ps[k].kind.CircleKind? && CircleSafe(ps[k].constraints)
  }

  lemma PointTargets(sh: Shape)
    ensures forall k :: 0 <= k < |sh.points| ==> Targets(sh.points[k].constraints) <= ShapeTargets(sh)
  {
  }

  /** The centres of the first n control points of ps, in order. */
  function Centers(ps: seq<Shape>, n: nat): (p: seq<Point>)
    requires n <= |ps| && AllCircles(ps)
    ensures |p| == n
  {
    if n == 0 then [] else Centers(ps, n - 1) + [ps[n - 1].kind.center]
  }

  function BsplineStep(sh: Shape, s: ReplayState): ReplayState
    requires sh.kind.BsplineKind? && AllCircles(sh.points)
    decreases sh, 0
  {
    var s1 := Replay(sh.points, |sh.points|, s);
    Placed(sh.obj, s1.(geometry := s1.geometry + [BSpline(Centers(sh.points, |sh.points|), false, 3)]))
  }

  /** A feature the builder can replay: a circle passes no second anchor to its
      constraints, and a spline's control points are such circles. */
  predicate WellFormed(sh: Shape)
  {
    (sh.kind.CircleKind? ==> CircleSafe(sh.constraints)) &&
    (sh.kind.BsplineKind? ==> AllCircles(sh.points))
  }

  /** The features the coincidences of sh reference, its control points' included. */
  function ShapeTargets(sh: Shape): set<Feature>
  {
    Targets(sh.constraints) + (set k, t | 0 <= k < |sh.points| && t in Targets(sh.points[k].constraints) :: t)
  }

  predicate AllWellFormed(shs: seq<Shape>)
  {
    forall k :: 0 <= k < |shs| ==> WellFormed(shs[k])
  }

  /** The state after applying the first n features of shs, in order, from s. */
  function Replay(shs: seq<Shape>, n: nat, s: ReplayState): ReplayState
    requires n <= |shs| && AllWellFormed(shs)
    decreases shs, n
  {
    if n == 0 then s else Step(shs[n - 1], Replay(shs, n - 1, s))
  }

  /** The state after applying one feature. */
  function Step(sh: Shape, s: ReplayState): ReplayState
    requires WellFormed(sh)
    decreases sh
  {
    match sh.kind
    case MoveKind(x, y) => s.(cursor := Point(x, y))
    case LineKind(_) => LineStep(sh, s)
    case CircleKind(_, _) => CircleStep(sh, s)
    case BsplineKind => BsplineStep(sh, s)
  }
}
