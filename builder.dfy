// The sketch builder: it collects features through fluent calls and, on
// `Build`, resolves the target sketch (reusing it only when exactly one sketch
// has the requested name), clears it, and replays every feature in insertion
// order against it with one fresh context.

module Builder {
  import opened Sketcher
  import opened BuilderContext
  import opened Features

  /** The control-point circles of the features in fs. */
  function ControlPoints(fs: seq<Feature>): set<Feature>
    reads fs`circles
  {
    set k, j | 0 <= k < |fs| && 0 <= j < |fs[k].circles| :: fs[k].circles[j]
  }

  /** What a build reads of each feature of fs. */
  function Shapes(fs: seq<Feature>): (r: seq<Shape>)
    reads fs, ControlPoints(fs)
    ensures |r| == |fs| && forall k :: 0 <= k < |fs| ==> Describes(fs[k], r[k])
  {
    if fs == [] then [] else Shapes(fs[..|fs| - 1]) + [ShapeOf(fs[|fs| - 1])]
  }

  /** The features of shs and their control-point circles. */
  function Members(shs: seq<Shape>): set<Feature>
  {
    (set k | 0 <= k < |shs| :: shs[k].obj) +
    (set k, j | 0 <= k < |shs| && 0 <= j < |shs[k].points| :: shs[k].points[j].obj)
  }

  /** Every feature a coincidence in shs (or in a control point) references. */
  function AllTargets(shs: seq<Shape>): set<Feature>
  {
    set k, t | 0 <= k < |shs| && t in ShapeTargets(shs[k]) :: t
  }

  /** The features whose geometryIndex a build of shs writes or reads. */
  function Universe(shs: seq<Shape>): set<Feature>
  {
    Members(shs) + AllTargets(shs)
  }


  /** The geometryIndex every feature of objs holds right now. */
  function Snapshot(objs: set<Feature>): map<Feature, int>
    reads objs`geometryIndex
  {
    map t | t in objs :: t.geometryIndex
  }

  /** The state a build starts from: cursor at the origin, counter -1, empty
      lists, nothing placed yet. */
  function Initial(stale: map<Feature, int>): ReplayState
  {
    ReplayState(Point(0.0, 0.0), -1, [], [], [], Indices(map[], stale))
  }


  /** What one build of fs produces, from the indices its features hold now. */
  function Run(fs: seq<Feature>): ReplayState
    requires AllWellFormed(Shapes(fs))
    reads fs, ControlPoints(fs), Universe(Shapes(fs))
  {
    var shs := Shapes(fs);
    Replay(shs, |shs|, Initial(Snapshot(Universe(shs))))
  }

  /** The sketch a build of name may clear and refill: the only sketch called
      name, if there is exactly one. */
  function Reusable(doc: Document, name: string): set<Sketch>
    reads doc`objects
  {
    var candidates := doc.FindObjects(name);
    if |candidates| == 1 then {candidates[0]} else {}
  }

  /** The sketch a build may reuse is one of the document's objects. */
  lemma ReusableListed(doc: Document, name: string)
    ensures forall s :: s in Reusable(doc, name) ==> s in doc.objects && s.name == name
  {
  }

  /** Everything a build of sh writes or reads lies in objs. */
  predicate Contained(sh: Shape, objs: set<Feature>)
  {
    ShapeTargets(sh) <= objs && sh.obj in objs && forall j :: 0 <= j < |sh.points| ==> sh.points[j].obj in objs
  }

  lemma Covered(shs: seq<Shape>, objs: set<Feature>)
    requires Universe(shs) <= objs
    ensures forall i :: 0 <= i < |shs| ==> Contained(shs[i], objs)
  {
  }

  class SketchBuilder {
    var features: seq<Feature>

    /** A builder whose first feature moves the cursor to the start point. */
    constructor (startX: real := 0.0, startY: real := 0.0)
      ensures |features| == 1 && fresh(features[0])
      ensures features[0].kind == MoveKind(startX, startY)
      ensures features[0].constraints == [] && !features[0].constructionGeometry && features[0].circles == []
      ensures features[0].geometryIndex == 0
    {
      features := [];
      new;
      var self := Move(startX, startY);
    }

    /** Appends f to the feature list and returns it. */
    method AddFeature(f: Feature) returns (r: Feature)
      modifies this`features
      ensures features == old(features) + [f] && r == f
    {
      features := features + [f];
      r := f;
    }

    method Move(x: real := 0.0, y: real := 0.0) returns (self: SketchBuilder)
      modifies this`features
      ensures self == this
      ensures |features| == |old(features)| + 1 && features[..|old(features)|] == old(features)
      ensures fresh(features[|features| - 1]) && features[|features| - 1].kind == MoveKind(x, y)
      ensures features[|features| - 1].constraints == [] && !features[|features| - 1].constructionGeometry
      ensures features[|features| - 1].circles == [] && features[|features| - 1].geometryIndex == 0
    {
      var move := new Feature.Move(x, y);
      var f := AddFeature(move);
      self := this;
    }

    method Line(addX: real, addY: real) returns (line: Feature)
      modifies this`features
      ensures fresh(line) && features == old(features) + [line]
      ensures line.kind == LineKind(Point(addX, addY))
      ensures line.constraints == [] && !line.constructionGeometry && line.circles == [] && line.geometryIndex == 0
    {
      var f := new Feature.Line(addX, addY);
      line := AddFeature(f);
    }

    method HorizontalLine(addX: real, constraintDistance: bool := true) returns (line: Feature)
      modifies this`features
      ensures fresh(line) && features == old(features) + [line]
      ensures line.kind == LineKind(Point(addX, 0.0))
      ensures line.constraints == [HorizontalConstraint] +
                                  (if constraintDistance then [DistanceConstraint(addX, DistanceX)] else [])
      ensures !line.constructionGeometry && line.circles == [] && line.geometryIndex == 0
    {
      line := Line(addX, 0.0);
      line := line.Horizontal();
      if constraintDistance {
        line := line.DistanceX(addX);
      }
    }

    method VerticalLine(addY: real, constraintDistance: bool := true) returns (line: Feature)
      modifies this`features
      ensures fresh(line) && features == old(features) + [line]
      ensures line.kind == LineKind(Point(0.0, addY))
      ensures line.constraints == [VerticalConstraint] +
                                  (if constraintDistance then [DistanceConstraint(addY, DistanceY)] else [])
      ensures !line.constructionGeometry && line.circles == [] && line.geometryIndex == 0
    {
      line := Line(0.0, addY);
      line := line.Vertical();
      if constraintDistance {
        line := line.DistanceY(addY);
      }
    }

    method Bspline() returns (spline: Feature)
      modifies this`features
      ensures fresh(spline) && features == old(features) + [spline]
      ensures spline.kind == BsplineKind
      ensures spline.constraints == [] && !spline.constructionGeometry && spline.circles == [] && spline.geometryIndex == 0
    {
      var f := new Feature.Bspline();
      spline := AddFeature(f);
    }

    method BuildContext() returns (context: Context)
      ensures fresh(context) && context.cursor == Point(0.0, 0.0) && context.geometryIndex == -1
    {
      context := new Context();
    }

    /** Clears a reused sketch: its constraints first, then its geometry. */
    method CleanupObject(sketch: Sketch)
      modifies sketch`constraints, sketch`geometry, sketch`toggles
      ensures sketch.constraints == [] && sketch.geometry == [] && sketch.toggles == []
    {
      sketch.DeleteAllConstraints();
      sketch.DeleteAllGeometry();
    }

    /** shs describes the features, each of which can be replayed within objs. */
    ghost predicate Plan(shs: seq<Shape>, objs: set<Feature>)
      reads this`features, features`constraints, features`constructionGeometry, features`circles,
            ControlPoints(features)`constraints, ControlPoints(features)`constructionGeometry
    {
      |shs| == |features| && AllWellFormed(shs) &&
      forall k :: 0 <= k < |features| ==> Describes(features[k], shs[k]) && Contained(shs[k], objs)
    }

    /** Applies feature i on top of the state the features before it produced. */
    method ReplayAt(i: nat, sketch: Sketch, context: Context, ghost shs: seq<Shape>,
                    ghost s0: ReplayState, ghost objs: set<Feature>)
      requires Plan(shs, objs) && i < |shs|
      requires Follows(sketch, context, Replay(shs, i, s0), objs)
      modifies sketch`geometry, sketch`constraints, sketch`toggles, context`cursor, context`geometryIndex, objs`geometryIndex
      ensures Plan(shs, objs)
      ensures Follows(sketch, context, Replay(shs, i + 1, s0), objs)
    {
      features[i].Append(sketch, context, shs[i], Replay(shs, i, s0), objs);
    }

    /** Applies every feature, in insertion order, to the sketch with one context. */
    method ReplayFeatures(sketch: Sketch, context: Context, ghost shs: seq<Shape>,
                          ghost s0: ReplayState, ghost objs: set<Feature>)
      requires Plan(shs, objs) && Follows(sketch, context, s0, objs)
      modifies sketch`geometry, sketch`constraints, sketch`toggles, context`cursor, context`geometryIndex, objs`geometryIndex
      ensures Follows(sketch, context, Replay(shs, |shs|, s0), objs)
    {
      for i := 0 to |features|
        invariant Plan(shs, objs)
        invariant Follows(sketch, context, Replay(shs, i, s0), objs)
      {
        ReplayAt(i, sketch, context, shs, s0, objs);
      }
    }

    /** The sketches of doc called name. */
    method FindCandidates(doc: Document, name: string) returns (candidates: seq<Sketch>)
      ensures candidates == doc.FindObjects(name)
    {
      candidates := doc.FindObjects(name);
    }

    /** The sketch a build writes to: the one candidate called name when there is
        exactly one, cleared; otherwise a new, empty sketch added to doc. */
    method Resolve(doc: Document, name: string) returns (sketch: Sketch)
      modifies doc`objects, Reusable(doc, name)`constraints, Reusable(doc, name)`geometry,
               Reusable(doc, name)`toggles
      ensures var candidates := old(doc.FindObjects(name));
              if |candidates| == 1 then sketch == candidates[0] && doc.objects == old(doc.objects)
              else fresh(sketch) && sketch.name == name && doc.objects == old(doc.objects) + [sketch]
      ensures sketch.geometry == [] && sketch.constraints == [] && sketch.toggles == []
    {
      var candidates := FindCandidates(doc, name);
      if |candidates| == 1 {
        sketch := candidates[0];
        CleanupObject(sketch);
      } else {
        sketch := doc.AddObject(name);
      }
    }

    /** Replays the features into an empty sketch with a fresh context. */
    method Populate(sketch: Sketch, ghost shs: seq<Shape>, ghost s0: ReplayState, ghost objs: set<Feature>)
      requires |shs| == |features| && forall k :: 0 <= k < |features| ==> Describes(features[k], shs[k])
      requires AllWellFormed(shs) && Universe(shs) <= objs
      requires s0 == Initial(s0.indices.stale) && Agrees(s0, objs)
      requires sketch.geometry == [] && sketch.constraints == [] && sketch.toggles == []
      modifies sketch`geometry, sketch`constraints, sketch`toggles, objs`geometryIndex
      ensures var r := Replay(shs, |shs|, s0);
              sketch.geometry == r.geometry && sketch.constraints == r.records && sketch.toggles == r.toggles
      ensures Agrees(Replay(shs, |shs|, s0), objs)
    {
      var context := BuildContext();
      Covered(shs, objs);
      ReplayFeatures(sketch, context, shs, s0, objs);
    }

    /** Builds the sketch called name in doc from the collected features. */
    method Build(doc: Document, name: string) returns (sketch: Sketch)
      requires AllWellFormed(Shapes(features))
      modifies doc`objects, Reusable(doc, name)`constraints, Reusable(doc, name)`geometry,
               Reusable(doc, name)`toggles, Universe(Shapes(features))`geometryIndex
      ensures var candidates := old(doc.FindObjects(name));
              if |candidates| == 1 then sketch == candidates[0] && doc.objects == old(doc.objects)
              else fresh(sketch) && sketch.name == name && doc.objects == old(doc.objects) + [sketch]
      ensures var r := old(Run(features));
              sketch.geometry == r.geometry && sketch.constraints == r.records && sketch.toggles == r.toggles
      ensures Agrees(old(Run(features)), old(Universe(Shapes(features))))
    {
      ghost var shs := Shapes(features);
      ghost var objs := Universe(shs);
      ghost var s0 := Initial(Snapshot(objs));
      assert Agrees(s0, objs);
      sketch := Resolve(doc, name);
      assert forall k :: 0 <= k < |features| ==> Describes(features[k], shs[k]);
      Populate(sketch, shs, s0, objs);
      doc.Recompute();
    }
  }
}
