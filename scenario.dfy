// The example sketch of the builder's main block: a 180-long horizontal base
// line symmetric to the origin, a 65-high vertical line from the origin, and a
// spline through five control points, three of them tied to the lines' ends.
// Features are given as the Shapes a build reads of them.

module MainScenario {
  import opened Sketcher
  import opened Features
  import Builder
  import opened ReplayProperties
  import RecordReferences

  /** The line HorizontalLine(180.0) adds, after SymmetricToOrigin() and Construction(). */
  function BaseLine(l0: Feature): Shape
  {
    Shape(l0, LineKind(Point(180.0, 0.0)),
          [HorizontalConstraint, DistanceConstraint(180.0, DistanceX), SymmetryConstraint(Origin)], true, [])
  }

  /** The line VerticalLine(65.0) adds after Move(0.0, 0.0), with CoincidentToOrigin() and Construction(). */
  function HeightLine(l1: Feature): Shape
  {
    Shape(l1, LineKind(Point(0.0, 65.0)),
          [VerticalConstraint, DistanceConstraint(65.0, DistanceY), CoincidentConstraint(Literal(Origin))], true, [])
  }

  /** The circle Point(x, y) adds to the spline, followed by the coincidences cs. */
  function ControlPoint(p: Feature, x: real, y: real, cs: seq<Constraint>): Shape
  {
    Shape(p, CircleKind(Point(x, y), 10.0), [RadiusConstraint(10.0)] + cs, true, [])
  }

  /** The spline's five control points, in the order Point adds them: the
      first and last tied to the base line's start and end, the middle one to
      the height line's end. */
  function MainControlPoints(l0: Feature, l1: Feature, p: seq<Feature>): seq<Shape>
    requires |p| == 5
  {
    [ControlPoint(p[0], -90.0, 0.0, [CoincidentConstraint(OfFeature(l0, 1))]),
     ControlPoint(p[1], -61.5, 65.0, []),
     ControlPoint(p[2], 0.0, 65.0, [CoincidentConstraint(OfFeature(l1, 2))]),
     ControlPoint(p[3], 61.5, 65.0, []),
     ControlPoint(p[4], 90.0, 0.0, [CoincidentConstraint(OfFeature(l0, 2))])]
  }

  /** The builder's features in insertion order: the constructor's move to
      (-90, 0), the base line, the move to (0, 0), the height line, the spline. */
  function MainFeatures(m0: Feature, l0: Feature, m1: Feature, l1: Feature, sp: Feature, p: seq<Feature>): seq<Shape>
    requires |p| == 5
  {
    [Shape(m0, MoveKind(-90.0, 0.0), [], false, []),
     BaseLine(l0),
     Shape(m1, MoveKind(0.0, 0.0), [], false, []),
     HeightLine(l1),
     Shape(sp, BsplineKind, [], false, MainControlPoints(l0, l1, p))]
  }

  function LineRecords(): seq<Record>
  {
    [Record(Horizontal, [0, 1, 0, 2], None),
     Record(DistanceX, [0, 1, 0, 2], Some(180.0)),
     Record(Symmetric, [0, 1, 0, 2, -1, 1], None),
     Record(Vertical, [1, 1, 1, 2], None),
     Record(DistanceY, [1, 1, 1, 2], Some(65.0)),
     Record(Coincident, [-1, 1, 1, 1], None)]
  }

  function PointRecords(): seq<Record>
  {
    [Record(Radius, [2], Some(10.0)), Record(Coincident, [0, 1, 2, 3], None),
     Record(Radius, [3], Some(10.0)),
     Record(Radius, [4], Some(10.0)), Record(Coincident, [1, 2, 4, 3], None),
     Record(Radius, [5], Some(10.0)),
     Record(Radius, [6], Some(10.0)), Record(Coincident, [0, 2, 6, 3], None)]
  }

  function Circles(): seq<Geom>
  {
    [Geom.Circle(Point(-90.0, 0.0), 10.0), Geom.Circle(Point(-61.5, 65.0), 10.0), Geom.Circle(Point(0.0, 65.0), 10.0),
     Geom.Circle(Point(61.5, 65.0), 10.0), Geom.Circle(Point(90.0, 0.0), 10.0)]
  }

  /** The sketch the main block builds: the two lines, the five control
      circles, and the spline through the circles' centres. */
  function MainGeometry(): seq<Geom>
  {
    [Geom.Line(Point(-90.0, 0.0), Point(90.0, 0.0)), Geom.Line(Point(0.0, 0.0), Point(0.0, 65.0))] + Circles() +
    [Geom.BSpline([Point(-90.0, 0.0), Point(-61.5, 65.0), Point(0.0, 65.0), Point(61.5, 65.0), Point(90.0, 0.0)], false, 3)]
  }

  lemma BaseLineStep(l0: Feature, s: ReplayState)
    requires s.cursor == Point(-90.0, 0.0) && s.counter == -1 && s.geometry == []
    ensures var r := Step(BaseLine(l0), s);
            r.cursor == Point(90.0, 0.0) && r.counter == 0 &&
            r.geometry == [Geom.Line(Point(-90.0, 0.0), Point(90.0, 0.0))] &&
            r.records == s.records + LineRecords()[..3] && r.toggles == s.toggles + [0] &&
            r.indices == s.indices.(placed := s.indices.placed[l0 := 0])
  {
    var sh := BaseLine(l0);
    LineLayout(sh, s);
    var r := Step(sh, s);
    assert r == LineStep(sh, s);
    var k, a1, a2 := |s.records|, Anchor(0, 1), Some(Anchor(0, 2));
    assert r.records[k + 0] == Materialize(sh.constraints[0], a1, a2, RefIndex(sh.constraints[0], r));
    assert r.records[k + 1] == Materialize(sh.constraints[1], a1, a2, RefIndex(sh.constraints[1], r));
    assert r.records[k + 2] == Materialize(sh.constraints[2], a1, a2, RefIndex(sh.constraints[2], r));
    assert r.records[k..] == LineRecords()[..3];
  }

  lemma HeightLineStep(l1: Feature, s: ReplayState)
    requires s.cursor == Point(0.0, 0.0) && s.counter == 0 && |s.geometry| == 1
    ensures var r := Step(HeightLine(l1), s);
            r.cursor == Point(0.0, 65.0) && r.counter == 1 &&
            r.geometry == s.geometry + [Geom.Line(Point(0.0, 0.0), Point(0.0, 65.0))] &&
            r.records == s.records + LineRecords()[3..] && r.toggles == s.toggles + [1] &&
            r.indices == s.indices.(placed := s.indices.placed[l1 := 1])
  {
    var sh := HeightLine(l1);
    LineLayout(sh, s);
    var r := Step(sh, s);
    assert r == LineStep(sh, s);
    var k, a1, a2 := |s.records|, Anchor(1, 1), Some(Anchor(1, 2));
    assert r.records[k + 0] == Materialize(sh.constraints[0], a1, a2, RefIndex(sh.constraints[0], r));
    assert r.records[k + 1] == Materialize(sh.constraints[1], a1, a2, RefIndex(sh.constraints[1], r));
    assert r.records[k + 2] == Materialize(sh.constraints[2], a1, a2, RefIndex(sh.constraints[2], r));
    assert r.records[k..] == LineRecords()[3..];
  }

  /** A control point with no coincidence. */
  lemma PlainPointStep(p: Feature, x: real, y: real, s: ReplayState)
    requires Sound(s)
    ensures var r := Step(ControlPoint(p, x, y, []), s); var n := |s.geometry|;
            r.cursor == s.cursor && r.counter == n && r.geometry == s.geometry + [Geom.Circle(Point(x, y), 10.0)] &&
            r.records == s.records + [Record(Radius, [n], Some(10.0))] &&
            r.toggles == s.toggles + [n] && r.indices == s.indices.(placed := s.indices.placed[p := n])
  {
    var sh := ControlPoint(p, x, y, []);
    CircleLayout(sh, s);
    var r := Step(sh, s);
    assert r == CircleStep(sh, s);
    var k, n := |s.records|, |s.geometry|;
    assert r.records[k + 0] == Materialize(sh.constraints[0], Anchor(n, 3), None, RefIndex(sh.constraints[0], r));
    assert r.records[k..] == [Record(Radius, [n], Some(10.0))];
  }

  /** A control point tied to point pos of another feature f. */
  lemma TiedPointStep(p: Feature, x: real, y: real, f: Feature, pos: int, s: ReplayState)
    requires Sound(s) && f != p
    ensures var r := Step(ControlPoint(p, x, y, [CoincidentConstraint(OfFeature(f, pos))]), s); var n := |s.geometry|;
            r.cursor == s.cursor && r.counter == n && r.geometry == s.geometry + [Geom.Circle(Point(x, y), 10.0)] &&
            r.records == s.records + [Record(Radius, [n], Some(10.0)), Record(Coincident, [IndexOf(s, f), pos, n, 3], None)] &&
            r.toggles == s.toggles + [n] && r.indices == s.indices.(placed := s.indices.placed[p := n])
  {
    var sh := ControlPoint(p, x, y, [CoincidentConstraint(OfFeature(f, pos))]);
    CircleLayout(sh, s);
    var r := Step(sh, s);
    assert r == CircleStep(sh, s);
    var k, n := |s.records|, |s.geometry|;
    assert r.records[k + 0] == Materialize(sh.constraints[0], Anchor(n, 3), None, RefIndex(sh.constraints[0], r));
    assert r.records[k + 1] == Materialize(sh.constraints[1], Anchor(n, 3), None, RefIndex(sh.constraints[1], r));
    assert r.records[k..] == [Record(Radius, [n], Some(10.0)), Record(Coincident, [IndexOf(s, f), pos, n, 3], None)];
  }

  /** The first two control points from the state the lines leave: circles 2
      and 3, the first tied to the base line's start. */
  lemma FirstTwoPoints(l0: Feature, l1: Feature, p: seq<Feature>, a: ReplayState)
    requires |p| == 5 && l0 !in p && l1 !in p
    requires Sound(a) && |a.geometry| == 2 && IndexOf(a, l0) == 0 && IndexOf(a, l1) == 1
    ensures var r := Replay(MainControlPoints(l0, l1, p), 2, a);
            r.cursor == a.cursor && r.counter == 3 && r.geometry == a.geometry + Circles()[..2] &&
            r.records == a.records + PointRecords()[..3] && r.toggles == a.toggles + [2, 3] &&
            r.indices == a.indices.(placed := a.indices.placed[p[0] := 2][p[1] := 3])
  {
    var ps := MainControlPoints(l0, l1, p);
    assert Replay(ps, 0, a) == a;
    TiedPointStep(p[0], -90.0, 0.0, l0, 1, a);
    var t1 := Step(ps[0], a);
    assert Replay(ps, 1, a) == t1;
    PlainPointStep(p[1], -61.5, 65.0, t1);
    assert Replay(ps, 2, a) == Step(ps[1], t1);
  }

  /** The first three control points: circles 2 to 4, the third tied to the
      height line's end. */
  lemma FirstPoints(l0: Feature, l1: Feature, p: seq<Feature>, a: ReplayState)
    requires |p| == 5 && l0 !in p && l1 !in p
    requires Sound(a) && |a.geometry| == 2 && IndexOf(a, l0) == 0 && IndexOf(a, l1) == 1
    ensures var r := Replay(MainControlPoints(l0, l1, p), 3, a);
            r.cursor == a.cursor && r.counter == 4 && r.geometry == a.geometry + Circles()[..3] &&
            r.records == a.records + PointRecords()[..5] && r.toggles == a.toggles + [2, 3, 4] &&
            r.indices == a.indices.(placed := a.indices.placed[p[0] := 2][p[1] := 3][p[2] := 4])
  {
    var ps := MainControlPoints(l0, l1, p);
    FirstTwoPoints(l0, l1, p, a);
    var t2 := Replay(ps, 2, a);
    assert IndexOf(t2, l1) == 1;
    TiedPointStep(p[2], 0.0, 65.0, l1, 2, t2);
    assert Replay(ps, 3, a) == Step(ps[2], t2);
  }

  /** The first four control points: circles 2 to 5. */
  lemma FourPoints(l0: Feature, l1: Feature, p: seq<Feature>, a: ReplayState)
    requires |p| == 5 && l0 !in p && l1 !in p
    requires Sound(a) && |a.geometry| == 2 && IndexOf(a, l0) == 0 && IndexOf(a, l1) == 1
    ensures var r := Replay(MainControlPoints(l0, l1, p), 4, a);
            r.cursor == a.cursor && r.counter == 5 && r.geometry == a.geometry + Circles()[..4] &&
            r.records == a.records + PointRecords()[..6] && r.toggles == a.toggles + [2, 3, 4, 5] &&
            r.indices == a.indices.(placed := a.indices.placed[p[0] := 2][p[1] := 3][p[2] := 4][p[3] := 5])
  {
    var ps := MainControlPoints(l0, l1, p);
    FirstPoints(l0, l1, p, a);
    var t3 := Replay(ps, 3, a);
    PlainPointStep(p[3], 61.5, 65.0, t3);
    assert Replay(ps, 4, a) == Step(ps[3], t3);
  }

  /** All five control points: circles 2 to 6, the last tied to the base
      line's end. */
  lemma PointsPhase(l0: Feature, l1: Feature, p: seq<Feature>, a: ReplayState)
    requires |p| == 5 && l0 !in p && l1 !in p
    requires Sound(a) && |a.geometry| == 2 && IndexOf(a, l0) == 0 && IndexOf(a, l1) == 1
    ensures var r := Replay(MainControlPoints(l0, l1, p), 5, a);
            r.cursor == a.cursor && r.counter == 6 && r.geometry == a.geometry + Circles() &&
            r.records == a.records + PointRecords() && r.toggles == a.toggles + [2, 3, 4, 5, 6] &&
            r.indices == a.indices.(placed := a.indices.placed[p[0] := 2][p[1] := 3][p[2] := 4][p[3] := 5][p[4] := 6])
  {
    var ps := MainControlPoints(l0, l1, p);
    FourPoints(l0, l1, p, a);
    var t4 := Replay(ps, 4, a);
    assert IndexOf(t4, l0) == 0;
    TiedPointStep(p[4], 90.0, 0.0, l0, 2, t4);
    assert Replay(ps, 5, a) == Step(ps[4], t4);
  }

  /** The features before the spline: moves and the two construction lines,
      the base line at index 0 and the height line at 1. */
  lemma LinesPhase(m0: Feature, l0: Feature, m1: Feature, l1: Feature, sp: Feature, p: seq<Feature>,
                   stale: map<Feature, int>)
    requires |p| == 5
    ensures var a := Replay(MainFeatures(m0, l0, m1, l1, sp, p), 4, Builder.Initial(stale));
            a.cursor == Point(0.0, 65.0) && a.counter == 1 &&
            a.geometry == MainGeometry()[..2] && a.records == LineRecords() && a.toggles == [0, 1] &&
            a.indices == Indices(map[][l0 := 0][l1 := 1], stale)
  {
    var shs := MainFeatures(m0, l0, m1, l1, sp, p);
    var s0 := Builder.Initial(stale);
    assert Replay(shs, 0, s0) == s0;
    var s1 := Step(shs[0], s0);
    assert Replay(shs, 1, s0) == s1;
    BaseLineStep(l0, s1);
    var s2 := Step(shs[1], s1);
    assert Replay(shs, 2, s0) == s2;
    var s3 := Step(shs[2], s2);
    assert Replay(shs, 3, s0) == s3;
    HeightLineStep(l1, s3);
    assert Replay(shs, 4, s0) == Step(shs[3], s3);
  }

  /** The spline feature: its five control circles, then the curve through
      their centres at index 7. */
  lemma SplinePhase(l0: Feature, l1: Feature, sp: Feature, p: seq<Feature>, a: ReplayState)
    requires |p| == 5 && l0 !in p && l1 !in p
    requires Sound(a) && |a.geometry| == 2 && IndexOf(a, l0) == 0 && IndexOf(a, l1) == 1
    ensures var r := Step(Shape(sp, BsplineKind, [], false, MainControlPoints(l0, l1, p)), a);
            r.geometry == a.geometry + Circles() + [MainGeometry()[7]] &&
            r.records == a.records + PointRecords() && r.toggles == a.toggles + [2, 3, 4, 5, 6] &&
            r.indices == a.indices.(placed := a.indices.placed[p[0] := 2][p[1] := 3][p[2] := 4][p[3] := 5][p[4] := 6][sp := 7])
  {
    var sh := Shape(sp, BsplineKind, [], false, MainControlPoints(l0, l1, p));
    var ps := MainControlPoints(l0, l1, p);
    PointsPhase(l0, l1, p, a);
    var t := Replay(ps, 5, a);
    CentersAt(ps, 5);
    assert Centers(ps, 5) == MainGeometry()[7].poles;
    assert Step(sh, a) == BsplineStep(sh, a);
    assert Step(sh, a) == Placed(sp, t.(geometry := t.geometry + [Geom.BSpline(Centers(ps, 5), false, 3)]));
  }

  /** Where a build of the main block places its features. */
  lemma MainPlacement(l0: Feature, l1: Feature, sp: Feature, p: seq<Feature>)
    requires |p| == 5 && l0 != l1 && l0 !in p && l1 !in p && sp !in p && sp != l0 && sp != l1
    requires forall i, j :: 0 <= i < j < 5 ==> p[i] != p[j]
    ensures var m := map[][l0 := 0][l1 := 1][p[0] := 2][p[1] := 3][p[2] := 4][p[3] := 5][p[4] := 6][sp := 7];
            l0 in m && m[l0] == 0 && l1 in m && m[l1] == 1 && sp in m && m[sp] == 7 &&
            forall k :: 0 <= k < 5 ==> p[k] in m && m[p[k]] == 2 + k
  {
  }

  /** The main block's build: the base line at index 0, the height line at 1,
      the control circles at 2 to 6, the spline at 7; the records of the lines,
      then each circle's Radius record and coincidences in point order, which
      read the lines' final indices; and every entry but the spline toggled to
      construction. */
  lemma MainSketch(m0: Feature, l0: Feature, m1: Feature, l1: Feature, sp: Feature, p: seq<Feature>,
                   stale: map<Feature, int>)
    requires |p| == 5 && l0 != l1 && l0 !in p && l1 !in p && sp !in p && sp != l0 && sp != l1
    requires forall i, j :: 0 <= i < j < 5 ==> p[i] != p[j]
    ensures var r := Replay(MainFeatures(m0, l0, m1, l1, sp, p), 5, Builder.Initial(stale));
            r.geometry == MainGeometry() && r.records == LineRecords() + PointRecords() &&
            r.toggles == [0, 1, 2, 3, 4, 5, 6] &&
            IndexOf(r, l0) == 0 && IndexOf(r, l1) == 1 && IndexOf(r, sp) == 7 &&
            forall k :: 0 <= k < 5 ==> IndexOf(r, p[k]) == 2 + k
  {
    var shs := MainFeatures(m0, l0, m1, l1, sp, p);
    var s0 := Builder.Initial(stale);
    LinesPhase(m0, l0, m1, l1, sp, p, stale);
    var a := Replay(shs, 4, s0);
    assert IndexOf(a, l0) == 0 && IndexOf(a, l1) == 1;
    SplinePhase(l0, l1, sp, p, a);
    var r := Replay(shs, 5, s0);
    assert r == Step(shs[4], a);
    assert r.geometry == MainGeometry();
    MainPlacement(l0, l1, sp, p);
  }
  /** The spline's Point(x, y), followed by Coincident(tie) when tie is given. */
  method AddPoint(sp: Feature, x: real, y: real, tie: seq<Constraint>) returns (c: Feature)
    requires sp.kind.BsplineKind? && (tie == [] || (|tie| == 1 && tie[0].CoincidentConstraint? && tie[0].target.OfFeature?))
    modifies sp`circles
    ensures fresh(c) && sp.circles == old(sp.circles) + [c]
    ensures Fields(c, ControlPoint(c, x, y, tie))
  {
    c := sp.Point(x, y);
    if tie != [] {
      c := c.Coincident(tie[0].target.feature, tie[0].target.pos);
    }
  }

  /** The main block's five Point calls on the spline, with their coincidences. */
  method SplinePoints(sp: Feature, l0: Feature, l1: Feature) returns (p: seq<Feature>)
    requires sp.kind.BsplineKind? && sp.circles == []
    modifies sp`circles
    ensures |p| == 5 && sp.circles == p && forall k :: 0 <= k < 5 ==> fresh(p[k])
    ensures forall i, j :: 0 <= i < j < 5 ==> p[i] != p[j]
    ensures forall k :: 0 <= k < 5 ==> Fields(p[k], MainControlPoints(l0, l1, p)[k]) && MainControlPoints(l0, l1, p)[k].points == []
  {
    var p0 := AddPoint(sp, -90.0, 0.0, [CoincidentConstraint(OfFeature(l0, 1))]);
    var p1 := AddPoint(sp, -61.5, 65.0, []);
    var p2 := AddPoint(sp, 0.0, 65.0, [CoincidentConstraint(OfFeature(l1, 2))]);
    var p3 := AddPoint(sp, 61.5, 65.0, []);
    var p4 := AddPoint(sp, 90.0, 0.0, [CoincidentConstraint(OfFeature(l0, 2))]);
    p := [p0, p1, p2, p3, p4];
  }

  /** Features whose shapes are those of the main block give its shape list. */
  lemma MainShapes(fs: seq<Feature>, m0: Feature, l0: Feature, m1: Feature, l1: Feature, sp: Feature, p: seq<Feature>)
    requires |p| == 5 && fs == [m0, l0, m1, l1, sp]
    requires ShapeOf(m0) == Shape(m0, MoveKind(-90.0, 0.0), [], false, []) && ShapeOf(l0) == BaseLine(l0)
    requires ShapeOf(m1) == Shape(m1, MoveKind(0.0, 0.0), [], false, []) && ShapeOf(l1) == HeightLine(l1)
    requires ShapeOf(sp) == Shape(sp, BsplineKind, [], false, MainControlPoints(l0, l1, p))
    ensures Builder.Shapes(fs) == MainFeatures(m0, l0, m1, l1, sp, p)
  {
  }

  /** A build of the main block touches its features and their control circles only. */
  lemma MainUniverse(m0: Feature, l0: Feature, m1: Feature, l1: Feature, sp: Feature, p: seq<Feature>)
    requires |p| == 5
    ensures AllWellFormed(MainFeatures(m0, l0, m1, l1, sp, p))
    ensures forall o :: o in Builder.Universe(MainFeatures(m0, l0, m1, l1, sp, p)) ==>
              o == m0 || o == l0 || o == m1 || o == l1 || o == sp || o == p[0] || o == p[1] || o == p[2] || o == p[3] || o == p[4]
  {
  }

  /** What a build of the main block's features produces, from whatever indices they hold. */
  lemma MainRun(fs: seq<Feature>, m0: Feature, l0: Feature, m1: Feature, l1: Feature, sp: Feature, p: seq<Feature>)
    requires |p| == 5 && fs == [m0, l0, m1, l1, sp]
    requires l0 != l1 && l0 !in p && l1 !in p && sp !in p && sp != l0 && sp != l1
    requires forall i, j :: 0 <= i < j < 5 ==> p[i] != p[j]
    requires ShapeOf(m0) == Shape(m0, MoveKind(-90.0, 0.0), [], false, []) && ShapeOf(l0) == BaseLine(l0)
    requires ShapeOf(m1) == Shape(m1, MoveKind(0.0, 0.0), [], false, []) && ShapeOf(l1) == HeightLine(l1)
    requires ShapeOf(sp) == Shape(sp, BsplineKind, [], false, MainControlPoints(l0, l1, p))
    ensures AllWellFormed(Builder.Shapes(fs))
    ensures forall o :: o in Builder.Universe(Builder.Shapes(fs)) ==>
              o == m0 || o == l0 || o == m1 || o == l1 || o == sp || o == p[0] || o == p[1] || o == p[2] || o == p[3] || o == p[4]
    ensures var r := Builder.Run(fs);
            r.geometry == MainGeometry() && r.records == LineRecords() + PointRecords() &&
            r.toggles == [0, 1, 2, 3, 4, 5, 6]
  {
    var shs := MainFeatures(m0, l0, m1, l1, sp, p);
    MainShapes(fs, m0, l0, m1, l1, sp, p);
    MainUniverse(m0, l0, m1, l1, sp, p);
    MainSketch(m0, l0, m1, l1, sp, p, Builder.Snapshot(Builder.Universe(shs)));
  }

  /** horizontal_line(180).symmetricToOrigin().construction() */
  method BaseLineCalls(builder: Builder.SketchBuilder) returns (l0: Feature)
    modifies builder`features
    ensures fresh(l0) && builder.features == old(builder.features) + [l0]
    ensures ShapeOf(l0) == BaseLine(l0)
  {
    l0 := builder.HorizontalLine(180.0);
    l0 := l0.SymmetricToOrigin();
    l0 := l0.Construction();
  }

  /** move(0, 0).vertical_line(65).coincidentToOrigin().construction() */
  method HeightLineCalls(builder: Builder.SketchBuilder) returns (m1: Feature, l1: Feature)
    modifies builder`features
    ensures fresh(m1) && fresh(l1) && builder.features == old(builder.features) + [m1, l1]
    ensures ShapeOf(m1) == Shape(m1, MoveKind(0.0, 0.0), [], false, []) && ShapeOf(l1) == HeightLine(l1)
  {
    var b := builder.Move(0.0, 0.0);
    m1 := builder.features[|builder.features| - 1];
    assert builder.features == old(builder.features) + [m1];
    l1 := builder.VerticalLine(65.0);
    l1 := l1.CoincidentToOrigin();
    l1 := l1.Construction();
  }

  /** bspline() and its five points with their coincidences. */
  method SplineCalls(builder: Builder.SketchBuilder, l0: Feature, l1: Feature) returns (sp: Feature, p: seq<Feature>)
    modifies builder`features
    ensures fresh(sp) && builder.features == old(builder.features) + [sp]
    ensures |p| == 5 && forall k :: 0 <= k < 5 ==> fresh(p[k])
    ensures sp !in p && forall i, j :: 0 <= i < j < 5 ==> p[i] != p[j]
    ensures ShapeOf(sp) == Shape(sp, BsplineKind, [], false, MainControlPoints(l0, l1, p))
  {
    sp := builder.Bspline();
    p := SplinePoints(sp, l0, l1);
    LeavesFields(p, MainControlPoints(l0, l1, p));
  }

  /** The main block's builder calls, in the source's order: the constructor's
      move to (-90, 0), the base line, the move to (0, 0), the height line and
      the spline with its points. */
  method MainCalls() returns (builder: Builder.SketchBuilder, m0: Feature, l0: Feature, m1: Feature, l1: Feature,
                              sp: Feature, p: seq<Feature>)
    ensures fresh(builder) && builder.features == [m0, l0, m1, l1, sp] && |p| == 5
    ensures fresh(m0) && fresh(l0) && fresh(m1) && fresh(l1) && fresh(sp)
    ensures fresh(p[0]) && fresh(p[1]) && fresh(p[2]) && fresh(p[3]) && fresh(p[4])
    ensures l0 != l1 && l0 !in p && l1 !in p && sp !in p && sp != l0 && sp != l1
    ensures forall i, j :: 0 <= i < j < 5 ==> p[i] != p[j]
    ensures ShapeOf(m0) == Shape(m0, MoveKind(-90.0, 0.0), [], false, []) && ShapeOf(l0) == BaseLine(l0)
    ensures ShapeOf(m1) == Shape(m1, MoveKind(0.0, 0.0), [], false, []) && ShapeOf(l1) == HeightLine(l1)
    ensures ShapeOf(sp) == Shape(sp, BsplineKind, [], false, MainControlPoints(l0, l1, p))
  {
    builder := new Builder.SketchBuilder(-90.0, 0.0);
    m0 := builder.features[0];
    assert builder.features == [m0];
    l0 := BaseLineCalls(builder);
    assert builder.features == [m0, l0];
    m1, l1 := HeightLineCalls(builder);
    assert builder.features == [m0, l0, m1, l1];
    sp, p := SplineCalls(builder, l0, l1);
  }

  /** The builder the main block's calls produce: a build of it touches only
      objects those calls made, and produces the main block's sketch. */
  method MainBuilder() returns (builder: Builder.SketchBuilder)
    ensures fresh(builder) && AllWellFormed(Builder.Shapes(builder.features))
    ensures fresh(Builder.Universe(Builder.Shapes(builder.features)))
    ensures var r := Builder.Run(builder.features);
            r.geometry == MainGeometry() && r.records == LineRecords() + PointRecords() &&
            r.toggles == [0, 1, 2, 3, 4, 5, 6]
  {
    var m0, l0, m1, l1, sp, p;
    builder, m0, l0, m1, l1, sp, p := MainCalls();
    MainRun(builder.features, m0, l0, m1, l1, sp, p);
  }

  /** The main block's toggles make entries 0 to 6 construction geometry and
      nothing else. */
  lemma MainConstruction(t: seq<int>)
    requires t == [0, 1, 2, 3, 4, 5, 6]
    ensures forall i :: Occurrences(t, i) % 2 == 1 <==> 0 <= i < 7
  {
    forall i
      ensures Occurrences(t, i) % 2 == 1 <==> 0 <= i < 7
    {
      RecordReferences.IncreasingOnce(t, i);
    }
  }

  /** The main block itself: the builder calls in the source's order, then a
      build into doc under "TestSketch". The sketch built holds the geometry, the
      records and the toggles MainSketch states: every entry but the spline
      is construction geometry. */
  method MainBlock(doc: Document) returns (sketch: Sketch)
    modifies doc, doc.objects
    ensures sketch.geometry == MainGeometry() && sketch.constraints == LineRecords() + PointRecords()
    ensures sketch.toggles == [0, 1, 2, 3, 4, 5, 6]
    ensures forall i :: sketch.IsConstruction(i) <==> 0 <= i < 7
  {
    var builder := MainBuilder();
    Builder.ReusableListed(doc, "TestSketch");
    sketch := builder.Build(doc, "TestSketch");
    MainConstruction(sketch.toggles);
  }
}
