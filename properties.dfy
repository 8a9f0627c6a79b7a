// What a replay guarantees, stated over the pure replay specification: the
// context's counter always names the last geometry entry, every applied feature
// holds the position of its (last) geometry entry, records and toggles are only
// ever appended, each feature kind lays out its entries as its `append` does,
// and references are resolved by identity against the indices held at apply
// time.

module ReplayProperties {
  import opened Sketcher
  import opened Features
  import Builder

  /** The features a step writes a geometryIndex to, in writing order: a line or
      a circle itself, a spline's control points and then the spline. */
  function Placements(sh: Shape): seq<Feature>
    decreases sh
  {
    match sh.kind
    case MoveKind(_, _) => []
    case LineKind(_) => [sh.obj]
    case CircleKind(_, _) => [sh.obj]
    case BsplineKind => Span(sh.points, 0, |sh.points|) + [sh.obj]
  }

  /** The placements of features i to n - 1 of shs, in order. */
  function Span(shs: seq<Shape>, i: nat, n: nat): seq<Feature>
    requires i <= n <= |shs|
    decreases shs, n
  {
    if n == i then [] else Span(shs, i, n - 1) + Placements(shs[n - 1])
  }

  /** The position of the last occurrence of t in o. */
  function LastPos(o: seq<Feature>, t: Feature): (k: nat)
    requires t in o
    ensures k < |o| && o[k] == t
    ensures forall j :: k < j < |o| ==> o[j] != t
  {
    if o[|o| - 1] == t then |o| - 1 else LastPos(o[..|o| - 1], t)
  }

  /** The context's counter names the last geometry entry (-1 when there is none). */
  predicate Sound(s: ReplayState)
  {
    s.counter == |s.geometry| - 1
  }

  /** r follows s after the features o were placed, in order: one new geometry
      entry per placement, lists only extended, and each placed feature holding
      the position of its last placement; every other index is untouched. */
  ghost predicate Laid(s: ReplayState, r: ReplayState, o: seq<Feature>)
  {
    Sound(r) && |r.geometry| == |s.geometry| + |o| &&
    s.geometry <= r.geometry && s.records <= r.records && s.toggles <= r.toggles &&
    r.indices.stale == s.indices.stale &&
    r.indices.placed.Keys == s.indices.placed.Keys + (set t | t in o) &&
    forall t :: t in r.indices.placed ==>
      r.indices.placed[t] == if t in o then |s.geometry| + LastPos(o, t) else s.indices.placed[t]
  }

  /** What Laid says of the index every feature holds. */
  lemma LaidIndex(s: ReplayState, r: ReplayState, o: seq<Feature>)
    requires Laid(s, r, o)
    ensures forall t :: IndexOf(r, t) == if t in o then |s.geometry| + LastPos(o, t) else IndexOf(s, t)
  {
  }

  lemma {:induction false} LastPosRight(o1: seq<Feature>, o2: seq<Feature>, t: Feature)
    requires t in o2
    ensures LastPos(o1 + o2, t) == |o1| + LastPos(o2, t)
  {
    if o2[|o2| - 1] != t {
      assert (o1 + o2)[..|o1 + o2| - 1] == o1 + o2[..|o2| - 1];
      LastPosRight(o1, o2[..|o2| - 1], t);
    }
  }

  lemma {:induction false} LastPosLeft(o1: seq<Feature>, o2: seq<Feature>, t: Feature)
    requires t in o1 && t !in o2
    ensures LastPos(o1 + o2, t) == LastPos(o1, t)
  {
    if o2 != [] {
      assert (o1 + o2)[..|o1 + o2| - 1] == o1 + o2[..|o2| - 1];
      LastPosLeft(o1, o2[..|o2| - 1], t);
    } else {
      assert o1 + o2 == o1;
    }
  }

  /** Placing o1 and then o2 is placing o1 + o2. */
  lemma LaidCompose(s: ReplayState, m: ReplayState, r: ReplayState, o1: seq<Feature>, o2: seq<Feature>)
    requires Laid(s, m, o1) && Laid(m, r, o2)
    ensures Laid(s, r, o1 + o2)
  {
    forall t | t in r.indices.placed
      ensures r.indices.placed[t] == if t in o1 + o2 then |s.geometry| + LastPos(o1 + o2, t) else s.indices.placed[t]
    {
      if t in o2 {
        LastPosRight(o1, o2, t);
      } else if t in o1 {
        LastPosLeft(o1, o2, t);
      }
    }
  }

  /** One entry added, its index written to f. */
  lemma PlacedOne(s: ReplayState, r: ReplayState, f: Feature)
    requires Sound(s) && r.counter == s.counter + 1 && |r.geometry| == |s.geometry| + 1
    requires s.geometry <= r.geometry && s.records <= r.records && s.toggles <= r.toggles
    requires r.indices == s.indices.(placed := s.indices.placed[f := s.counter + 1])
    ensures Laid(s, r, [f])
  {
  }

  /** One step places exactly the features Placements names. */
  lemma {:induction false} StepLayout(sh: Shape, s: ReplayState)
    requires WellFormed(sh) && Sound(s)
    ensures Laid(s, Step(sh, s), Placements(sh))
    decreases sh
  {
    match sh.kind
    case MoveKind(_, _) =>
    case LineKind(_) =>
      assert Step(sh, s) == LineStep(sh, s);
      PlacedOne(s, LineStep(sh, s), sh.obj);
    case CircleKind(_, _) =>
      assert Step(sh, s) == CircleStep(sh, s);
      PlacedOne(s, CircleStep(sh, s), sh.obj);
    case BsplineKind =>
      SplinePlaces(sh, s);
  }

  lemma {:induction false} SplinePlaces(sh: Shape, s: ReplayState)
    requires sh.kind.BsplineKind? && WellFormed(sh) && Sound(s)
    ensures Laid(s, Step(sh, s), Placements(sh))
    decreases sh, 0
  {
    var m := |sh.points|;
    var s1 := Replay(sh.points, m, s);
    ReplaySpan(sh.points, 0, m, s);
    var r := Placed(sh.obj, s1.(geometry := s1.geometry + [Geom.BSpline(Centers(sh.points, m), false, 3)]));
    assert Step(sh, s) == r;
    PlacedOne(s1, r, sh.obj);
    LaidCompose(s, s1, r, Span(sh.points, 0, m), [sh.obj]);
  }

  /** Applying features i to n - 1 places exactly their Span. */
  lemma {:induction false} ReplaySpan(shs: seq<Shape>, i: nat, n: nat, s: ReplayState)
    requires i <= n <= |shs| && AllWellFormed(shs) && Sound(Replay(shs, i, s))
    ensures Laid(Replay(shs, i, s), Replay(shs, n, s), Span(shs, i, n))
    decreases shs, n
  {
    if n > i {
      ReplaySpan(shs, i, n - 1, s);
      StepLayout(shs[n - 1], Replay(shs, n - 1, s));
      LaidCompose(Replay(shs, i, s), Replay(shs, n - 1, s), Replay(shs, n, s),
                  Span(shs, i, n - 1), Placements(shs[n - 1]));
    }
  }

  /** After a whole build the counter names the last entry, there is one entry
      per placement, every placed feature holds the position of its last
      placement (a feature applied twice keeps the second), and every other
      feature still holds what it held before the build (0 for a new one). */
  lemma BuildLayout(shs: seq<Shape>, stale: map<Feature, int>)
    requires AllWellFormed(shs)
    ensures var r := Replay(shs, |shs|, Builder.Initial(stale));
            var o := Span(shs, 0, |shs|);
            r.counter == |r.geometry| - 1 && |r.geometry| == |o| &&
            (forall t :: t in o ==> IndexOf(r, t) == LastPos(o, t) && 0 <= IndexOf(r, t) < |r.geometry|) &&
            (forall t :: t !in o ==> IndexOf(r, t) == if t in stale then stale[t] else 0)
  {
    ReplaySpan(shs, 0, |shs|, Builder.Initial(stale));
    LaidIndex(Builder.Initial(stale), Replay(shs, |shs|, Builder.Initial(stale)), Span(shs, 0, |shs|));
  }

  /** A reference to a feature that no later step places reads that feature's
      final index; if it was placed before, that is its last position so far. */
  lemma EarlierReferenceIsFinal(shs: seq<Shape>, i: nat, s: ReplayState, t: Feature)
    requires i <= |shs| && AllWellFormed(shs) && Sound(s)
    requires t !in Span(shs, i, |shs|)
    ensures IndexOf(Replay(shs, |shs|, s), t) == IndexOf(Replay(shs, i, s), t)
    ensures t in Span(shs, 0, i) ==> IndexOf(Replay(shs, |shs|, s), t) == |s.geometry| + LastPos(Span(shs, 0, i), t)
  {
    ReplaySpan(shs, 0, i, s);
    ReplaySpan(shs, i, |shs|, s);
    LaidIndex(s, Replay(shs, i, s), Span(shs, 0, i));
    LaidIndex(Replay(shs, i, s), Replay(shs, |shs|, s), Span(shs, i, |shs|));
  }

  /** A reference to a feature not placed yet reads the index it held before
      the build: 0 for a feature never applied. */
  lemma ForwardReferenceReadsStale(shs: seq<Shape>, i: nat, stale: map<Feature, int>, t: Feature)
    requires i <= |shs| && AllWellFormed(shs) && t !in Span(shs, 0, i)
    ensures IndexOf(Replay(shs, i, Builder.Initial(stale)), t) == if t in stale then stale[t] else 0
  {
    ReplaySpan(shs, 0, i, Builder.Initial(stale));
    LaidIndex(Builder.Initial(stale), Replay(shs, i, Builder.Initial(stale)), Span(shs, 0, i));
  }

  // The layout of each kind of feature.

  /** A line adds one segment from the cursor to the cursor moved by its delta,
      holds that segment's position, writes one record per constraint in
      attachment order anchored at its start (idx, 1) and end (idx, 2), each
      reading the index its target holds once the line is placed, and toggles
      idx exactly when it is construction geometry. */
  lemma LineLayout(sh: Shape, s: ReplayState)
    requires sh.kind.LineKind? && Sound(s)
    ensures var r := Step(sh, s); var n := |s.geometry|; var end := Plus(s.cursor, sh.kind.toAdd);
            r.cursor == end && r.geometry == s.geometry + [Geom.Line(s.cursor, end)] &&
            IndexOf(r, sh.obj) == n && r.geometry[IndexOf(r, sh.obj)] == Geom.Line(s.cursor, end) &&
            |r.records| == |s.records| + |sh.constraints| && r.records[..|s.records|] == s.records &&
            (forall k :: 0 <= k < |sh.constraints| ==>
               r.records[|s.records| + k] ==
               Materialize(sh.constraints[k], Anchor(n, 1), Some(Anchor(n, 2)), RefIndex(sh.constraints[k], r))) &&
            r.toggles == s.toggles + (if sh.construction then [n] else [])
  {
    var n := |s.geometry|;
    var end := Plus(s.cursor, sh.kind.toAdd);
    var s1 := Placed(sh.obj, s.(cursor := end, geometry := s.geometry + [Geom.Line(s.cursor, end)]));
    var r := LineStep(sh, s);
    assert Step(sh, s) == r && r.indices == s1.indices;
    RecordsAt(sh.constraints, Anchor(n, 1), Some(Anchor(n, 2)), s1);
    forall k | 0 <= k < |sh.constraints|
      ensures RefIndex(sh.constraints[k], s1) == RefIndex(sh.constraints[k], r)
    {
    }
  }

  /** A circle adds one circle with its own centre and radius, leaves the cursor
      where it was, holds that circle's position, and anchors every record at the
      circle's edge (idx, 3). */
  lemma CircleLayout(sh: Shape, s: ReplayState)
    requires sh.kind.CircleKind? && CircleSafe(sh.constraints) && Sound(s)
    ensures var r := Step(sh, s); var n := |s.geometry|;
            r.cursor == s.cursor && r.geometry == s.geometry + [Geom.Circle(sh.kind.center, sh.kind.radius)] &&
            IndexOf(r, sh.obj) == n &&
            |r.records| == |s.records| + |sh.constraints| && r.records[..|s.records|] == s.records &&
            (forall k :: 0 <= k < |sh.constraints| ==>
               r.records[|s.records| + k] == Materialize(sh.constraints[k], Anchor(n, 3), None, RefIndex(sh.constraints[k], r))) &&
            r.toggles == s.toggles + (if sh.construction then [n] else [])
  {
    var n := |s.geometry|;
    var s1 := Placed(sh.obj, s.(geometry := s.geometry + [Geom.Circle(sh.kind.center, sh.kind.radius)]));
    var r := CircleStep(sh, s);
    assert Step(sh, s) == r && r.indices == s1.indices;
    RecordsAt(sh.constraints, Anchor(n, 3), None, s1);
    forall k | 0 <= k < |sh.constraints|
      ensures RefIndex(sh.constraints[k], s1) == RefIndex(sh.constraints[k], r)
    {
    }
  }

  /** A spline control point as Point makes it (radius 10, holding its radius,
      construction) writes its Radius record first, then its coincidences, each
      tying the circle's edge (idx, 3) to the referenced point, and is toggled to
      construction at its own index. */
  lemma PointLayout(sh: Shape, s: ReplayState)
    requires sh.kind.CircleKind? && sh.kind.radius == 10.0 && sh.construction
    requires |sh.constraints| >= 1 && sh.constraints[0] == RadiusConstraint(10.0)
    requires forall k :: 1 <= k < |sh.constraints| ==> sh.constraints[k].CoincidentConstraint?
    requires Sound(s)
    ensures var r := Step(sh, s); var n := |s.geometry|;
            |r.records| == |s.records| + |sh.constraints| && r.records[|s.records|] == Record(Radius, [n], Some(10.0)) &&
            (forall k :: |s.records| < k < |r.records| ==>
               r.records[k].kind == Coincident && |r.records[k].ints| == 4 && r.records[k].ints[2..] == [n, 3]) &&
            r.toggles == s.toggles + [n]
  {
    CircleLayout(sh, s);
    var r := Step(sh, s);
    forall k | |s.records| < k < |r.records|
      ensures r.records[k].kind == Coincident && |r.records[k].ints| == 4 && r.records[k].ints[2..] == [|s.geometry|, 3]
    {
      assert sh.constraints[k - |s.records|].CoincidentConstraint?;
    }
  }

  /** The centres of the first n control points, in order. */
  lemma {:induction false} CentersAt(ps: seq<Shape>, n: nat)
    requires n <= |ps| && AllCircles(ps)
    ensures forall k :: 0 <= k < n ==> Centers(ps, n)[k] == ps[k].kind.center
  {
    if n > 0 {
      CentersAt(ps, n - 1);
    }
  }

  /** Replaying n control-point circles adds exactly those circles, in order,
      and leaves the cursor alone. */
  lemma {:induction false} CirclesAdded(ps: seq<Shape>, n: nat, s: ReplayState)
    requires n <= |ps| && AllCircles(ps)
    ensures var r := Replay(ps, n, s);
            |r.geometry| == |s.geometry| + n && r.geometry[..|s.geometry|] == s.geometry && r.cursor == s.cursor &&
            forall k :: 0 <= k < n ==> r.geometry[|s.geometry| + k] == Geom.Circle(ps[k].kind.center, ps[k].kind.radius)
  {
    if n > 0 {
      CirclesAdded(ps, n - 1, s);
      assert Replay(ps, n, s) == CircleStep(ps[n - 1], Replay(ps, n - 1, s));
    }
  }

  /** A spline adds its m control-point circles in order, then one spline of
      degree 3, not periodic, through exactly their centres in the same order:
      m + 1 entries. The spline holds the index after its last circle, and it
      writes no record or toggle of its own. */
  lemma BsplineLayout(sh: Shape, s: ReplayState)
    requires sh.kind.BsplineKind? && WellFormed(sh) && Sound(s)
    ensures var r := Step(sh, s); var g := |s.geometry|; var m := |sh.points|;
            |r.geometry| == g + m + 1 && r.geometry[..g] == s.geometry && r.cursor == s.cursor &&
            (forall k :: 0 <= k < m ==> r.geometry[g + k] == Geom.Circle(sh.points[k].kind.center, sh.points[k].kind.radius)) &&
            r.geometry[g + m].BSpline? && !r.geometry[g + m].periodic && r.geometry[g + m].degree == 3 &&
            |r.geometry[g + m].poles| == m &&
            (forall k :: 0 <= k < m ==> r.geometry[g + m].poles[k] == sh.points[k].kind.center) &&
            IndexOf(r, sh.obj) == g + m &&
            (m > 0 && sh.points[m - 1].obj != sh.obj ==> IndexOf(r, sh.points[m - 1].obj) + 1 == IndexOf(r, sh.obj)) &&
            r.records == Replay(sh.points, m, s).records && r.toggles == Replay(sh.points, m, s).toggles
  {
    var m := |sh.points|;
    var s1 := Replay(sh.points, m, s);
    CirclesAdded(sh.points, m, s);
    CentersAt(sh.points, m);
    var r := Placed(sh.obj, s1.(geometry := s1.geometry + [Geom.BSpline(Centers(sh.points, m), false, 3)]));
    assert Step(sh, s) == r;
    StepLayout(sh, s);
    LaidIndex(s, r, Placements(sh));
    if m > 0 && sh.points[m - 1].obj != sh.obj {
      var o := Span(sh.points, 0, m - 1) + [sh.points[m - 1].obj];
      assert Span(sh.points, 0, m) == o;
      assert Placements(sh) == o + [sh.obj];
      assert LastPos(Placements(sh), sh.points[m - 1].obj) == m - 1 by {
        LastPosLeft(o, [sh.obj], sh.points[m - 1].obj);
      }
    }
  }

  // Rebuilding.

  /** s1 and s2 agree on everything but the indices features held before the build. */
  predicate Twins(s1: ReplayState, s2: ReplayState)
  {
    s1.cursor == s2.cursor && s1.counter == s2.counter && s1.geometry == s2.geometry &&
    s1.records == s2.records && s1.toggles == s2.toggles && s1.indices.placed == s2.indices.placed
  }

  /** Constraints whose targets are all placed write the same records in twin states. */
  lemma {:induction false} RecordsTwins(cs: seq<Constraint>, idx1: Anchor, idx2: Option<Anchor>,
                                        x1: ReplayState, x2: ReplayState)
    requires idx2.None? ==> CircleSafe(cs)
    requires Twins(x1, x2) && Targets(cs) <= x1.indices.placed.Keys
    ensures Records(cs, idx1, idx2, x1) == Records(cs, idx1, idx2, x2)
  {
    if cs != [] {
      var init := cs[..|cs| - 1];
      assert Targets(init) <= Targets(cs) by {
        forall t | t in Targets(init)
          ensures t in Targets(cs)
        {
          var k :| 0 <= k < |init| && init[k].CoincidentConstraint? && init[k].target.OfFeature? &&
                   init[k].target.feature == t;
          assert cs[k] == init[k];
        }
      }
      RecordsTwins(init, idx1, idx2, x1, x2);
      var c := cs[|cs| - 1];
      if c.CoincidentConstraint? && c.target.OfFeature? {
        assert c.target.feature in Targets(cs);
      }
    }
  }

  lemma {:induction false} CirclesTwins(ps: seq<Shape>, n: nat, s1: ReplayState, s2: ReplayState)
    requires n <= |ps| && AllCircles(ps) && Twins(s1, s2)
    requires forall k :: 0 <= k < |ps| ==> Targets(ps[k].constraints) <= s1.indices.placed.Keys
    ensures Twins(Replay(ps, n, s1), Replay(ps, n, s2))
    ensures s1.indices.placed.Keys <= Replay(ps, n, s1).indices.placed.Keys
  {
    if n > 0 {
      CirclesTwins(ps, n - 1, s1, s2);
      var p, t1, t2 := ps[n - 1], Replay(ps, n - 1, s1), Replay(ps, n - 1, s2);
      assert Replay(ps, n, s1) == CircleStep(p, t1) && Replay(ps, n, s2) == CircleStep(p, t2);
      var u1 := Placed(p.obj, t1.(geometry := t1.geometry + [Geom.Circle(p.kind.center, p.kind.radius)]));
      var u2 := Placed(p.obj, t2.(geometry := t2.geometry + [Geom.Circle(p.kind.center, p.kind.radius)]));
      RecordsTwins(p.constraints, Anchor(u1.counter, 3), None, u1, u2);
    }
  }

  /** A feature whose references are all placed already steps twin states to twins. */
  lemma StepTwins(sh: Shape, s1: ReplayState, s2: ReplayState)
    requires WellFormed(sh) && Twins(s1, s2) && ShapeTargets(sh) <= s1.indices.placed.Keys
    ensures Twins(Step(sh, s1), Step(sh, s2))
    ensures s1.indices.placed.Keys <= Step(sh, s1).indices.placed.Keys
  {
    match sh.kind
    case MoveKind(_, _) =>
    case LineKind(_) =>
      assert Step(sh, s1) == LineStep(sh, s1) && Step(sh, s2) == LineStep(sh, s2);
      var end := Plus(s1.cursor, sh.kind.toAdd);
      var u1 := Placed(sh.obj, s1.(cursor := end, geometry := s1.geometry + [Geom.Line(s1.cursor, end)]));
      var u2 := Placed(sh.obj, s2.(cursor := end, geometry := s2.geometry + [Geom.Line(s2.cursor, end)]));
      RecordsTwins(sh.constraints, Anchor(u1.counter, 1), Some(Anchor(u1.counter, 2)), u1, u2);
    case CircleKind(_, _) =>
      assert Step(sh, s1) == CircleStep(sh, s1) && Step(sh, s2) == CircleStep(sh, s2);
      var u1 := Placed(sh.obj, s1.(geometry := s1.geometry + [Geom.Circle(sh.kind.center, sh.kind.radius)]));
      var u2 := Placed(sh.obj, s2.(geometry := s2.geometry + [Geom.Circle(sh.kind.center, sh.kind.radius)]));
      RecordsTwins(sh.constraints, Anchor(u1.counter, 3), None, u1, u2);
    case BsplineKind =>
      PointTargets(sh);
      CirclesTwins(sh.points, |sh.points|, s1, s2);
      assert Step(sh, s1) == BsplineStep(sh, s1) && Step(sh, s2) == BsplineStep(sh, s2);
  }

  /** Every coincidence refers to a feature placed by an earlier feature. */
  ghost predicate BackwardReferences(shs: seq<Shape>)
  {
    forall i, t :: 0 <= i < |shs| && t in ShapeTargets(shs[i]) ==> t in Span(shs, 0, i)
  }

  lemma {:induction false} RebuildTwins(shs: seq<Shape>, n: nat, stale1: map<Feature, int>, stale2: map<Feature, int>)
    requires n <= |shs| && AllWellFormed(shs) && BackwardReferences(shs)
    ensures Twins(Replay(shs, n, Builder.Initial(stale1)), Replay(shs, n, Builder.Initial(stale2)))
  {
    if n > 0 {
      RebuildTwins(shs, n - 1, stale1, stale2);
      ReplaySpan(shs, 0, n - 1, Builder.Initial(stale1));
      StepTwins(shs[n - 1], Replay(shs, n - 1, Builder.Initial(stale1)), Replay(shs, n - 1, Builder.Initial(stale2)));
    }
  }

  /** When every reference points backwards, what the features held before the
      build does not matter: building again gives the same geometry, records,
      toggles and indices as the first build. */
  lemma RebuildIsStable(shs: seq<Shape>, stale1: map<Feature, int>, stale2: map<Feature, int>)
    requires AllWellFormed(shs) && BackwardReferences(shs)
    ensures var r1, r2 := Replay(shs, |shs|, Builder.Initial(stale1)), Replay(shs, |shs|, Builder.Initial(stale2));
            r1.geometry == r2.geometry && r1.records == r2.records && r1.toggles == r2.toggles &&
            forall t :: IndexOf(r1, t) == IndexOf(r2, t) || t !in Span(shs, 0, |shs|)
  {
    RebuildTwins(shs, |shs|, stale1, stale2);
    ReplaySpan(shs, 0, |shs|, Builder.Initial(stale1));
    ReplaySpan(shs, 0, |shs|, Builder.Initial(stale2));
  }

  /** A line referring to a line added after it reads that line's index from
      before the build: 0 on a first build of new features, 1 (the index the
      first build left) on a rebuild. */
  lemma ForwardReferenceExample(a: Feature, b: Feature, stale: map<Feature, int>)
    requires a != b
    ensures var shs := [Shape(a, LineKind(Point(1.0, 0.0)), [CoincidentConstraint(OfFeature(b, 1))], false, []),
                        Shape(b, LineKind(Point(0.0, 1.0)), [], false, [])];
            var r := Replay(shs, 2, Builder.Initial(stale));
            r.records == [Record(Coincident, [if b in stale then stale[b] else 0, 1, 0, 1], None)] &&
            IndexOf(r, b) == 1
  {
    var shs := [Shape(a, LineKind(Point(1.0, 0.0)), [CoincidentConstraint(OfFeature(b, 1))], false, []),
                Shape(b, LineKind(Point(0.0, 1.0)), [], false, [])];
    var s0 := Builder.Initial(stale);
    var s1 := Replay(shs, 1, s0);
    assert Replay(shs, 0, s0) == s0;
    assert s1 == Step(shs[0], s0);
    LineLayout(shs[0], s0);
    assert IndexOf(s1, b) == if b in stale then stale[b] else 0;
    assert s1.records == [Record(Coincident, [IndexOf(s1, b), 1, 0, 1], None)];
    assert Replay(shs, 2, s0) == Step(shs[1], s1);
    LineLayout(shs[1], s1);
  }
}
