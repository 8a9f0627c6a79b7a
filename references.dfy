// What the records of a whole build point at. When every coincidence refers
// backwards and every literal anchor is the origin, each geometry index in a
// record names the origin or an entry that exists. Each construction toggle
// names an existing entry, and no entry is toggled twice, so an entry is
// construction geometry exactly when it was toggled.

module RecordReferences {
  import opened Sketcher
  import opened Features
  import opened ReplayProperties
  import Builder

  /** Every geometry index r mentions is the origin's (-1) or one of the first n entries. */
  predicate RefersWithin(r: Record, n: int)
  {
    forall g :: g in GeoRefs(r) ==> g == -1 || 0 <= g < n
  }

  /** The literal anchors of c, if any, are the origin. */
  predicate AtOrigin(c: Constraint)
  {
    (c.SymmetryConstraint? ==> c.point == Origin) &&
    (c.CoincidentConstraint? && c.target.Literal? ==> c.target.anchor == Origin)
  }

  predicate ConstraintsAtOrigin(cs: seq<Constraint>)
  {
    forall k :: 0 <= k < |cs| ==> AtOrigin(cs[k])
  }

  /** The literal anchors of sh and of its control points are the origin, as the
      builder's SymmetricToOrigin and CoincidentToOrigin make them. */
  predicate OriginLiterals(sh: Shape)
  {
    ConstraintsAtOrigin(sh.constraints) && forall j :: 0 <= j < |sh.points| ==> ConstraintsAtOrigin(sh.points[j].constraints)
  }

  /** Strictly increasing. */
  predicate Increasing(t: seq<int>)
  {
    forall i, j :: 0 <= i < j < |t| ==> t[i] < t[j]
  }

  /** Between two features of a build: the counter names the last entry; every
      placed feature, every toggle and every record names existing entries; the
      toggles increase. */
  ghost predicate Grounded(s: ReplayState)
  {
    Sound(s) &&
    (forall t :: t in s.indices.placed ==> 0 <= s.indices.placed[t] < |s.geometry|) &&
    (forall k :: 0 <= k < |s.records| ==> RefersWithin(s.records[k], |s.geometry|)) &&
    (forall k :: 0 <= k < |s.toggles| ==> 0 <= s.toggles[k] < |s.geometry|) &&
    Increasing(s.toggles)
  }

  /** In a record of four or six integers, those at even positions are geometry. */
  lemma GeoRefsOfPairs(r: Record)
    requires r.kind != Radius && (|r.ints| == 4 || |r.ints| == 6)
    ensures GeoRefs(r) == if |r.ints| == 4 then [r.ints[0], r.ints[2]] else [r.ints[0], r.ints[2], r.ints[4]]
  {
  }

  /** A record anchored at existing entries, whose reference (if any) names an
      existing entry, refers within the geometry. */
  lemma MaterializeWithin(c: Constraint, idx1: Anchor, idx2: Option<Anchor>, featureIndex: int, n: int)
    requires c.NeedsSecond() ==> idx2.Some?
    requires AtOrigin(c) && 0 <= idx1.geo < n && (idx2.Some? ==> 0 <= idx2.value.geo < n)
    requires c.CoincidentConstraint? && c.target.OfFeature? ==> 0 <= featureIndex < n
    ensures RefersWithin(Materialize(c, idx1, idx2, featureIndex), n)
  {
    var r := Materialize(c, idx1, idx2, featureIndex);
    if !c.RadiusConstraint? {
      GeoRefsOfPairs(r);
    }
  }

  /** The records of constraints whose targets are placed refer within the geometry. */
  lemma RecordsWithin(cs: seq<Constraint>, idx1: Anchor, idx2: Option<Anchor>, s: ReplayState, n: int)
    requires idx2.None? ==> CircleSafe(cs)
    requires ConstraintsAtOrigin(cs) && 0 <= idx1.geo < n && (idx2.Some? ==> 0 <= idx2.value.geo < n)
    requires Targets(cs) <= s.indices.placed.Keys
    requires forall t :: t in s.indices.placed ==> 0 <= s.indices.placed[t] < n
    ensures forall k :: 0 <= k < |cs| ==> RefersWithin(Records(cs, idx1, idx2, s)[k], n)
  {
    RecordsAt(cs, idx1, idx2, s);
    forall k | 0 <= k < |cs|
      ensures RefersWithin(Records(cs, idx1, idx2, s)[k], n)
    {
      var c := cs[k];
      if c.CoincidentConstraint? && c.target.OfFeature? {
        assert c.target.feature in Targets(cs);
      }
      MaterializeWithin(c, idx1, idx2, RefIndex(c, s), n);
    }
  }

  /** A new entry n, written to f, records r appended that refer within n + 1,
      and a toggle of n at most keep a grounded state grounded. */
  lemma AddedGrounded(s: ReplayState, s1: ReplayState, r: ReplayState, f: Feature, extra: seq<Record>, toggle: seq<int>)
    requires Grounded(s) && |s1.geometry| == |s.geometry| + 1 && s1 == Placed(f, s.(cursor := s1.cursor, geometry := s1.geometry))
    requires r == s1.(records := s.records + extra, toggles := s.toggles + toggle)
    requires forall k :: 0 <= k < |extra| ==> RefersWithin(extra[k], |s.geometry| + 1)
    requires toggle == [] || toggle == [|s.geometry|]
    ensures Grounded(r) && s.indices.placed.Keys <= r.indices.placed.Keys
  {
    forall k | 0 <= k < |r.records|
      ensures RefersWithin(r.records[k], |r.geometry|)
    {
      if k < |s.records| {
        assert r.records[k] == s.records[k];
      } else {
        assert r.records[k] == extra[k - |s.records|];
      }
    }
  }

  lemma LineGrounded(sh: Shape, s: ReplayState)
    requires sh.kind.LineKind? && Grounded(s) && ConstraintsAtOrigin(sh.constraints)
    requires Targets(sh.constraints) <= s.indices.placed.Keys
    ensures Grounded(LineStep(sh, s)) && s.indices.placed.Keys <= LineStep(sh, s).indices.placed.Keys
  {
    var end := Plus(s.cursor, sh.kind.toAdd);
    var s1 := Placed(sh.obj, s.(cursor := end, geometry := s.geometry + [Geom.Line(s.cursor, end)]));
    var n := s1.counter;
    RecordsWithin(sh.constraints, Anchor(n, 1), Some(Anchor(n, 2)), s1, n + 1);
    AddedGrounded(s, s1, LineStep(sh, s), sh.obj, Records(sh.constraints, Anchor(n, 1), Some(Anchor(n, 2)), s1),
                  ConstructionToggle(sh, n));
  }

  lemma CircleGrounded(sh: Shape, s: ReplayState)
    requires sh.kind.CircleKind? && CircleSafe(sh.constraints) && Grounded(s) && ConstraintsAtOrigin(sh.constraints)
    requires Targets(sh.constraints) <= s.indices.placed.Keys
    ensures Grounded(CircleStep(sh, s)) && s.indices.placed.Keys <= CircleStep(sh, s).indices.placed.Keys
  {
    var s1 := Placed(sh.obj, s.(geometry := s.geometry + [Geom.Circle(sh.kind.center, sh.kind.radius)]));
    var n := s1.counter;
    RecordsWithin(sh.constraints, Anchor(n, 3), None, s1, n + 1);
    AddedGrounded(s, s1, CircleStep(sh, s), sh.obj, Records(sh.constraints, Anchor(n, 3), None, s1),
                  ConstructionToggle(sh, n));
  }

  /** Control points whose targets are placed keep a state grounded. */
  lemma {:induction false} PointsGrounded(ps: seq<Shape>, n: nat, s: ReplayState)
    requires n <= |ps| && AllCircles(ps) && Grounded(s)
    requires forall j :: 0 <= j < |ps| ==> ConstraintsAtOrigin(ps[j].constraints) && Targets(ps[j].constraints) <= s.indices.placed.Keys
    ensures Grounded(Replay(ps, n, s)) && s.indices.placed.Keys <= Replay(ps, n, s).indices.placed.Keys
  {
    if n > 0 {
      PointsGrounded(ps, n - 1, s);
      assert Replay(ps, n, s) == CircleStep(ps[n - 1], Replay(ps, n - 1, s));
      CircleGrounded(ps[n - 1], Replay(ps, n - 1, s));
    }
  }

  /** A feature whose references are placed keeps a state grounded. */
  lemma StepGrounded(sh: Shape, s: ReplayState)
    requires WellFormed(sh) && Grounded(s) && OriginLiterals(sh) && ShapeTargets(sh) <= s.indices.placed.Keys
    ensures Grounded(Step(sh, s))
  {
    match sh.kind
    case MoveKind(_, _) =>
    case LineKind(_) =>
      assert Step(sh, s) == LineStep(sh, s);
      LineGrounded(sh, s);
    case CircleKind(_, _) =>
      assert Step(sh, s) == CircleStep(sh, s);
      CircleGrounded(sh, s);
    case BsplineKind =>
      PointTargets(sh);
      PointsGrounded(sh.points, |sh.points|, s);
      assert Step(sh, s) == BsplineStep(sh, s);
  }

  lemma {:induction false} ReplayGrounded(shs: seq<Shape>, n: nat, stale: map<Feature, int>)
    requires n <= |shs| && AllWellFormed(shs) && BackwardReferences(shs)
    requires forall i :: 0 <= i < |shs| ==> OriginLiterals(shs[i])
    ensures Grounded(Replay(shs, n, Builder.Initial(stale)))
  {
    var s0 := Builder.Initial(stale);
    if n == 0 {
      assert Replay(shs, 0, s0) == s0;
    } else {
      ReplayGrounded(shs, n - 1, stale);
      assert Replay(shs, 0, s0) == s0;
      ReplaySpan(shs, 0, n - 1, s0);
      assert ShapeTargets(shs[n - 1]) <= Replay(shs, n - 1, s0).indices.placed.Keys;
      StepGrounded(shs[n - 1], Replay(shs, n - 1, s0));
    }
  }

  /** An increasing sequence holds each value at most once. */
  lemma {:induction false} IncreasingOnce(t: seq<int>, i: int)
    requires Increasing(t)
    ensures Occurrences(t, i) == if i in t then 1 else 0
  {
    if t != [] {
      IncreasingOnce(t[..|t| - 1], i);
      assert t == t[..|t| - 1] + [t[|t| - 1]];
    }
  }

  /** After a build in which every coincidence refers backwards and every
      literal anchor is the origin, each geometry index of each record is the
      origin's or names an existing entry; every toggle names an existing entry,
      and an entry is construction geometry (toggled an odd number of times)
      exactly when it was toggled. */
  lemma BuildRecordsGrounded(shs: seq<Shape>, stale: map<Feature, int>)
    requires AllWellFormed(shs) && BackwardReferences(shs)
    requires forall i :: 0 <= i < |shs| ==> OriginLiterals(shs[i])
    ensures var r := Replay(shs, |shs|, Builder.Initial(stale));
            (forall k, g :: 0 <= k < |r.records| && g in GeoRefs(r.records[k]) ==> g == -1 || 0 <= g < |r.geometry|) &&
            (forall k :: 0 <= k < |r.toggles| ==> 0 <= r.toggles[k] < |r.geometry|) &&
            (forall i :: Occurrences(r.toggles, i) % 2 == 1 <==> i in r.toggles)
  {
    ReplayGrounded(shs, |shs|, stale);
    var r := Replay(shs, |shs|, Builder.Initial(stale));
    forall i
      ensures Occurrences(r.toggles, i) % 2 == 1 <==> i in r.toggles
    {
      IncreasingOnce(r.toggles, i);
    }
  }
}
