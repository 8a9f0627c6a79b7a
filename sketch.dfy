// The host side of the builder: the geometry and constraint records a sketch
// object stores, the sketch object itself, and the document that owns sketches.
// The geometry kernel's curves and the constraint solver are not modelled;
// curves are plain values and constraints are the argument lists handed to the
// host's constraint constructor.

module Sketcher {

  datatype Option<T> = None | Some(value: T)

  /** A 2D point or vector. Coordinates are exact reals. */
  datatype Point = Point(x: real, y: real)

  function Plus(p: Point, v: Point): Point
  {
    Point(p.x + v.x, p.y + v.y)
  }

  /** A reference to a point of a geometry entry: (geometry index, point index).
      Point index 1 is a segment's start, 2 its end, 3 a circle's edge. */
  datatype Anchor = Anchor(geo: int, pos: int)

  /** The sketch origin, (-1, 1) in the host's numbering. */
  const Origin := Anchor(-1, 1)

  /** One geometry entry of a sketch. */
  datatype Geom =
    | Line(start: Point, end: Point)
    | Circle(center: Point, radius: real)
    | BSpline(poles: seq<Point>, periodic: bool, degree: nat)

  /** The type string of a constraint record. */
  datatype ConstraintType = Horizontal | Vertical | Symmetric | Coincident | DistanceX | DistanceY | Radius

  /** One constraint record: its type tag, its integer arguments (geometry and
      point indices, in the order the host receives them) and an optional value. */
  datatype Record = Record(kind: ConstraintType, ints: seq<int>, value: Option<real>)

  /** The geometry indices a record mentions: the first integer of a Radius
      record, and the first integer of every (geometry, point) pair otherwise. */
  function GeoRefs(r: Record): (g: seq<int>)
    ensures |g| <= |r.ints|
  {
    if r.kind == Radius then (if |r.ints| > 0 then [r.ints[0]] else [])
    else EvenPositions(r.ints)
  }

  function EvenPositions(s: seq<int>): (r: seq<int>)
    ensures |r| == (|s| + 1) / 2
    ensures forall k :: 0 <= k < |r| ==> r[k] == s[2 * k]
  {
    if |s| == 0 then [] else if |s| == 1 then [s[0]] else [s[0]] + EvenPositions(s[2..])
  }

  /** A sketch object: its geometry list, its constraint list, and the indices
      whose construction flag was toggled, in toggling order. */
  class Sketch {
    const name: string
    var geometry: seq<Geom>
    var constraints: seq<Record>
    var toggles: seq<int>

    constructor (name: string)
      ensures this.name == name && geometry == [] && constraints == [] && toggles == []
    {
      this.name := name;
      geometry, constraints, toggles := [], [], [];
    }

    /** Whether entry i is construction geometry: it was toggled an odd number of times. */
    function IsConstruction(i: int): bool
      reads this`toggles
    {
      Occurrences(toggles, i) % 2 == 1
    }

    method AddGeometry(g: Geom)
      modifies this`geometry
      ensures geometry == old(geometry) + [g]
    {
      geometry := geometry + [g];
    }

    method AddConstraint(r: Record)
      modifies this`constraints
      ensures constraints == old(constraints) + [r]
    {
      constraints := constraints + [r];
    }

    method ToggleConstruction(i: int)
      modifies this`toggles
      ensures toggles == old(toggles) + [i]
    {
      toggles := toggles + [i];
    }

    method DeleteAllConstraints()
      modifies this`constraints
      ensures constraints == []
    {
      constraints := [];
    }

    /** Deleting the geometry also drops the construction flags it carried. */
    method DeleteAllGeometry()
      modifies this`geometry, this`toggles
      ensures geometry == [] && toggles == []
    {
      geometry, toggles := [], [];
    }
  }

  function Occurrences(s: seq<int>, i: int): (n: nat)
    ensures n <= |s|
    ensures n == 0 <==> i !in s
  {
    if s == [] then 0 else Occurrences(s[..|s| - 1], i) + (if s[|s| - 1] == i then 1 else 0)
  }

  /** The sketches among objs with the given name. */
  function Named(objs: seq<Sketch>, name: string): (r: seq<Sketch>)
    ensures |r| <= |objs|
    ensures forall k :: 0 <= k < |r| ==> r[k] in objs && r[k].name == name
    ensures forall k :: 0 <= k < |objs| && objs[k].name == name ==> objs[k] in r
  {
    if objs == [] then []
    else Named(objs[..|objs| - 1], name) + (if objs[|objs| - 1].name == name then [objs[|objs| - 1]] else [])
  }

  /** Each sketch of objs is found exactly as often as it occurs in objs when
      it has the name, and never otherwise. */
  lemma {:induction false} NamedCounts(objs: seq<Sketch>, name: string)
    ensures forall k :: 0 <= k < |objs| ==>
              multiset(Named(objs, name))[objs[k]] == if objs[k].name == name then multiset(objs)[objs[k]] else 0
  {
    if objs != [] {
      var init, last := objs[..|objs| - 1], objs[|objs| - 1];
      NamedCounts(init, name);
      assert objs == init + [last];
      forall k | 0 <= k < |objs|
        ensures multiset(Named(objs, name))[objs[k]] == if objs[k].name == name then multiset(objs)[objs[k]] else 0
      {
        var x := objs[k];
        if x !in init {
          assert x !in Named(init, name);
        }
      }
    }
  }

  /** The active document, reduced to the sketch objects it owns. */
  class Document {
    var objects: seq<Sketch>

    constructor ()
      ensures objects == []
    {
      objects := [];
    }

    function FindObjects(name: string): (r: seq<Sketch>)
      reads this`objects
      ensures forall k :: 0 <= k < |r| ==> r[k] in objects && r[k].name == name
      ensures forall k :: 0 <= k < |objects| && objects[k].name == name ==> objects[k] in r
      ensures forall k :: 0 <= k < |objects| ==>
                multiset(r)[objects[k]] == if objects[k].name == name then multiset(objects)[objects[k]] else 0
    {
      NamedCounts(objects, name);
      Named(objects, name)
    }

    method AddObject(name: string) returns (s: Sketch)
      modifies this`objects
      ensures fresh(s) && s.name == name
      ensures s.geometry == [] && s.constraints == [] && s.toggles == []
      ensures objects == old(objects) + [s]
    {
      s := new Sketch(name);
      objects := objects + [s];
    }

    /** Recomputing the document does not change what the model observes. */
    method Recompute()
    {
    }
  }
}
