// The mutable state one build threads through every feature it replays: the
// cursor and the index of the last geometry entry added so far.

module BuilderContext {
  import opened Sketcher

  class Context {
    var cursor: Point
    var geometryIndex: int

    /** A fresh context: cursor at the origin, no geometry added yet. */
    constructor ()
      ensures cursor == Point(0.0, 0.0) && geometryIndex == -1
    {
      cursor := Point(0.0, 0.0);
      geometryIndex := -1;
    }

    /** Sets the cursor to the absolute point (x, y). */
    method Move(x: real, y: real)
      modifies this`cursor
      ensures cursor == Point(x, y)
    {
      cursor := Point(x, y);
    }

    /** Advances the cursor by v and returns the segment it travelled. */
    method Add(v: Point) returns (start: Point, end: Point)
      modifies this`cursor
      ensures start == old(cursor)
      ensures end.x == old(cursor).x + v.x && end.y == old(cursor).y + v.y
      ensures cursor == end
    {
      start := Point(cursor.x, cursor.y);
      end := Plus(cursor, v);
      cursor := end;
    }

    /** Counts one more geometry entry and returns its index. */
    method GeometryAdded() returns (index: int)
      modifies this`geometryIndex
      ensures geometryIndex == old(geometryIndex) + 1
      ensures index == geometryIndex
    {
      geometryIndex := geometryIndex + 1;
      index := geometryIndex;
    }
  }
}
