/**
  Tool behaviour that does not depend on the session: the eraser's whole-trace
  removal, the spray's batch of scattered points, and what each tool's renderer
  draws from the trace list.
 */
module Tools {
  import opened Wrappers
  import opened Geometry
  import opened Traces

  /** Default eraser radius of `erase_at`. */
  const EraserRadius: real := 12.0

  /** Default batch size of `scatter`. */
  const SprayCount: nat := 28

  /** Side used to draw a cell trace that carries no size. */
  const CellDefaultSize: int := 16

  /** Stroke widths of the pencil, marker and spray renderers. */
  const PencilWidth: int := 3
  const MarkerWidth: int := 10
  const SprayWidth: int := 5

  // ---------------------------------------------------------------- eraser

  /** `p` lies within `radius` of `q`, boundary included (`dx*dx + dy*dy <= radius*radius`). */
  predicate Within(p: Point, q: Point, radius: real)
  {
    (p.x - q.x) * (p.x - q.x) + (p.y - q.y) * (p.y - q.y) <= radius * radius
  }

  /** Some stored point of `t` lies within `radius` of `q`. Segments between points are not tested. */
  predicate Hits(t: Trace, q: Point, radius: real)
  {
    exists i :: 0 <= i < |t.points| && Within(t.points[i], q, radius)
  }

  /** The trace list left by `erase_at`: the traces with no hit, in their original order. */
  function Erase(ts: seq<Trace>, q: Point, radius: real): (r: seq<Trace>)
    ensures |r| <= |ts|
    ensures forall t :: t in r <==> t in ts && !Hits(t, q, radius)
  {
    if ts == [] then []
    else (if Hits(ts[0], q, radius) then [] else [ts[0]]) + Erase(ts[1..], q, radius)
  }

  /** Erasing distributes over concatenation, so survivors keep their relative order. */
  lemma {:induction false} EraseAppend(a: seq<Trace>, b: seq<Trace>, q: Point, radius: real)
    ensures Erase(a + b, q, radius) == Erase(a, q, radius) + Erase(b, q, radius)
  {
    if a == [] {
      assert a + b == b;
    } else {
      assert (a + b)[0] == a[0];
      assert (a + b)[1..] == a[1..] + b;
      EraseAppend(a[1..], b, q, radius);
    }
  }

  /** A list in which no trace is hit is left exactly as it was. */
  lemma {:induction false} EraseKeepsUnhit(ts: seq<Trace>, q: Point, radius: real)
    requires forall i :: 0 <= i < |ts| ==> !Hits(ts[i], q, radius)
    ensures Erase(ts, q, radius) == ts
  {
    if ts != [] {
      EraseKeepsUnhit(ts[1..], q, radius);
    }
  }

  /** Erasing twice at the same place is the same as erasing once. */
  lemma EraseIdempotent(ts: seq<Trace>, q: Point, radius: real)
    ensures Erase(Erase(ts, q, radius), q, radius) == Erase(ts, q, radius)
  {
    var r := Erase(ts, q, radius);
    forall i | 0 <= i < |r|
      ensures !Hits(r[i], q, radius)
    {
      assert r[i] in r;
    }
    EraseKeepsUnhit(r, q, radius);
  }

  /** A hit anywhere in a trace removes every occurrence of that whole trace. */
  lemma EraseRemovesWholeTrace(ts: seq<Trace>, q: Point, radius: real, i: nat, j: nat)
    requires i < |ts| && j < |ts[i].points|
    requires Within(ts[i].points[j], q, radius)
    ensures ts[i] !in Erase(ts, q, radius)
    ensures |Erase(ts, q, radius)| < |ts|
  {
    assert Hits(ts[i], q, radius);
    EraseShrinks(ts, q, radius, i);
  }

  lemma {:induction false} EraseShrinks(ts: seq<Trace>, q: Point, radius: real, i: nat)
    requires i < |ts| && Hits(ts[i], q, radius)
    ensures |Erase(ts, q, radius)| < |ts|
  {
    if i > 0 {
      assert ts[1..][i - 1] == ts[i];
      EraseShrinks(ts[1..], q, radius, i - 1);
    }
  }

  /** Only stored points count: a two-point stroke from (0,0) to (10,0) survives erasing at
      its midpoint with radius 1, although the drawn segment passes through that point. */
  lemma EraseIgnoresSegments()
    ensures var t := Trace("PENCIL", [0, 0, 0, 255], [Point(0.0, 0.0), Point(10.0, 0.0)], None);
            Erase([t], Point(5.0, 0.0), 1.0) == [t]
  {
  }

  /** The radius test is inclusive: a point exactly 12 away is hit by the default eraser. */
  lemma EraseBoundaryInclusive()
    ensures var t := Trace("PENCIL", [0, 0, 0, 255], [Point(12.0, 0.0)], None);
            Erase([t], Point(0.0, 0.0), EraserRadius) == []
  {
    var t := Trace("PENCIL", [0, 0, 0, 255], [Point(12.0, 0.0)], None);
    assert Within(t.points[0], Point(0.0, 0.0), EraserRadius);
    assert Hits(t, Point(0.0, 0.0), EraserRadius);
  }

  /** `EraserTool.erase_at` as written: a scan of every trace's points that stops at the
      first hit, collecting the traces without one. */
  method EraseAt(ts: seq<Trace>, q: Point, radius: real) returns (keep: seq<Trace>)
    ensures keep == Erase(ts, q, radius)
  {
    var r2 := radius * radius;
    keep := [];
    var i := 0;
    while i < |ts|
      invariant 0 <= i <= |ts|
      invariant keep == Erase(ts[..i], q, radius)
    {
      var pts := ts[i].points;
      var hit := false;
      var j := 0;
      while j < |pts|
        invariant 0 <= j <= |pts|
        invariant !hit
        invariant forall k :: 0 <= k < j ==> !Within(pts[k], q, radius)
      {
        var dx := pts[j].x - q.x;
        var dy := pts[j].y - q.y;
        if dx * dx + dy * dy <= r2 {
          hit := true;
          break;
        }
        j := j + 1;
      }
      assert hit <==> Hits(ts[i], q, radius);
      if !hit {
        keep := keep + [ts[i]];
      }
      assert ts[..i + 1] == ts[..i] + [ts[i]];
      EraseAppend(ts[..i], [ts[i]], q, radius);
      i := i + 1;
    }
    assert ts[..|ts|] == ts;
  }

  // ---------------------------------------------------------------- spray

  /** `SprayTool.scatter`: `count` points, the i-th displaced from the centre by the i-th
      random offset `jitter(i)` (the program draws a radius and an angle per point). */
  function Scatter(cx: real, cy: real, count: nat, jitter: nat -> Point): (pts: seq<Point>)
    ensures |pts| == count
    ensures forall i :: 0 <= i < count ==> pts[i].x - cx == jitter(i).x && pts[i].y - cy == jitter(i).y
  {
    seq(count, i requires 0 <= i < count => Point(cx + jitter(i).x, cy + jitter(i).y))
  }

  // ---------------------------------------------------------------- rendering

  /** What a renderer asks the graphics library to draw, abstracted from the library calls. */
  datatype Shape =
    | Strip(points: seq<Point>, color: Color, width: int)
    | Dot(at: Point, color: Color, width: int)
    | Dots(points: seq<Point>, color: Color, width: int)
    | Square(center: Point, half: real, color: Color)

  /** The shapes one tool's renderer draws for one trace it owns. */
  function TraceShapes(k: ToolKind, t: Trace): seq<Shape>
  {
    match k
    case Pencil => StrokeShapes(t, PencilWidth)
    case Marker => StrokeShapes(t, MarkerWidth)
    case Spray => if t.points != [] then [Dots(t.points, t.color, SprayWidth)] else []
    case Cell =>
      var half := t.size.GetOr(CellDefaultSize) as real / 2.0;
      seq(|t.points|, i requires 0 <= i < |t.points| => Square(t.points[i], half, t.color))
    case Eraser => []
  }

  /** Pencil and marker: a line strip through two or more points, a dot for one, nothing for none. */
  function StrokeShapes(t: Trace, width: int): seq<Shape>
  {
    if |t.points| >= 2 then [Strip(t.points, t.color, width)]
    else if |t.points| == 1 then [Dot(t.points[0], t.color, width)]
    else []
  }

  /** `draw_traces` of tool `k` over the whole list: traces whose `tool` is another name
      are skipped. */
  function DrawTraces(k: ToolKind, ts: seq<Trace>): seq<Shape>
  {
    if ts == [] then []
    else (if ts[0].tool == k.Name() then TraceShapes(k, ts[0]) else []) + DrawTraces(k, ts[1..])
  }

  /** The traces carrying tool name `name`, in order. */
  function Owned(name: string, ts: seq<Trace>): (r: seq<Trace>)
    ensures forall t :: t in r <==> t in ts && t.tool == name
  {
    if ts == [] then []
    else (if ts[0].tool == name then [ts[0]] else []) + Owned(name, ts[1..])
  }

  /** A renderer only sees traces carrying its own name: drawing the whole list is drawing
      exactly the traces it owns. */
  lemma {:induction false} DrawOnlyOwned(k: ToolKind, ts: seq<Trace>)
    ensures DrawTraces(k, ts) == DrawTraces(k, Owned(k.Name(), ts))
  {
    if ts != [] {
      DrawOnlyOwned(k, ts[1..]);
      var rest := Owned(k.Name(), ts[1..]);
      if ts[0].tool == k.Name() {
        var o := [ts[0]] + rest;
        assert Owned(k.Name(), ts) == o;
        assert o[0] == ts[0] && o[1..] == rest;
        assert DrawTraces(k, o) == TraceShapes(k, ts[0]) + DrawTraces(k, rest);
      } else {
        assert Owned(k.Name(), ts) == [] + rest == rest;
        assert DrawTraces(k, ts) == [] + DrawTraces(k, ts[1..]);
      }
    }
  }

  /** Adding a trace another tool owns changes nothing this renderer draws. */
  lemma {:induction false} DrawIgnoresForeign(k: ToolKind, ts: seq<Trace>, t: Trace)
    requires t.tool != k.Name()
    ensures DrawTraces(k, ts + [t]) == DrawTraces(k, ts)
  {
    if ts == [] {
      assert ([] + [t])[1..] == [];
    } else {
      assert (ts + [t])[0] == ts[0];
      assert (ts + [t])[1..] == ts[1..] + [t];
      DrawIgnoresForeign(k, ts[1..], t);
    }
  }

  /** The eraser's renderer draws nothing whatever the list holds. */
  lemma {:induction false} EraserDrawsNothing(ts: seq<Trace>)
    ensures DrawTraces(Eraser, ts) == []
  {
    if ts != [] {
      EraserDrawsNothing(ts[1..]);
    }
  }

  /** A cell trace without a size is drawn as one square of side 16 per point, centred on it. */
  lemma CellDefaultSide(t: Trace)
    requires t.tool == "CELL" && t.size == None
    ensures |DrawTraces(Cell, [t])| == |t.points|
    ensures forall i :: 0 <= i < |t.points| ==>
              DrawTraces(Cell, [t])[i] == Square(t.points[i], 8.0, t.color)
  {
  }
}
