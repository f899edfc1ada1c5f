/**
  Points of the canvas and the grid quantization used by cell painting.
  Coordinates are exact reals: the program's float comparisons with a 1e-6
  tolerance become exact comparisons here.
 */
module Geometry {

  datatype Point = Point(x: real, y: real)

  /** Index of the grid cell of side `size` holding coordinate `v`: Python's `int(v // size)`,
      i.e. floor division. */
  function CellIndex(v: real, size: int): int
    requires size > 0
  {
    (v / size as real).Floor
  }

  /** The left (or bottom) edge of cell number `k`. */
  function CellStart(k: int, size: int): real
  {
    k as real * size as real
  }

  /** Centre of the grid cell holding `v`, one axis of `_snap_to_cell_center`: the result is
      a cell centre (aligned to the grid) and lies in the same cell as `v`. */
  function SnapCoord(v: real, size: int): (c: real)
    requires size > 0
    ensures c - size as real / 2.0 <= v < c + size as real / 2.0
    ensures CellStart(CellIndex(v, size), size) <= v < CellStart(CellIndex(v, size), size) + size as real
    ensures CellIndex(c, size) == CellIndex(v, size)
    ensures c == CellStart(CellIndex(c, size), size) + size as real / 2.0
  {
    var k := CellIndex(v, size);
    FloorScaled(v, size);
    CentreIndex(k, size);
    CellStart(k, size) + size as real / 2.0
  }

  /** Both axes snapped independently. */
  function SnapPoint(p: Point, size: int): (c: Point)
    requires size > 0
    ensures c.x - size as real / 2.0 <= p.x < c.x + size as real / 2.0
    ensures c.y - size as real / 2.0 <= p.y < c.y + size as real / 2.0
    ensures CellIndex(c.x, size) == CellIndex(p.x, size)
    ensures CellIndex(c.y, size) == CellIndex(p.y, size)
    ensures c.x == CellStart(CellIndex(c.x, size), size) + size as real / 2.0
    ensures c.y == CellStart(CellIndex(c.y, size), size) + size as real / 2.0
  {
    Point(SnapCoord(p.x, size), SnapCoord(p.y, size))
  }

  /** Floor division scaled back: the cell of `v` starts at or below `v` and ends above it. */
  lemma FloorScaled(v: real, size: int)
    requires size > 0
    ensures CellStart(CellIndex(v, size), size) <= v < CellStart(CellIndex(v, size), size) + size as real
  {
    DivTimes(v, size as real);
    Bracket(v, size as real, v / size as real, (v / size as real).Floor as real);
  }

  lemma DivTimes(v: real, s: real)
    requires s > 0.0
    ensures v / s * s == v
  {
  }

  /** Scaling `k <= q < k + 1` by `s > 0`, where `v == q * s`. The steps go through lemmas
      with plain variables so that the solver never sees the floor and the products together. */
  lemma Bracket(v: real, s: real, q: real, k: real)
    requires s > 0.0 && q * s == v && k <= q < k + 1.0
    ensures k * s <= v
    ensures v < k * s + s
  {
    LowerScale(v, q, k, s);
    UpperScale(v, q, k + 1.0, s);
    Distrib(k, s);
    LtEq(v, (k + 1.0) * s, k * s + s);
  }

  lemma LowerScale(v: real, q: real, a: real, s: real)
    requires s > 0.0 && q * s == v && a <= q
    ensures a * s <= v
  {
    MulLe(a, q, s);
  }

  lemma UpperScale(v: real, q: real, b: real, s: real)
    requires s > 0.0 && q * s == v && q < b
    ensures v < b * s
  {
    MulLt(q, b, s);
  }

  lemma Distrib(k: real, s: real)
    ensures (k + 1.0) * s == k * s + s
  {
  }

  lemma LtEq(v: real, a: real, b: real)
    requires v < a && a == b
    ensures v < b
  {
  }

  lemma MulLe(a: real, b: real, s: real)
    requires a <= b && s > 0.0
    ensures a * s <= b * s
  {
  }

  lemma MulLt(a: real, b: real, s: real)
    requires a < b && s > 0.0
    ensures a * s < b * s
  {
  }

  /** The centre of cell `k` lies in cell `k`. */
  lemma CentreIndex(k: int, size: int)
    requires size > 0
    ensures CellIndex(CellStart(k, size) + size as real / 2.0, size) == k
  {
    IndexOfCell(CellStart(k, size) + size as real / 2.0, size, k);
  }

  /** A coordinate inside cell `k` has cell index `k`. */
  lemma IndexOfCell(v: real, size: int, k: int)
    requires size > 0
    requires CellStart(k, size) <= v < CellStart(k, size) + size as real
    ensures CellIndex(v, size) == k
  {
    var s := size as real;
    var q := v / s;
    assert v == q * s;
    assert k as real <= q by {
      if q < k as real {
        MulLt(q, k as real, s);
        assert false;
      }
    }
    assert (k as real + 1.0) * s == k as real * s + s;
    assert q < k as real + 1.0 by {
      if q >= k as real + 1.0 {
        MulLe(k as real + 1.0, q, s);
        assert false;
      }
    }
    assert q.Floor as real <= q < q.Floor as real + 1.0;
  }

  /** Snapping an already snapped coordinate changes nothing. */
  lemma SnapIdempotent(v: real, size: int)
    requires size > 0
    ensures SnapCoord(SnapCoord(v, size), size) == SnapCoord(v, size)
  {
  }

  /** Independent characterisation: the only cell centre whose half-open cell holds `v`
      is the snapped value. */
  lemma SnapUnique(v: real, size: int, k: int)
    requires size > 0
    requires CellStart(k, size) <= v < CellStart(k, size) + size as real
    ensures SnapCoord(v, size) == CellStart(k, size) + size as real / 2.0
  {
    IndexOfCell(v, size, k);
  }

  /** The point snapping of `_snap_to_cell_center` is idempotent on both axes. */
  lemma SnapPointIdempotent(p: Point, size: int)
    requires size > 0
    ensures SnapPoint(SnapPoint(p, size), size) == SnapPoint(p, size)
  {
  }

  /** With cells of side 20 the point (27, 43) lies in cell (1, 2), whose centre is (30, 50). */
  lemma SnapExample()
    ensures SnapPoint(Point(27.0, 43.0), 20) == Point(30.0, 50.0)
  {
  }
}
