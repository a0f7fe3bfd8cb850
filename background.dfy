/** The dot coordinates `CanvasScene.drawBackground` paints for an exposed rectangle.
    The rectangle's edges are given after Python's `int(...)` conversion. */
module Background {
  import opened Grid

  /** `int(left) - int(left) % grid`: Python's `%` with a positive modulus is
      non-negative, as Dafny's is, so this is the grid line at or below `left`. */
  function GridStart(left: int): (s: int)
    ensures s % GRID == 0
    ensures s <= left < s + GRID
  {
    left - left % GRID
  }

  /** Python's `range(start, stop, grid)`. */
  function Range(start: int, stop: int): seq<int>
    decreases stop - start
  {
    if start < stop then [start] + Range(start + GRID, stop) else []
  }

  /** `range(start, stop, grid)` has one element per step that starts below `stop`,
      the i-th being `start + grid * i`. */
  lemma {:induction false} RangeElements(start: int, stop: int)
    ensures |Range(start, stop)| == if start < stop then (stop - start + GRID - 1) / GRID else 0
    ensures forall i :: 0 <= i < |Range(start, stop)| ==> Range(start, stop)[i] == start + GRID * i
    decreases stop - start
  {
    if start < stop {
      RangeElements(start + GRID, stop);
    }
  }

  /** The dots of column `x`, one per row coordinate in `ys`, top to bottom. */
  function Column(x: int, ys: seq<int>): seq<Point>
  {
    if ys == [] then [] else [Point(x, ys[0])] + Column(x, ys[1..])
  }

  /** The inner loop draws one dot per row coordinate, in order, all in column `x`. */
  lemma {:induction false} ColumnElements(x: int, ys: seq<int>)
    ensures |Column(x, ys)| == |ys|
    ensures forall j :: 0 <= j < |ys| ==> Column(x, ys)[j] == Point(x, ys[j])
  {
    if ys != [] {
      ColumnElements(x, ys[1..]);
    }
  }

  /** The dots of the nested loops: columns left to right, each column top to bottom. */
  function Lattice(xs: seq<int>, ys: seq<int>): (dots: seq<Point>)
  {
    if xs == [] then [] else Column(xs[0], ys) + Lattice(xs[1..], ys)
  }

  /** Every dot drawn for the exposed rectangle `left..right` by `top..bottom`. */
  function GridDots(left: int, top: int, right: int, bottom: int): seq<Point> {
    Lattice(Range(GridStart(left), right), Range(GridStart(top), bottom))
  }

  /** The two nested `for ... in range(...)` loops of `drawBackground`, collecting
      the centre of each ellipse they draw; the inner loop is `DrawColumn`. */
  method DrawBackground(left: int, top: int, right: int, bottom: int) returns (dots: seq<Point>)
    ensures dots == GridDots(left, top, right, bottom)
  {
    ghost var all := GridDots(left, top, right, bottom);
    var x0 := GridStart(left);
    var y0 := GridStart(top);
    ghost var ys := Range(y0, bottom);
    dots := [];
    var x := x0;
    while x < right
      invariant dots + Lattice(Range(x, right), ys) == all
      decreases right - x
    {
      ColumnThenLater(dots, x, right, ys);
      var column := DrawColumn(x, y0, bottom);
      dots := dots + column;
      x := x + GRID;
    }
    EmptyRange(x, right);
  }

  /** The inner `for y in range(top, bottom, grid)` loop for column `x`. */
  method DrawColumn(x: int, top: int, bottom: int) returns (dots: seq<Point>)
    ensures dots == Column(x, Range(top, bottom))
  {
    dots := [];
    var y := top;
    while y < bottom
      invariant dots + Column(x, Range(y, bottom)) == Column(x, Range(top, bottom))
      decreases bottom - y
    {
      DotThenBelow(dots, x, y, bottom);
      dots := dots + [Point(x, y)];
      y := y + GRID;
    }
    EmptyRange(y, bottom);
    assert Column(x, []) == [];
  }

  /** One pass of the outer loop: column `x`, then the columns after it. */
  lemma ColumnThenLater(dots: seq<Point>, x: int, right: int, ys: seq<int>)
    requires x < right
    ensures dots + Lattice(Range(x, right), ys)
            == dots + Column(x, ys) + Lattice(Range(x + GRID, right), ys)
  {
    RangeStep(x, right);
    LatticeCons(x, Range(x + GRID, right), ys);
  }

  /** One pass of the inner loop: dot (x, y), then the dots below it. */
  lemma DotThenBelow(dots: seq<Point>, x: int, y: int, bottom: int)
    requires y < bottom
    ensures dots + Column(x, Range(y, bottom))
            == (dots + [Point(x, y)]) + Column(x, Range(y + GRID, bottom))
  {
    RangeStep(y, bottom);
    ColumnCons(x, y, Range(y + GRID, bottom));
  }

  /** A `range` whose start is not below its stop is empty. */
  lemma EmptyRange(start: int, stop: int)
    requires stop <= start
    ensures Range(start, stop) == []
  {
  }

  /** One iteration of a `range` loop: the first value, then the rest from the next step. */
  lemma RangeStep(start: int, stop: int)
    requires start < stop
    ensures Range(start, stop) == [start] + Range(start + GRID, stop)
  {
  }

  lemma ColumnCons(x: int, y: int, ys: seq<int>)
    ensures Column(x, [y] + ys) == [Point(x, y)] + Column(x, ys)
  {
    assert ([y] + ys)[1..] == ys;
  }

  lemma LatticeCons(x: int, xs: seq<int>, ys: seq<int>)
    ensures Lattice([x] + xs, ys) == Column(x, ys) + Lattice(xs, ys)
  {
    assert ([x] + xs)[1..] == xs;
  }

  /** The coordinates of one axis are exactly the grid lines in `[GridStart(lo), hi)`:
      each emitted value is such a line, and each such line is emitted. */
  lemma {:induction false} RangeMembers(lo: int, hi: int, v: int)
    ensures v in Range(GridStart(lo), hi) <==> GridStart(lo) <= v < hi && v % GRID == 0
  {
    var s := GridStart(lo);
    var r := Range(s, hi);
    RangeElements(s, hi);
    if s <= v < hi && v % GRID == 0 {
      var i := (v - s) / GRID;
      assert v == s + GRID * i;
      assert i < |r|;
      assert r[i] == v;
    }
    if v in r {
      var i :| 0 <= i < |r| && r[i] == v;
      assert v == s + GRID * i;
    }
  }

  /** Consecutive coordinates on an axis are one grid step apart and increase. */
  lemma ConsecutiveStep(lo: int, hi: int, i: int)
    requires 0 <= i && i + 1 < |Range(GridStart(lo), hi)|
    ensures Range(GridStart(lo), hi)[i + 1] == Range(GridStart(lo), hi)[i] + GRID
  {
    RangeElements(GridStart(lo), hi);
  }

  /** A point is drawn exactly when its column is one of `xs` and its row one of `ys`. */
  lemma {:induction false} LatticeMembers(xs: seq<int>, ys: seq<int>, p: Point)
    ensures p in Lattice(xs, ys) <==> p.x in xs && p.y in ys
  {
    if xs != [] {
      LatticeMembers(xs[1..], ys, p);
      assert xs == [xs[0]] + xs[1..];
      ColumnElements(xs[0], ys);
      if p.x == xs[0] && p.y in ys {
        var j :| 0 <= j < |ys| && ys[j] == p.y;
        assert Column(xs[0], ys)[j] == p;
      }
    }
  }

  /** The dots drawn for a rectangle are exactly the grid points at or after the
      grid lines at or before its top-left corner, and strictly before its right
      and bottom edges. */
  lemma GridDotsMembers(left: int, top: int, right: int, bottom: int, p: Point)
    ensures p in GridDots(left, top, right, bottom) <==>
              GridStart(left) <= p.x < right && p.x % GRID == 0 &&
              GridStart(top) <= p.y < bottom && p.y % GRID == 0
  {
    LatticeMembers(Range(GridStart(left), right), Range(GridStart(top), bottom), p);
    RangeMembers(left, right, p.x);
    RangeMembers(top, bottom, p.y);
  }

  /** The first dot column is the greatest grid line at or below `left`. */
  lemma GridStartGreatest(left: int, m: int)
    requires m % GRID == 0 && m <= left
    ensures m <= GridStart(left)
  {
    var s := GridStart(left);
    assert (s - m) % GRID == 0;
    assert s - m > -GRID;
  }
}
