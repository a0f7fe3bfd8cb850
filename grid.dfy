/** Grid snapping of card positions while they are dragged (`CanvasCard.itemChange`).
    Coordinates are integers; the grid step is 15 scene units. */
module Grid {

  /** The spacing of the snapping grid and of the background dots. */
  const GRID: int := 15

  /** A point in scene coordinates. */
  datatype Point = Point(x: int, y: int)

  /** Python's `round(v / GRID)`: the nearest integer to the quotient, ties to even. */
  function RoundDiv(v: int): (q: int)
    ensures -GRID <= 2 * (v - q * GRID) <= GRID
    ensures 2 * (v - q * GRID) == GRID || 2 * (v - q * GRID) == -GRID ==> IsEven(q)
  {
    var lo := v / GRID;
    var r := v % GRID;
    if 2 * r < GRID then lo
    else if 2 * r > GRID then lo + 1
    else if IsEven(lo) then lo
    else lo + 1
  }

  predicate IsEven(n: int) {
    n % 2 == 0
  }

  /** `round(v / grid) * grid` on one axis. */
  function Snap(v: int): (s: int)
    ensures s % GRID == 0
    ensures -7 <= s - v <= 7
  {
    RoundDiv(v) * GRID
  }

  /** The position `itemChange` returns for a proposed `ItemPositionChange`. */
  function SnapPoint(p: Point): (q: Point)
    ensures q.x % GRID == 0 && q.y % GRID == 0
    ensures -7 <= q.x - p.x <= 7 && -7 <= q.y - p.y <= 7
  {
    Point(Snap(p.x), Snap(p.y))
  }

  /** Because the grid step is odd, an integer never lies halfway between two grid
      lines, so the ties-to-even rule of `round` never decides a result. */
  lemma NoTies(v: int)
    ensures 2 * (v % GRID) != GRID
  {
  }

  /** A multiple of the grid step within 7 of `v` is the snapped value: the snap
      result is the unique grid line within half a step. */
  lemma {:induction false} SnapUnique(v: int, m: int)
    requires m % GRID == 0
    requires -7 <= m - v <= 7
    ensures Snap(v) == m
  {
    var s := Snap(v);
    var k, j := s / GRID, m / GRID;
    assert s == k * GRID && m == j * GRID;
    assert -14 <= (k - j) * GRID <= 14;
    assert k == j;
  }

  /** No grid line is closer to `v` than `Snap(v)`. */
  lemma SnapNearest(v: int, m: int)
    requires m % GRID == 0
    ensures Dist(Snap(v), v) <= Dist(m, v)
  {
    if Dist(m, v) <= 7 {
      SnapUnique(v, m);
    }
  }

  function Dist(a: int, b: int): nat {
    if a >= b then a - b else b - a
  }

  /** Snapping a grid-aligned value returns it unchanged, hence snapping is idempotent. */
  lemma SnapIdempotent(v: int)
    ensures v % GRID == 0 ==> Snap(v) == v
    ensures Snap(Snap(v)) == Snap(v)
  {
    if v % GRID == 0 {
      SnapUnique(v, v);
    }
    SnapUnique(Snap(v), Snap(v));
  }

  /** The snapped position never moves against the drag: snapping is monotone. */
  lemma SnapMonotone(a: int, b: int)
    requires a <= b
    ensures Snap(a) <= Snap(b)
  {
    var ka, kb := RoundDiv(a), RoundDiv(b);
    if ka > kb {
      assert ka * GRID - kb * GRID >= GRID;
      NoTies(a);
      NoTies(b);
    }
  }

  /** The drag path (7,7) -> (13,13) -> (16,16) shows at (0,0), (15,15), (15,15):
      7 is nearer to 0 than to 15. */
  lemma DragScenario()
    ensures SnapPoint(Point(7, 7)) == Point(0, 0)
    ensures SnapPoint(Point(13, 13)) == Point(15, 15)
    ensures SnapPoint(Point(16, 16)) == Point(15, 15)
    ensures SnapPoint(Point(-7, -8)) == Point(0, -15)
  {
  }
}
