/** Which way each direction leads: the six directions are the clockwise directions of the screen, East first. */
module Compass {
  import opened Geometry

  /**
   * Twice the horizontal place of a cell on the screen: odd historical rows, and axial rows, lie half a cell further.
   */
  function ScreenX(b: Board, p: Point): int {
    2 * p.q + if b.mode == ClassicRules then p.r % 2 else p.r
  }

  /** On a bounded board a step goes as far across and down the screen as its direction says. */
  lemma StepsAcrossTheScreen(b: Board, p: Point)
    requires b.topology == Bounded
    ensures var x := ScreenX(b, p);
      && (var e := Neighbor(b, p, East); ScreenX(b, e) == x + 2 && e.r == p.r)
      && (var e := Neighbor(b, p, SouthEast); ScreenX(b, e) == x + 1 && e.r == p.r + 1)
      && (var e := Neighbor(b, p, SouthWest); ScreenX(b, e) == x - 1 && e.r == p.r + 1)
      && (var e := Neighbor(b, p, West); ScreenX(b, e) == x - 2 && e.r == p.r)
      && (var e := Neighbor(b, p, NorthWest); ScreenX(b, e) == x - 1 && e.r == p.r - 1)
      && (var e := Neighbor(b, p, NorthEast); ScreenX(b, e) == x + 1 && e.r == p.r - 1)
  {
  }

  /** A torus is the bounded board with whole turns taken off: steps differ only where they cross a seam. */
  lemma SeamsOnlyWrap(b: Board, p: Point, d: Direction)
    requires b.topology == Toroidal && b.width >= 1 && b.height >= 1
    ensures var flat := Neighbor(b.(topology := Bounded), p, d); var to := Neighbor(b, p, d);
      && (to.q - flat.q) % b.width == 0 && (to.r - flat.r) % b.height == 0
      && InBounds(b, to) && (InBounds(b, flat) ==> to == flat)
  {
    var flat := Neighbor(b.(topology := Bounded), p, d);
    WrapTurns(flat.q, Origin(b), b.width);
    WrapTurns(flat.r, Origin(b), b.height);
  }

  lemma {:induction false} WrapTurns(x: int, origin: int, n: int)
    requires n > 0
    ensures (WrapCoordinate(x, origin, n) - x) % n == 0
    ensures origin <= x < origin + n ==> WrapCoordinate(x, origin, n) == x
  {
    WrapIsModulo(x, origin, n);
    var k := (x - origin) / n;
    assert WrapCoordinate(x, origin, n) - x == -k * n;
    ModUnique(-k * n, n, -k, 0);
  }

  /** The next direction clockwise. */
  function Clockwise(d: Direction): Direction {
    match d
    case East => SouthEast
    case SouthEast => SouthWest
    case SouthWest => West
    case West => NorthWest
    case NorthWest => NorthEast
    case NorthEast => East
  }

  /** The directions are tried and listed clockwise from East, and three of them turn a worm round. */
  lemma ListedClockwise()
    ensures |DIRECTIONS| == 6 && DIRECTIONS[0] == East
    ensures forall k :: 0 <= k < 5 ==> DIRECTIONS[k + 1] == Clockwise(DIRECTIONS[k])
    ensures forall d :: Opposite(d) == Clockwise(Clockwise(Clockwise(d)))
  {
  }

  /** On every regular board, seams included, a step is the step before it in clock order and then the one after it. */
  lemma TriangleOfSteps(b: Board, p: Point, d: Direction)
    requires Regular(b) && InBounds(b, p)
    ensures Neighbor(b, Neighbor(b, p, d), Clockwise(Clockwise(d))) == Neighbor(b, p, Clockwise(d))
  {
  }

  /** Historical boards count their cells from 1 and others from 0, in both coordinates. */
  lemma CornersOfTheBoard(b: Board, p: Point)
    ensures b.mode == ClassicRules ==> (InBounds(b, p) <==> 1 <= p.q <= b.width && 1 <= p.r <= b.height)
    ensures b.mode == ModernRules ==> (InBounds(b, p) <==> 0 <= p.q <= b.width - 1 && 0 <= p.r <= b.height - 1)
  {
  }

  /** The end that comes first, by column and then by row, is written first. */
  lemma EdgesAreSorted(p: Point, q: Point)
    ensures var e := NewEdge(p, q);
      && e.a.q <= e.b.q && (e.a.q == e.b.q ==> e.a.r <= e.b.r)
      && ((e.a == p && e.b == q) || (e.a == q && e.b == p))
  {
  }

  /** Six steps from the centre of the historical board, and the four that cross its seams at the far corner. */
  lemma HistoricalSteps()
    ensures var b := Board(18, 18, Toroidal, ClassicRules); var c := Point(9, 9); var f := Point(18, 18);
      && Neighbor(b, c, East) == Point(10, 9) && Neighbor(b, c, SouthEast) == Point(10, 10)
      && Neighbor(b, c, SouthWest) == Point(9, 10) && Neighbor(b, c, West) == Point(8, 9)
      && Neighbor(b, c, NorthWest) == Point(9, 8) && Neighbor(b, c, NorthEast) == Point(10, 8)
      && Neighbor(b, f, East) == Point(1, 18) && Neighbor(b, f, SouthEast) == Point(18, 1)
      && Neighbor(b, f, SouthWest) == Point(17, 1) && Neighbor(b, f, NorthEast) == Point(18, 17)
  {
  }
}
