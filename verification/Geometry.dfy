/** The lattice of internal/engine: points, directions, canonical edges and the four board shapes. */
module Geometry {
  import opened Wrappers

  /** Absolute clockwise order. NOMOVE, and every other direction value that is not valid, is `None` in a `Heading`. */
  datatype Direction = East | SouthEast | SouthWest | West | NorthWest | NorthEast

  type Heading = Option<Direction>

  /** A six-bit spoke mask is the set of the directions whose bits are set. */
  type Mask = set<Direction>

  const DIRECTIONS: seq<Direction> := [East, SouthEast, SouthWest, West, NorthWest, NorthEast]

  const FULL: Mask := {East, SouthEast, SouthWest, West, NorthWest, NorthEast}

  datatype Point = Point(q: int, r: int)

  datatype Edge = Edge(a: Point, b: Point)

  datatype Topology = Bounded | Toroidal

  datatype RulesMode = ModernRules | ClassicRules

  datatype Board = Board(width: int, height: int, topology: Topology, mode: RulesMode)

  function Opposite(d: Direction): Direction {
    match d
    case East => West
    case SouthEast => NorthWest
    case SouthWest => NorthEast
    case West => East
    case NorthWest => SouthEast
    case NorthEast => SouthWest
  }

  predicate PointLess(a: Point, b: Point) {
    a.q < b.q || (a.q == b.q && a.r < b.r)
  }

  /** The canonical undirected edge: its end points in sorted order. */
  function NewEdge(a: Point, b: Point): Edge {
    if PointLess(b, a) then Edge(b, a) else Edge(a, b)
  }

  /** First coordinate of the board: historical boards count from 1. */
  function Origin(b: Board): int {
    if b.mode == ClassicRules then 1 else 0
  }

  predicate InBounds(b: Board, p: Point) {
    && Origin(b) <= p.q < Origin(b) + b.width
    && Origin(b) <= p.r < Origin(b) + b.height
  }

  /**
   * The coordinate on the board that x reaches by whole turns; see `WrapFormula` for the source's way to compute it.
   */
  function WrapCoordinate(x: int, origin: int, n: int): (y: int)
    ensures n > 0 ==> origin <= y < origin + n
    ensures n > 0 && origin - n <= x < origin + n + n ==>
              y == if x < origin then x + n else if x >= origin + n then x - n else x
    decreases if x < origin then origin - x + n else x - origin
  {
    if n <= 0 then x
    else if x < origin then WrapCoordinate(x + n, origin, n)
    else if x >= origin + n then WrapCoordinate(x - n, origin, n)
    else x
  }

  function Wrap(b: Board, p: Point): Point {
    Point(WrapCoordinate(p.q, Origin(b), b.width), WrapCoordinate(p.r, Origin(b), b.height))
  }

  function RowOffset(d: Direction): int {
    match d
    case East => 0
    case SouthEast => 1
    case SouthWest => 1
    case West => 0
    case NorthWest => -1
    case NorthEast => -1
  }

  function ColumnOffset(mode: RulesMode, odd: bool, d: Direction): int {
    match d
    case East => 1
    case West => -1
    case SouthEast => if mode == ClassicRules && odd then 1 else 0
    case SouthWest => if mode == ClassicRules && odd then 0 else -1
    case NorthWest => if mode == ClassicRules && !odd then -1 else 0
    case NorthEast => if mode == ClassicRules && !odd then 0 else 1
  }

  /** One step on the lattice: odd-row offsets on historical boards, axial offsets otherwise. */
  function Neighbor(b: Board, p: Point, d: Direction): Point {
    var q := Point(p.q + ColumnOffset(b.mode, p.r % 2 == 1, d), p.r + RowOffset(d));
    if b.topology == Toroidal then Wrap(b, q) else q
  }

  function EdgeFrom(b: Board, p: Point, d: Direction): Edge {
    NewEdge(p, Neighbor(b, p, d))
  }

  /** The boards on which six neighbours are six cells; bounded boards need only be non-empty. */
  predicate Regular(b: Board) {
    && b.width >= 1 && b.height >= 1
    && (b.topology == Toroidal ==>
          b.width >= 3 && b.height >= 3 && (b.mode == ClassicRules ==> b.height % 2 == 0))
  }

  // ----- laws

  /** The remainder operator of the source language, which truncates towards zero. */
  function Remainder(x: int, n: int): int
    requires n > 0
  {
    if x >= 0 then x % n else -((-x) % n)
  }

  /** Wrapping is the double remainder the source writes, for every coordinate, negative ones included. */
  lemma WrapFormula(x: int, origin: int, n: int)
    requires n > 0
    ensures WrapCoordinate(x, origin, n) == Remainder(Remainder(x - origin, n) + n, n) + origin
  {
    hide WrapCoordinate, Remainder;
    DoubleRemainder(x - origin, n);
    WrapIsModulo(x, origin, n);
  }

  /** The Euclidean remainder, named so that proofs about wrapping stay linear. */
  function Modulo(x: int, n: int): int
    requires n > 0
  {
    x % n
  }

  lemma ModuloTurns(x: int, n: int)
    requires n > 0
    ensures Modulo(x + n, n) == Modulo(x, n)
    ensures 0 <= x < n ==> Modulo(x, n) == x
  {
    AddTurn(x, n);
    if 0 <= x < n { ModUnique(x, n, 0, x); }
  }

  lemma {:induction false} WrapIsModulo(x: int, origin: int, n: int)
    requires n > 0
    ensures WrapCoordinate(x, origin, n) == Modulo(x - origin, n) + origin
    decreases if x < origin then origin - x + n else x - origin
  {
    hide Modulo;
    ModuloTurns(x - origin, n);
    if x < origin {
      WrapIsModulo(x + n, origin, n);
      assert x + n - origin == x - origin + n;
    } else if x >= origin + n {
      WrapIsModulo(x - n, origin, n);
      ModuloTurns(x - n - origin, n);
      assert x - n - origin + n == x - origin;
    }
  }

  lemma DoubleRemainder(x: int, n: int)
    requires n > 0
    ensures Remainder(Remainder(x, n) + n, n) == x % n
  {
    var m := x % n;
    if x >= 0 {
      ModUnique(m + n, n, 1, m);
    } else {
      var k := (-x) % n;
      var q := (-x) / n;
      if k == 0 {
        ModUnique(n, n, 1, 0);
        ModUnique(x, n, -q, 0);
      } else {
        ModUnique(n - k, n, 0, n - k);
        assert (-q - 1) * n == -q * n - n;
        ModUnique(x, n, -q - 1, n - k);
      }
    }
  }

  lemma AddTurn(x: int, n: int)
    requires n > 0
    ensures (x + n) % n == x % n
  {
    var q := x / n;
    assert (q + 1) * n == q * n + n;
    ModUnique(x + n, n, q + 1, x % n);
  }

  lemma ModUnique(x: int, n: int, q: int, m: int)
    requires n > 0 && 0 <= m < n && x == q * n + m
    ensures x % n == m
  {
    var d := x / n - q;
    assert d * n == m - x % n;
    assert d >= 1 ==> d * n >= n;
    assert d <= -1 ==> d * n <= -n;
  }

  lemma EveryDirection(d: Direction)
    ensures d in FULL && d in DIRECTIONS
  {
    assert DIRECTIONS[0] == East && DIRECTIONS[1] == SouthEast && DIRECTIONS[2] == SouthWest;
    assert DIRECTIONS[3] == West && DIRECTIONS[4] == NorthWest && DIRECTIONS[5] == NorthEast;
  }

  lemma NeighborStaysOnTorus(b: Board, p: Point, d: Direction)
    requires b.topology == Toroidal && b.width >= 1 && b.height >= 1
    ensures InBounds(b, Neighbor(b, p, d))
  {
  }

  /** Stepping d and then opposite(d) returns to the start, across both seams of a torus too. */
  lemma Reciprocal(b: Board, p: Point, d: Direction)
    requires Regular(b) && InBounds(b, p)
    ensures Neighbor(b, Neighbor(b, p, d), Opposite(d)) == p
  {
  }

  /** The six neighbours of a cell are distinct, and none is the cell itself. */
  lemma NeighborsDistinct(b: Board, p: Point, d: Direction, e: Direction)
    requires Regular(b) && InBounds(b, p)
    ensures Neighbor(b, p, d) != p
    ensures Neighbor(b, p, d) == Neighbor(b, p, e) ==> d == e
  {
  }

  ghost predicate ReciprocalEverywhere(b: Board) {
    forall p, d :: InBounds(b, p) ==> Neighbor(b, Neighbor(b, p, d), Opposite(d)) == p
  }

  /** Exactly the even heights make a historical torus reciprocal: this is why `Validate` refuses the odd ones. */
  lemma EvenHeightIsNecessary(b: Board)
    requires b.topology == Toroidal && b.mode == ClassicRules && b.width >= 3 && b.height >= 3
    ensures ReciprocalEverywhere(b) <==> b.height % 2 == 0
  {
    if b.height % 2 == 0 {
      forall p, d | InBounds(b, p) ensures Neighbor(b, Neighbor(b, p, d), Opposite(d)) == p {
        Reciprocal(b, p, d);
      }
    } else {
      var p := Point(1, b.height);
      assert Neighbor(b, p, SouthEast) == Point(2, 1);
      assert Neighbor(b, Point(2, 1), NorthWest) == Point(2, b.height);
      assert InBounds(b, p) && Neighbor(b, Neighbor(b, p, SouthEast), Opposite(SouthEast)) != p;
    }
  }

  lemma EdgeEnds(a: Point, b: Point, x: Point, y: Point)
    ensures NewEdge(a, b) == NewEdge(x, y) <==> (a == x && b == y) || (a == y && b == x)
  {
  }

  /** An edge is seen from exactly two half-edges: its own and the reciprocal one. */
  lemma SameEdge(b: Board, p: Point, d: Direction, p': Point, d': Direction)
    requires Regular(b) && InBounds(b, p) && InBounds(b, p')
    ensures EdgeFrom(b, p', d') == EdgeFrom(b, p, d) <==>
            (p' == p && d' == d) || (p' == Neighbor(b, p, d) && d' == Opposite(d))
  {
    var n, n' := Neighbor(b, p, d), Neighbor(b, p', d');
    EdgeEnds(p', n', p, n);
    assert Neighbor(b, n, Opposite(d)) == p by { Reciprocal(b, p, d); }
    assert n != p by { NeighborsDistinct(b, p, d, d); }
    assert p' == p ==> (n' == n <==> d' == d) by { NeighborsDistinct(b, p', d', d); }
    assert p' == n ==> (n' == p <==> d' == Opposite(d)) by { NeighborsDistinct(b, p', d', Opposite(d)); }
  }
}
