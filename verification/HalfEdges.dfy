/** Counting edges by their two half-edges. */
module HalfEdges {
  import opened Geometry

  datatype HalfEdge = HalfEdge(cell: Point, dir: Direction)

  ghost function Cells(b: Board): set<Point> {
    Block(Origin(b), b.width, b.height)
  }

  ghost function Block(o: int, w: int, h: int): set<Point> {
    set q, r | o <= q < o + w && o <= r < o + h :: Point(q, r)
  }

  /** An edge both ends of which are cells of the board, one step apart, in canonical order. */
  ghost predicate OnBoard(b: Board, e: Edge) {
    && InBounds(b, e.a) && InBounds(b, e.b)
    && e == NewEdge(e.a, e.b)
    && exists d :: Neighbor(b, e.a, d) == e.b
  }

  ghost predicate AllOnBoard(b: Board, es: set<Edge>) {
    forall e :: e in es ==> OnBoard(b, e)
  }

  /** The half-edges from which the edges of es are seen. */
  ghost function Halves(b: Board, es: set<Edge>): set<HalfEdge> {
    set p, d | p in Cells(b) && d in FULL && EdgeFrom(b, p, d) in es :: HalfEdge(p, d)
  }

  ghost function EveryHalf(b: Board): set<HalfEdge> {
    set p, d | p in Cells(b) && d in FULL :: HalfEdge(p, d)
  }

  ghost function EveryEdge(b: Board): set<Edge> {
    set p, d | p in Cells(b) && d in FULL :: EdgeFrom(b, p, d)
  }

  lemma CellsAreInBounds(b: Board, p: Point)
    ensures p in Cells(b) <==> InBounds(b, p)
  {
    assert p == Point(p.q, p.r);
  }

  /** Every set of board edges has exactly twice as many half-edges. */
  lemma {:induction false} HalfEdgePairing(b: Board, es: set<Edge>)
    requires Regular(b) && AllOnBoard(b, es)
    ensures |Halves(b, es)| == 2 * |es|
    decreases |es|
  {
    if es == {} {
      assert Halves(b, es) == {};
    } else {
      var e :| e in es;
      var rest := es - {e};
      HalfEdgePairing(b, rest);
      var d :| Neighbor(b, e.a, d) == e.b;
      HalvesOfEdge(b, e.a, d);
      assert EdgeFrom(b, e.a, d) == e;
      var pair := {HalfEdge(e.a, d), HalfEdge(e.b, Opposite(d))};
      assert Halves(b, {e}) == pair && |pair| == 2 by { NeighborsDistinct(b, e.a, d, d); }
      assert Halves(b, es) == Halves(b, rest) + pair;
      assert Halves(b, rest) !! pair;
    }
  }

  lemma HalvesOfEdge(b: Board, p: Point, d: Direction)
    requires Regular(b) && InBounds(b, p) && InBounds(b, Neighbor(b, p, d))
    ensures Halves(b, {EdgeFrom(b, p, d)}) == {HalfEdge(p, d), HalfEdge(Neighbor(b, p, d), Opposite(d))}
  {
    var pair := {HalfEdge(p, d), HalfEdge(Neighbor(b, p, d), Opposite(d))};
    forall h: HalfEdge ensures h in Halves(b, {EdgeFrom(b, p, d)}) <==> h in pair {
      HalfOfEdge(b, p, d, h);
    }
  }

  lemma HalfOfEdge(b: Board, p: Point, d: Direction, h: HalfEdge)
    requires Regular(b) && InBounds(b, p) && InBounds(b, Neighbor(b, p, d))
    ensures h in Halves(b, {EdgeFrom(b, p, d)}) <==>
            h == HalfEdge(p, d) || h == HalfEdge(Neighbor(b, p, d), Opposite(d))
  {
    CellsAreInBounds(b, h.cell);
    EveryDirection(h.dir);
    if InBounds(b, h.cell) {
      SameEdge(b, p, d, h.cell, h.dir);
    }
  }

  lemma {:induction false} BlockSize(o: int, w: nat, h: nat)
    ensures |Block(o, w, h)| == w * h
    decreases h
  {
    if h == 0 {
      assert Block(o, w, 0) == {};
    } else {
      BlockSize(o, w, h - 1);
      RowSize(o, w, o + h - 1);
      assert Block(o, w, h) == Block(o, w, h - 1) + Row(o, w, o + h - 1) by {
        forall p ensures p in Block(o, w, h) <==> p in Block(o, w, h - 1) + Row(o, w, o + h - 1) {
          assert p == Point(p.q, p.r);
        }
      }
      assert Block(o, w, h - 1) !! Row(o, w, o + h - 1);
      assert w * h == w * (h - 1) + w;
    }
  }

  ghost function Row(o: int, w: int, r: int): set<Point> {
    set q | o <= q < o + w :: Point(q, r)
  }

  lemma {:induction false} RowSize(o: int, w: nat, r: int)
    ensures |Row(o, w, r)| == w
    decreases w
  {
    if w == 0 {
      assert Row(o, w, r) == {};
    } else {
      RowSize(o, w - 1, r);
      assert Row(o, w, r) == Row(o, w - 1, r) + {Point(o + w - 1, r)};
    }
  }

  /** Each cell has six half-edges. */
  lemma {:induction false} SixPerCell(cells: set<Point>)
    ensures |set p, d | p in cells && d in FULL :: HalfEdge(p, d)| == 6 * |cells|
    decreases |cells|
  {
    var all := set p, d | p in cells && d in FULL :: HalfEdge(p, d);
    if cells == {} {
      assert all == {};
    } else {
      var c :| c in cells;
      SixPerCell(cells - {c});
      var rest := set p, d | p in cells - {c} && d in FULL :: HalfEdge(p, d);
      var six := {HalfEdge(c, East), HalfEdge(c, SouthEast), HalfEdge(c, SouthWest),
                  HalfEdge(c, West), HalfEdge(c, NorthWest), HalfEdge(c, NorthEast)};
      assert |six| == 6;
      forall h: HalfEdge ensures h in all <==> h in rest + six { EveryDirection(h.dir); }
      assert all == rest + six;
      assert rest !! six;
    }
  }

  lemma EveryHalfCount(b: Board)
    requires b.width >= 0 && b.height >= 0
    ensures |Cells(b)| == b.width * b.height
    ensures |EveryHalf(b)| == 6 * (b.width * b.height)
  {
    BlockSize(Origin(b), b.width, b.height);
    SixPerCell(Cells(b));
  }

  /** A torus has exactly three edges per cell. */
  lemma TorusEdgeCount(b: Board)
    requires Regular(b) && b.topology == Toroidal
    ensures |EveryEdge(b)| == 3 * (b.width * b.height)
    ensures AllOnBoard(b, EveryEdge(b))
  {
    forall e | e in EveryEdge(b) ensures OnBoard(b, e) {
      var p, d :| p in Cells(b) && d in FULL && EdgeFrom(b, p, d) == e;
      CellsAreInBounds(b, p);
      EdgeFromOnBoard(b, p, d);
    }
    HalfEdgePairing(b, EveryEdge(b));
    assert Halves(b, EveryEdge(b)) == EveryHalf(b);
    EveryHalfCount(b);
  }

  lemma EdgeFromOnBoard(b: Board, p: Point, d: Direction)
    requires Regular(b) && InBounds(b, p)
    requires b.topology == Toroidal || InBounds(b, Neighbor(b, p, d))
    ensures InBounds(b, Neighbor(b, p, d)) && OnBoard(b, EdgeFrom(b, p, d))
  {
    if b.topology == Toroidal { NeighborStaysOnTorus(b, p, d); }
    Reciprocal(b, p, d);
    var n := Neighbor(b, p, d);
    var e := EdgeFrom(b, p, d);
    if PointLess(n, p) {
      assert Neighbor(b, e.a, Opposite(d)) == e.b;
    } else {
      assert Neighbor(b, e.a, d) == e.b;
    }
  }

  /** No set of board edges is larger than three per cell. */
  lemma EdgeBound(b: Board, es: set<Edge>)
    requires Regular(b) && AllOnBoard(b, es)
    ensures |es| <= 3 * (b.width * b.height)
  {
    HalfEdgePairing(b, es);
    EveryHalfCount(b);
    SubsetSize(Halves(b, es), EveryHalf(b));
  }

  lemma {:induction false} SubsetSize<T>(a: set<T>, b: set<T>)
    requires a <= b
    ensures |a| <= |b|
    decreases |a|
  {
    if a == {} {
    } else {
      var x :| x in a;
      SubsetSize(a - {x}, b - {x});
    }
  }
}
