/** What every move keeps: cached masks, ownership, scores and the edge count agree with the trail set. */
module Ledger {
  import opened Geometry
  import opened HalfEdges
  import opened Engine
  import opened Wrappers

  ghost function Owned(cells: map<Point, Territory>, id: Id): set<Point> {
    set p | p in cells && cells[p].owner == id
  }

  /** The completed cells of an owner, as the checks that recount them look for them. */
  ghost function CompleteCells(cells: map<Point, Territory>, id: Id): set<Point> {
    set p | p in cells && cells[p].mask == FULL && cells[p].owner == id
  }

  ghost predicate MasksInSync(c: Core) {
    && c.territories.Keys == Cells(c.board)
    && forall p :: p in c.territories ==> c.territories[p].mask == SpokeMask(c, p)
  }

  ghost predicate OwnedWhenFull(c: Core) {
    forall p :: p in c.territories ==> (c.territories[p].owner != NOBODY <==> c.territories[p].mask == FULL)
  }

  ghost predicate OwnersAreWorms(c: Core) {
    forall p :: p in c.territories && c.territories[p].owner != NOBODY ==>
        WormIndex(c.worms, c.territories[p].owner) >= 0
  }

  ghost predicate ScoresCountCells(c: Core) {
    forall i :: 0 <= i < |c.worms| ==> c.worms[i].score == |Owned(c.territories, c.worms[i].id)|
  }

  ghost predicate WormsPlaced(c: Core) {
    && UniqueIds(c.worms)
    && forall i :: 0 <= i < |c.worms| ==>
         c.worms[i].id != NOBODY && (c.worms[i].alive ==> InBounds(c.board, c.worms[i].position))
  }

  /** The invariant of a game on a regular board. */
  ghost predicate Sound(c: Core) {
    && Regular(c.board)
    && AllOnBoard(c.board, c.trails.Keys)
    && MasksInSync(c) && OwnedWhenFull(c) && OwnersAreWorms(c) && ScoresCountCells(c)
    && WormsPlaced(c)
  }

  /** What `Step` has checked when it lets worm i move in direction d. */
  ghost predicate CanMove(c: Core, i: nat, d: Direction) {
    && i < |c.worms| && c.worms[i].alive
    && d !in MaskAt(c, c.worms[i].position)
    && InBounds(c.board, Neighbor(c.board, c.worms[i].position, d))
  }

  // ----- one move on a sound board

  ghost function Target(c: Core, i: nat, d: Direction): Point
    requires i < |c.worms|
  {
    Neighbor(c.board, c.worms[i].position, d)
  }

  /** A cell after a worm has drawn one more spoke at it. */
  ghost function Drawn(t: Territory, d: Direction, id: Id, color: Color): Territory {
    if t.mask + {d} == FULL then Territory(FULL, color, id) else Territory(t.mask + {d}, color, NOBODY)
  }

  ghost function Gain(t: Territory, d: Direction): int {
    if t.mask + {d} == FULL then 1 else 0
  }

  /** A new trail adds one spoke at each end and none elsewhere. */
  lemma SpokesAfterTrail(b: Board, trails: map<Edge, Id>, from: Point, d: Direction, id: Id, p: Point)
    requires Regular(b) && InBounds(b, from) && InBounds(b, p)
    ensures Spokes(b, trails[EdgeFrom(b, from, d) := id], p) ==
            Spokes(b, trails, p) + (if p == from then {d} else {})
            + (if p == Neighbor(b, from, d) then {Opposite(d)} else {})
  {
    forall e: Direction
      ensures e in Spokes(b, trails[EdgeFrom(b, from, d) := id], p) <==>
              e in Spokes(b, trails, p) || (p == from && e == d) || (p == Neighbor(b, from, d) && e == Opposite(d))
    {
      EveryDirection(e);
      SameEdge(b, from, d, p, e);
    }
  }

  /** What a sound game says about the two cells of a move. */
  lemma MoveSite(c: Core, i: nat, d: Direction)
    requires Sound(c) && CanMove(c, i, d)
    ensures var from := c.worms[i].position; var to := Target(c, i, d);
      && from != to && from in c.territories && to in c.territories
      && InBounds(c.board, from) && InBounds(c.board, to)
      && EdgeFrom(c.board, from, d) !in c.trails
      && d !in c.territories[from].mask && Opposite(d) !in c.territories[to].mask
      && c.territories[from].owner == NOBODY && c.territories[to].owner == NOBODY
  {
    var from := c.worms[i].position;
    var to := Target(c, i, d);
    CellsAreInBounds(c.board, from);
    CellsAreInBounds(c.board, to);
    NeighborsDistinct(c.board, from, d, d);
    FreeSpokeAtOtherEnd(c, from, d);
    EveryDirection(d);
    EveryDirection(Opposite(d));
  }

  /** Both ends of the move are unowned cells, to be settled with exactly one more spoke. */
  ghost predicate AtSite(c: Core, i: nat, d: Direction) {
    && i < |c.worms|
    && var w := c.worms[i]; var from := w.position; var to := Target(c, i, d);
    && from in c.territories && to in c.territories && from != to
    && c.territories[from].owner == NOBODY && c.territories[to].owner == NOBODY
    && var trails := c.trails[NewEdge(from, to) := w.id];
    && Refreshed(c.board, trails, c.territories, from) == c.territories[from].mask + {d}
    && Refreshed(c.board, trails, c.territories, to) == c.territories[to].mask + {Opposite(d)}
  }

  lemma MoveMasks(c: Core, i: nat, d: Direction)
    requires Sound(c) && CanMove(c, i, d)
    ensures AtSite(c, i, d)
  {
    hide Neighbor, AllOnBoard, ScoresCountCells, OwnersAreWorms, OwnedWhenFull, WormsPlaced;
    var w := c.worms[i];
    MoveSite(c, i, d);
    SpokesAfterTrail(c.board, c.trails, w.position, d, w.id, w.position);
    SpokesAfterTrail(c.board, c.trails, w.position, d, w.id, Target(c, i, d));
  }

  lemma SettleDraws(t: Territory, d: Direction, id: Id, color: Color)
    requires t.owner == NOBODY
    ensures Settle(t, t.mask + {d}, id, color) == Drawn(t, d, id, color)
    ensures Points(t, t.mask + {d}) == Gain(t, d)
  {
  }

  ghost function MovedCells(c: Core, i: nat, d: Direction): map<Point, Territory>
    requires i < |c.worms|
  {
    var w := c.worms[i];
    c.territories[w.position := Drawn(CellAt(c.territories, w.position), d, w.id, TrailColor(w))]
                 [Target(c, i, d) := Drawn(CellAt(c.territories, Target(c, i, d)), Opposite(d), w.id, TrailColor(w))]
  }

  ghost function MovedWorm(c: Core, i: nat, d: Direction): Worm
    requires i < |c.worms|
  {
    var w := c.worms[i];
    var source, target := CellAt(c.territories, w.position), CellAt(c.territories, Target(c, i, d));
    var dies := target.mask + {Opposite(d)} == FULL;
    w.(position := Target(c, i, d), previous := Some(d), crix := if dies then None else Some(Opposite(d)),
       alive := w.alive && !dies, score := w.score + Gain(source, d) + Gain(target, Opposite(d)))
  }

  ghost function Moved(c: Core, i: nat, d: Direction): Core
    requires i < |c.worms|
  {
    c.(tick := c.tick + 1, trails := c.trails[EdgeFrom(c.board, c.worms[i].position, d) := c.worms[i].id],
       worms := c.worms[i := MovedWorm(c, i, d)], territories := MovedCells(c, i, d))
  }

  /** A move draws one trail and one spoke at each end, and moves one worm. */
  lemma MoveShape(c: Core, i: nat, d: Direction)
    requires AtSite(c, i, d)
    ensures Move(c, i, d).core == Moved(c, i, d)
  {
    hide Neighbor, SettleNews, Spokes, Settle, Points, Drawn, Gain;
    var w := c.worms[i];
    SettleDraws(c.territories[w.position], d, w.id, TrailColor(w));
    SettleDraws(c.territories[Target(c, i, d)], Opposite(d), w.id, TrailColor(w));
  }

  /** A spoke that is free at one end of an edge is free at the other. */
  lemma FreeSpokeAtOtherEnd(c: Core, from: Point, d: Direction)
    requires Regular(c.board) && MasksInSync(c)
    requires InBounds(c.board, from) && InBounds(c.board, Neighbor(c.board, from, d))
    requires d !in MaskAt(c, from)
    ensures EdgeFrom(c.board, from, d) !in c.trails
    ensures Opposite(d) !in MaskAt(c, Neighbor(c.board, from, d))
  {
    var to := Neighbor(c.board, from, d);
    CellsAreInBounds(c.board, from);
    CellsAreInBounds(c.board, to);
    EveryDirection(d);
    EveryDirection(Opposite(d));
    SameEdge(c.board, from, d, to, Opposite(d));
  }

  // ----- preservation

  lemma CellAfterMove(c: Core, i: nat, d: Direction, p: Point)
    requires i < |c.worms| && c.worms[i].id != NOBODY && p in c.territories
    ensures var t, t' := c.territories[p], MovedCells(c, i, d)[p];
      && (p == Target(c, i, d) ==> t' == Drawn(t, Opposite(d), c.worms[i].id, TrailColor(c.worms[i])))
      && (p == c.worms[i].position && p != Target(c, i, d) ==>
            t' == Drawn(t, d, c.worms[i].id, TrailColor(c.worms[i])))
      && (p != c.worms[i].position && p != Target(c, i, d) ==> t' == t)
  {
  }

  lemma MaskAfterMove(c: Core, i: nat, d: Direction, p: Point)
    requires Regular(c.board) && i < |c.worms| && c.worms[i].id != NOBODY
    requires InBounds(c.board, c.worms[i].position) && c.worms[i].position != Target(c, i, d)
    requires p in c.territories && InBounds(c.board, p) && c.territories[p].mask == SpokeMask(c, p)
    ensures p in MovedCells(c, i, d) && MovedCells(c, i, d)[p].mask == SpokeMask(Moved(c, i, d), p)
  {
    hide Neighbor, MovedWorm;
    CellAfterMove(c, i, d, p);
    SpokesAfterTrail(c.board, c.trails, c.worms[i].position, d, c.worms[i].id, p);
  }

  lemma MoveKeepsMasks(c: Core, i: nat, d: Direction)
    requires Sound(c) && CanMove(c, i, d)
    ensures MasksInSync(Moved(c, i, d))
  {
    MoveSite(c, i, d);
    assert MovedCells(c, i, d).Keys == c.territories.Keys;
    forall p | p in c.territories
      ensures p in MovedCells(c, i, d) && MovedCells(c, i, d)[p].mask == SpokeMask(Moved(c, i, d), p)
    {
      CellsAreInBounds(c.board, p);
      MaskAfterMove(c, i, d, p);
    }
  }

  lemma MoveKeepsOwnership(c: Core, i: nat, d: Direction)
    requires Sound(c) && CanMove(c, i, d)
    ensures OwnedWhenFull(Moved(c, i, d)) && OwnersAreWorms(Moved(c, i, d))
  {
    MoveSite(c, i, d);
    IndexOfSlot(c.worms, i);
    SameIds(c.worms, Moved(c, i, d).worms);
    forall p | p in c.territories
      ensures var t := MovedCells(c, i, d)[p];
        && (t.owner != NOBODY <==> t.mask == FULL)
        && (t.owner != NOBODY ==> WormIndex(c.worms, t.owner) >= 0)
    {
      CellAfterMove(c, i, d, p);
    }
  }

  lemma MoveKeepsEdges(c: Core, i: nat, d: Direction)
    requires Sound(c) && CanMove(c, i, d)
    ensures AllOnBoard(c.board, Moved(c, i, d).trails.Keys)
  {
    MoveSite(c, i, d);
    EdgeFromOnBoard(c.board, c.worms[i].position, d);
  }

  /** Capturing grows the mover's cells by exactly the cells gained, and nobody else's. */
  lemma OwnedAfterMove(c: Core, i: nat, d: Direction, id: Id)
    requires Sound(c) && CanMove(c, i, d) && id != NOBODY
    ensures |Owned(MovedCells(c, i, d), id)| == |Owned(c.territories, id)| +
              if id == c.worms[i].id then MovedWorm(c, i, d).score - c.worms[i].score else 0
  {
    var w := c.worms[i];
    var from, to := w.position, Target(c, i, d);
    MoveSite(c, i, d);
    var f := Drawn(c.territories[from], d, w.id, TrailColor(w));
    OwnedAfterDrawing(c.territories, from, f, id);
    OwnedAfterDrawing(c.territories[from := f], to, Drawn(c.territories[to], Opposite(d), w.id, TrailColor(w)), id);
  }

  lemma OwnedAfterDrawing(cells: map<Point, Territory>, p: Point, t: Territory, id: Id)
    requires p in cells && cells[p].owner == NOBODY && id != NOBODY
    ensures |Owned(cells[p := t], id)| == |Owned(cells, id)| + if t.owner == id then 1 else 0
  {
    assert Owned(cells[p := t], id) == Owned(cells, id) + if t.owner == id then {p} else {};
  }

  lemma MoveKeepsScores(c: Core, i: nat, d: Direction)
    requires Sound(c) && CanMove(c, i, d)
    ensures ScoresCountCells(Moved(c, i, d))
  {
    forall j | 0 <= j < |c.worms|
      ensures var w := if j == i then MovedWorm(c, i, d) else c.worms[j];
        w.score == |Owned(MovedCells(c, i, d), w.id)|
    {
      OwnedAfterMove(c, i, d, c.worms[j].id);
    }
  }

  lemma MoveKeepsWorms(c: Core, i: nat, d: Direction)
    requires Sound(c) && CanMove(c, i, d)
    ensures WormsPlaced(Moved(c, i, d))
  {
    hide Neighbor, MaskAt, MasksInSync, OwnedWhenFull, OwnersAreWorms, ScoresCountCells, MovedCells;
  }

  lemma MoveKeepsSound(c: Core, i: nat, d: Direction)
    requires Sound(c) && CanMove(c, i, d)
    ensures Sound(Move(c, i, d).core)
  {
    MoveMasks(c, i, d);
    MoveShape(c, i, d);
    MoveKeepsMasks(c, i, d);
    MoveKeepsOwnership(c, i, d);
    MoveKeepsEdges(c, i, d);
    MoveKeepsScores(c, i, d);
    MoveKeepsWorms(c, i, d);
  }

  lemma SameIds(ws: seq<Worm>, ws': seq<Worm>)
    requires |ws| == |ws'| && forall j :: 0 <= j < |ws| ==> ws[j].id == ws'[j].id
    ensures forall id :: WormIndex(ws, id) == WormIndex(ws', id)
  {
    forall id ensures WormIndex(ws, id) == WormIndex(ws', id) {
      var a, b := WormIndex(ws, id), WormIndex(ws', id);
      assert a >= 0 ==> ws'[a].id == id;
      assert b >= 0 ==> ws[b].id == id;
    }
  }

  lemma StepKeepsSound(c: Core, id: Id, h: Heading)
    requires Sound(c) && Step(c, id, h).Ok?
    ensures Sound(Step(c, id, h).value.core)
  {
    MoveKeepsSound(c, WormIndex(c.worms, id), h.value);
  }

  /** Ownership of a captured cell is permanent, and each move makes one trail in one tick. */
  lemma StepIsPermanent(c: Core, id: Id, h: Heading)
    requires Sound(c) && Step(c, id, h).Ok?
    ensures var c' := Step(c, id, h).value.core;
      && c'.tick == c.tick + 1 && |c'.trails| == |c.trails| + 1 && c.trails.Keys < c'.trails.Keys
      && forall p :: p in c.territories && c.territories[p].owner != NOBODY ==>
           p in c'.territories && c'.territories[p] == c.territories[p]
  {
    var i := WormIndex(c.worms, id);
    MoveSite(c, i, h.value);
    MoveMasks(c, i, h.value);
    MoveShape(c, i, h.value);
    NewKey(c.trails, EdgeFrom(c.board, c.worms[i].position, h.value), c.worms[i].id);
    forall p | p in c.territories && c.territories[p].owner != NOBODY
      ensures MovedCells(c, i, h.value)[p] == c.territories[p]
    {
      CellAfterMove(c, i, h.value, p);
    }
  }

  lemma NewKey<K, V>(m: map<K, V>, k: K, v: V)
    requires k !in m
    ensures |m[k := v]| == |m| + 1 && m.Keys < m[k := v].Keys
  {
    assert m[k := v].Keys == m.Keys + {k};
  }

  // ----- totals

  ghost function SpokeTotal(c: Core, cells: set<Point>): nat {
    if cells == {} then 0 else var p := Pick(cells); |SpokeMask(c, p)| + SpokeTotal(c, cells - {p})
  }

  ghost function Pick<T>(s: set<T>): T
    requires s != {}
    ensures Pick(s) in s
  {
    var x :| x in s; x
  }

  ghost function HalvesAt(c: Core, cells: set<Point>): set<HalfEdge> {
    set p, d | p in cells && d in FULL && EdgeFrom(c.board, p, d) in c.trails.Keys :: HalfEdge(p, d)
  }

  lemma {:induction false} SpokesAreHalves(c: Core, cells: set<Point>)
    ensures SpokeTotal(c, cells) == |HalvesAt(c, cells)|
    decreases |cells|
  {
    if cells == {} {
      assert HalvesAt(c, cells) == {};
    } else {
      var p := Pick(cells);
      SpokesAreHalves(c, cells - {p});
      var here := set d | d in SpokeMask(c, p) :: HalfEdge(p, d);
      ImageSize(p, SpokeMask(c, p));
      assert HalvesAt(c, cells) == HalvesAt(c, cells - {p}) + here;
      assert HalvesAt(c, cells - {p}) !! here;
    }
  }

  lemma {:induction false} ImageSize(p: Point, m: Mask)
    ensures |set d | d in m :: HalfEdge(p, d)| == |m|
    decreases |m|
  {
    var image := set d | d in m :: HalfEdge(p, d);
    if m == {} {
      assert image == {};
    } else {
      var d := Pick(m);
      ImageSize(p, m - {d});
      assert image == (set e | e in m - {d} :: HalfEdge(p, e)) + {HalfEdge(p, d)};
    }
  }

  /** Over the whole board the spoke bits total twice the trails. */
  lemma SpokeBitsTotal(c: Core)
    requires Sound(c)
    ensures SpokeTotal(c, Cells(c.board)) == 2 * |c.trails|
  {
    SpokesAreHalves(c, Cells(c.board));
    assert HalvesAt(c, Cells(c.board)) == Halves(c.board, c.trails.Keys);
    HalfEdgePairing(c.board, c.trails.Keys);
    assert |c.trails| == |c.trails.Keys|;
  }

  ghost function ScoreTotal(ws: seq<Worm>): int {
    if ws == [] then 0 else ScoreTotal(ws[..|ws| - 1]) + ws[|ws| - 1].score
  }

  ghost function OwnedByAny(c: Core, k: nat): set<Point>
    requires k <= |c.worms|
  {
    set p | p in c.territories && exists i :: 0 <= i < k && c.worms[i].id == c.territories[p].owner
  }

  lemma {:induction false} ScoresAreCells(c: Core, k: nat)
    requires Sound(c) && k <= |c.worms|
    ensures ScoreTotal(c.worms[..k]) == |OwnedByAny(c, k)|
  {
    if k == 0 {
      assert OwnedByAny(c, 0) == {};
    } else {
      ScoresAreCells(c, k - 1);
      assert c.worms[..k][..k - 1] == c.worms[..k - 1];
      var mine := Owned(c.territories, c.worms[k - 1].id);
      DisjointOwners(c, k);
    }
  }

  lemma DisjointOwners(c: Core, k: nat)
    requires UniqueIds(c.worms) && 0 < k <= |c.worms|
    ensures OwnedByAny(c, k) == OwnedByAny(c, k - 1) + Owned(c.territories, c.worms[k - 1].id)
    ensures OwnedByAny(c, k - 1) !! Owned(c.territories, c.worms[k - 1].id)
  {
  }

  /** Three trails have been spent on every point scored. */
  lemma ScoresCostTrails(c: Core)
    requires Sound(c)
    ensures 0 <= ScoreTotal(c.worms) && 3 * ScoreTotal(c.worms) <= |c.trails| <= 3 * (c.board.width * c.board.height)
  {
    ScoresAreCells(c, |c.worms|);
    assert c.worms[..|c.worms|] == c.worms;
    var cells := OwnedByAny(c, |c.worms|);
    SixPerCell(cells);
    var six := set p, d | p in cells && d in FULL :: HalfEdge(p, d);
    forall h | h in six ensures h in Halves(c.board, c.trails.Keys) {
      assert c.territories[h.cell].owner != NOBODY;
      assert h.dir in SpokeMask(c, h.cell);
    }
    SubsetSize(six, Halves(c.board, c.trails.Keys));
    HalfEdgePairing(c.board, c.trails.Keys);
    EdgeBound(c.board, c.trails.Keys);
    assert |c.trails| == |c.trails.Keys|;
  }
}
