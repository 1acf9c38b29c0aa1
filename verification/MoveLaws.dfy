/** What `Step` does and refuses, read off the states before and after it. */
module MoveLaws {
  import opened Geometry
  import opened Engine
  import opened Wrappers

  /** The mover goes where the direction leads, marks the trail as its own, and nothing but its two cells changes. */
  lemma StepMovesOneWorm(c: Core, id: Id, h: Heading)
    requires Step(c, id, h).Ok?
    ensures h.Some? && exists i :: 0 <= i < |c.worms| && c.worms[i].id == id && c.worms[i].alive
                                   && (forall j :: 0 <= j < i ==> c.worms[j].id != id)
                                   && MovedAs(c, i, h.value, Step(c, id, h).value.core)
  {
    var i := WormIndex(c.worms, id);
    MoveDisplaces(c, i, h.value);
  }

  ghost predicate MovedAs(c: Core, i: nat, d: Direction, c': Core)
    requires i < |c.worms|
  {
    var w := c.worms[i];
    var from, to := w.position, Neighbor(c.board, w.position, d);
    && c' == c.(tick := c.tick + 1, trails := c'.trails, worms := c'.worms, territories := c'.territories)
    && c'.trails == c.trails[NewEdge(from, to) := w.id]
    && |c'.worms| == |c.worms| && (forall j :: 0 <= j < |c.worms| && j != i ==> c'.worms[j] == c.worms[j])
    && var w' := c'.worms[i];
    && w' == w.(position := to, previous := Some(d), crix := w'.crix, alive := w'.alive, score := w'.score)
    && w'.crix == (if EveryBit(CellAt(c'.territories, to).mask) then None else Some(Opposite(d)))
    && w'.alive == (w.alive && !EveryBit(CellAt(c'.territories, to).mask))
    && c'.territories.Keys == c.territories.Keys + {from, to}
    && forall p :: p in c.territories && p != from && p != to ==> c'.territories[p] == c.territories[p]
  }

  predicate EveryBit(m: Mask) {
    forall d: Direction :: d in m
  }

  lemma EveryBitIsFull(m: Mask)
    ensures EveryBit(m) <==> m == FULL
  {
    forall d: Direction ensures d in FULL { EveryDirection(d); }
    if EveryBit(m) { assert m == FULL; }
  }

  lemma MoveDisplaces(c: Core, i: nat, d: Direction)
    requires i < |c.worms|
    ensures MovedAs(c, i, d, Move(c, i, d).core)
  {
    hide Neighbor, NewEdge, SettleNews, Points, Spokes, EveryBit;
    var to := Neighbor(c.board, c.worms[i].position, d);
    var c' := Move(c, i, d).core;
    SettleKeepsMask();
    EveryBitIsFull(CellAt(c'.territories, to).mask);
  }

  lemma SettleKeepsMask()
    ensures forall t, m, id, color :: Settle(t, m, id, color).mask == m
  {
  }

  /** What a move makes of one of its two cells, for a mover whose trails have the given colour. */
  ghost predicate CellDrawn(c: Core, c': Core, id: Id, color: Color, p: Point) {
    var t, t' := CellAt(c.territories, p), CellAt(c'.territories, p);
    && t'.mask == t.mask + Spokes(c.board, c'.trails, p)
    && (t.owner != NOBODY ==> t'.owner == t.owner && t'.color == t.color)
    && (t.owner == NOBODY ==> t'.color == color && t'.owner == if EveryBit(t'.mask) then id else NOBODY)
  }

  /** The cell had no owner and has one now. */
  ghost predicate Won(c: Core, c': Core, p: Point) {
    CellAt(c.territories, p).owner == NOBODY && CellAt(c'.territories, p).owner != NOBODY
  }

  /** What is reported of one cell of a move. */
  ghost function NewsOf(c: Core, c': Core, id: Id, color: Color, p: Point): seq<Body> {
    var t' := CellAt(c'.territories, p);
    if Won(c, c', p) then [TerritoryCaptured(id, p, color, 1, FULL)]
    else if t'.owner == NOBODY then [TerritoryColorChanged(id, p, color, t'.mask)]
    else []
  }

  /**
   * Both cells take the mover's colour, its name where it has no colour, unless they have an owner; a cell whose six
   * spokes are drawn while nobody owns it is won; each cell won is worth one point; and the log reports, in this
   * order and with the new tick, the trail, the cell left, the cell entered, the move, and the death of a mover that
   * is closed in.
   */
  lemma StepSettlesTwoCells(c: Core, id: Id, h: Heading)
    requires Step(c, id, h).Ok? && id != NOBODY
    requires var w := c.worms[WormIndex(c.worms, id)]; Neighbor(c.board, w.position, h.value) != w.position
    ensures var w := c.worms[WormIndex(c.worms, id)];
      var from, to := w.position, Neighbor(c.board, w.position, h.value);
      var color := if w.color.text == "" then id else w.color;
      var r := Step(c, id, h).value; var c' := r.core; var w' := c'.worms[WormIndex(c.worms, id)];
      && CellDrawn(c, c', id, color, from) && CellDrawn(c, c', id, color, to)
      && w'.score == w.score + (if Won(c, c', from) then 1 else 0) + (if Won(c, c', to) then 1 else 0)
      && var bodies :=
           [TrailClaimed(id, from, to, NewEdge(from, to), color, CellAt(c'.territories, from).mask)]
           + NewsOf(c, c', id, color, from) + NewsOf(c, c', id, color, to)
           + [WormMoved(id, from, to, NewEdge(from, to), color)]
           + if EveryBit(CellAt(c'.territories, to).mask) then [WormDied(id, to)] else [];
      && |r.log| == |bodies|
      && forall k :: 0 <= k < |bodies| ==> r.log[k] == Draft(c.tick + 1, c.round, bodies[k])
  {
    hide Neighbor, NewEdge, Spokes, EveryBit;
    var i := WormIndex(c.worms, id);
    SettledCells(c, i, h.value);
  }

  lemma SettledCells(c: Core, i: nat, d: Direction)
    requires i < |c.worms| && c.worms[i].id != NOBODY
    requires Neighbor(c.board, c.worms[i].position, d) != c.worms[i].position
    ensures var w := c.worms[i]; var from, to := w.position, Neighbor(c.board, w.position, d);
      var color := if w.color.text == "" then w.id else w.color;
      var r := Move(c, i, d); var c' := r.core;
      && CellDrawn(c, c', w.id, color, from) && CellDrawn(c, c', w.id, color, to)
      && c'.worms[i].score == w.score + (if Won(c, c', from) then 1 else 0) + (if Won(c, c', to) then 1 else 0)
      && r.log == EmitAll(c.tick + 1, c.round,
           [TrailClaimed(w.id, from, to, NewEdge(from, to), color, CellAt(c'.territories, from).mask)]
           + NewsOf(c, c', w.id, color, from) + NewsOf(c, c', w.id, color, to)
           + [WormMoved(w.id, from, to, NewEdge(from, to), color)]
           + if EveryBit(CellAt(c'.territories, to).mask) then [WormDied(w.id, to)] else [])
  {
    hide Neighbor, NewEdge, Spokes, EveryBit;
    var w := c.worms[i];
    var from, to := w.position, Neighbor(c.board, w.position, d);
    var trails := c.trails[NewEdge(from, to) := w.id];
    var c' := Move(c, i, d).core;
    NamedColor(w);
    var s, t := CellAt(c.territories, from), CellAt(c.territories, to);
    var m, k := Refreshed(c.board, trails, c.territories, from), Refreshed(c.board, trails, c.territories, to);
    assert CellAt(c'.territories, from) == Settle(s, m, w.id, TrailColor(w));
    assert CellAt(c'.territories, to) == Settle(t, k, w.id, TrailColor(w));
    SettledCell(s, m, w.id, TrailColor(w), from);
    SettledCell(t, k, w.id, TrailColor(w), to);
    EveryBitIsFull(m);
    EveryBitIsFull(k);
  }

  lemma NamedColor(w: Worm)
    ensures TrailColor(w) == if w.color.text == "" then w.id else w.color
  {
    assert w.color == Name(w.color.text);
  }

  lemma SettledCell(t: Territory, m: Mask, id: Id, color: Color, p: Point)
    requires id != NOBODY
    ensures var t' := Settle(t, m, id, color); var won := t.owner == NOBODY && t'.owner != NOBODY;
      && t'.mask == m
      && (t.owner != NOBODY ==> t'.owner == t.owner && t'.color == t.color)
      && (t.owner == NOBODY ==> t'.color == color && t'.owner == if m == FULL then id else NOBODY)
      && Points(t, m) == (if won then 1 else 0)
      && SettleNews(t, m, id, color, p)
         == if won then [TerritoryCaptured(id, p, color, 1, FULL)]
            else if t'.owner == NOBODY then [TerritoryColorChanged(id, p, color, m)] else []
  {
  }

  /** A call is refused for the first of these reasons that applies, and otherwise accepted. */
  lemma StepRefusals(c: Core, id: Id, h: Heading)
    ensures var r := Step(c, id, h);
      if c.over then r == Err(Rejected(GameOver))
      else if forall i :: 0 <= i < |c.worms| ==> c.worms[i].id != id then r == Err(Rejected(UnknownWorm))
      else exists i :: Named(c.worms, id, i) && AnswersFor(c, i, h, r)
  {
    hide Move, Neighbor, NewEdge, InBounds;
    var i := WormIndex(c.worms, id);
    if i >= 0 {
      assert Named(c.worms, id, i);
      if h.Some? {
        SpokeIsTrail(c, c.worms[i].position, h.value);
      }
    }
  }

  /** The first worm of that name. */
  ghost predicate Named(ws: seq<Worm>, id: Id, i: int) {
    0 <= i < |ws| && ws[i].id == id && forall j :: 0 <= j < i ==> ws[j].id != id
  }

  ghost predicate AnswersFor(c: Core, i: int, h: Heading, r: Outcome<Done>)
    requires 0 <= i < |c.worms|
  {
    var from := c.worms[i].position;
    if !c.worms[i].alive then r == Err(Rejected(DeadWorm))
    else if h.None? then r == Err(Rejected(InvalidDirection))
    else
      var to := Neighbor(c.board, from, h.value);
      if EdgeFrom(c.board, from, h.value) in c.trails || h.value in CellAt(c.territories, from).mask
      then r == Err(Rejected(OccupiedSpoke))
      else if !InBounds(c.board, to) then r == Err(Rejected(OutOfBounds))
      else if c.board.mode == ModernRules
              && exists j :: 0 <= j < |c.worms| && c.worms[j].alive && c.worms[j].position == to
      then r == Err(Rejected(OccupiedDestination))
      else r.Ok?
  }

  lemma SpokeIsTrail(c: Core, p: Point, d: Direction)
    ensures d in MaskAt(c, p) <==> EdgeFrom(c.board, p, d) in c.trails || d in CellAt(c.territories, p).mask
  {
    EveryDirection(d);
  }
}
