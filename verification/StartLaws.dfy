/** What a new game looks like, how a controller is installed, and which states pass `Validate`, spelled out. */
module StartLaws {
  import opened Geometry
  import opened Identifiers
  import opened Engine
  import opened Masks
  import opened Ledger
  import opened StartPositions
  import opened StateValidation
  import opened HalfEdges
  import opened Wrappers

  // ----- masks

  /** The bits of a mask, clockwise from East, are worth 1, 2, 4, 8, 16 and 32. */
  lemma BitsInClockOrder()
    ensures NumberOf({East}) == 1 && NumberOf({SouthEast}) == 2 && NumberOf({SouthWest}) == 4
    ensures NumberOf({West}) == 8 && NumberOf({NorthWest}) == 16 && NumberOf({NorthEast}) == 32
    ensures NumberOf({East, West, NorthEast}) == 41 && MaskOf(41) == {East, West, NorthEast}
  {
    MaskOfNumber({East, West, NorthEast});
  }

  // ----- controllers

  /** One direction is free, and no other. */
  ghost predicate OnlyFree(m: Mask, d: Direction) {
    forall e: Direction :: e in m <==> e != d
  }

  ghost predicate Closed(m: Mask) {
    forall e: Direction :: e in m
  }

  /** The only action for a mask with one free direction, and for the mask without any. */
  ghost predicate ForcedEntries(rules: map<Mask, Action>) {
    && (forall m: Mask, d: Direction :: OnlyFree(m, d) ==> m in rules && rules[m] == Go(d))
    && forall m: Mask :: Closed(m) ==> m in rules && rules[m] == Die
  }

  /** At least two directions are free. */
  ghost predicate Open(m: Mask) {
    exists d: Direction, e: Direction :: d != e && d !in m && e !in m
  }

  lemma FullHasAll(m: Mask)
    ensures Closed(m) <==> m == FULL
  {
    forall d: Direction ensures d in FULL { EveryDirection(d); }
    if Closed(m) { assert m == FULL; }
  }

  lemma AllButOne(m: Mask, d: Direction)
    ensures OnlyFree(m, d) <==> m == FULL - {d}
  {
    forall e: Direction ensures e in FULL { EveryDirection(e); }
    if OnlyFree(m, d) { assert m == FULL - {d}; }
  }

  lemma OpenMeans(m: Mask)
    ensures Open(m) <==> m != FULL && !SingleExit(m)
  {
    FullHasAll(m);
    if m != FULL && !SingleExit(m) {
      var d: Direction :| d !in m;
      AllButOne(m, d);
      var e: Direction :| !(e in m <==> e != d);
      assert e != d && e !in m;
    }
    if Open(m) {
      var d: Direction, e: Direction :| d != e && d !in m && e !in m;
      forall x: Direction ensures m != FULL - {x} { AllButOne(m, x); }
    }
  }

  /**
   * A new or automatic worm starts without a past: it is not frozen, has used nothing, and asks, or chooses, at every
   * cell with two free directions. A wild worm is frozen, with a free direction remembered for each such cell. A worm
   * that plays on, or sleeps, keeps its table there. All forget where they came from, and all but the sleeping ones
   * are alive.
   */
  lemma ControllersStart(w: Worm, kind: ControllerKind, seed: nat)
    ensures var v := Configured(w, kind, seed);
      && v == w.(controller := kind, seed := seed, previous := None, crix := v.crix, alive := v.alive,
                 frozen := v.frozen, rules := v.rules, uses := v.uses)
      && v.alive == !kind.KindAsleep?
      && v.crix == (if w.previous == Some(East) && w.crix == Some(East) then None else w.crix)
      && ForcedEntries(v.rules)
      && (kind.KindNew? || kind.KindAuto? ==> !v.frozen && v.uses == map[])
      && (kind.KindWild? ==> v.frozen && v.uses == w.uses)
      && (!kind.KindNew? && !kind.KindAuto? && !kind.KindWild? ==> v.frozen == w.frozen && v.uses == w.uses)
      && forall m: Mask :: Open(m) ==>
           && (kind.KindNew? ==> m in v.rules && v.rules[m] == GetNew)
           && (kind.KindAuto? ==> m in v.rules && v.rules[m] == DoAI)
           && (kind.KindWild? ==> m in v.rules && v.rules[m].Go? && v.rules[m].dir !in m)
           && (!kind.KindNew? && !kind.KindAuto? && !kind.KindWild? ==>
                 (m in v.rules <==> m in w.rules) && (m in w.rules ==> v.rules[m] == w.rules[m]))
  {
    hide InitialTable, Open, SingleExit;
    InitialTableAt(w, kind, seed);
    forall m: Mask ensures Open(m) <==> m != FULL && !SingleExit(m) { OpenMeans(m); }
    ForcedIsForced(Configured(w, kind, seed).rules);
  }

  lemma ForcedIsForced(rules: map<Mask, Action>)
    requires Forced(rules)
    ensures ForcedEntries(rules)
  {
    hide OnlyFree, Closed;
    forall m: Mask, d: Direction | OnlyFree(m, d) ensures m in rules && rules[m] == Go(d) { AllButOne(m, d); }
    forall m: Mask | Closed(m) ensures m in rules && rules[m] == Die { FullHasAll(m); }
  }

  // ----- new games

  /** Every cell of a new game is there, blank and without an owner; nothing is drawn, nobody has moved or is asked. */
  lemma NewGamesAreBlank(b: Board, ws: seq<Worm>)
    ensures var c := FreshCore(b, ws);
      && c.board == b && c.worms == ws && c.tick == 0 && c.round == 0 && c.trails == map[]
      && c.activeSlot == -1 && c.pending == None && !c.over
      && (forall p :: p in c.territories <==> InBounds(b, p))
      && forall p :: p in c.territories ==>
           c.territories[p].mask == {} && c.territories[p].owner == NOBODY && c.territories[p].color == NOBODY
  {
    forall p ensures p in FreshCore(b, ws).territories <==> InBounds(b, p) { CellsAreInBounds(b, p); }
  }

  /** The first four worms by name. */
  lemma NewWormsAreNamed(p: Point)
    ensures NewWorm(0, p).id.text == "worm-0" && NewWorm(1, p).id.text == "worm-1"
    ensures NewWorm(2, p).id.text == "worm-2" && NewWorm(3, p).id.text == "worm-3"
    ensures forall i: nat :: i < 4 ==>
              var w := NewWorm(i, p);
              && w.color == NOBODY && w.position == p && w.alive && w.score == 0 && w.crix == None && w.previous == None
              && w.rules == map[] && w.uses == map[] && !w.frozen
  {
  }

  /** A historical board is 18 by 18, also where its size is left open; a modern one needs a cell for each worm. */
  lemma BoardsAccepted(cfg: BoardConfig)
    ensures cfg.mode.ClassicRules? ==>
              (BoardAccepted(cfg) <==> 0 < cfg.participants < 5 && (cfg.width == 0 || cfg.width == 18)
                                       && (cfg.height == 0 || cfg.height == 18))
    ensures cfg.mode.ModernRules? ==>
              (BoardAccepted(cfg) <==> 0 < cfg.participants < 5 && cfg.width > 0 && cfg.height > 0
                                       && cfg.width * cfg.height >= cfg.participants)
    ensures HISTORICAL == Board(18, 18, Toroidal, ClassicRules) && CENTRE == Point(9, 9)
  {
  }

  // ----- what `Validate` accepts

  /** What a table holds for a mask; the source's zero is East. */
  ghost function Held(w: Worm, m: Mask): Action {
    if m in w.rules then w.rules[m] else Go(East)
  }

  /** A table of nothing but East, or one whose directions are free and whose forced entries are right. */
  ghost predicate Playable(w: Worm) {
    || (forall m: Mask :: Held(w, m) == Go(East))
    || (&& (forall m: Mask :: !Held(w, m).Malformed? && (Held(w, m).Go? ==> Held(w, m).dir !in m))
        && (forall m: Mask, d: Direction :: OnlyFree(m, d) ==> Held(w, m) == Go(d))
        && forall m: Mask :: Closed(m) ==> Held(w, m) == Die)
  }

  lemma AcceptedIsPlayable(w: Worm)
    ensures TableAccepted(w) <==> Playable(w)
  {
    hide OnlyFree, Closed;
    forall m: Mask ensures RuleAt(w, m) == Held(w, m) && (Closed(m) <==> m == FULL) { FullHasAll(m); }
    forall m: Mask, d: Direction ensures OnlyFree(m, d) <==> m == FULL - {d} { AllButOne(m, d); }
  }

  /** What `Validate` accepts, in full. */
  lemma ValidSpelledOut(c: Core)
    ensures Valid(c) <==>
              && c.board.width >= 1 && c.board.height >= 1
              && (c.board.mode == ClassicRules && c.board.topology == Toroidal ==> c.board.height % 2 == 0)
              && |c.worms| <= 4
              && (forall i, j :: 0 <= i < j < |c.worms| ==>
                    && c.worms[i].id != c.worms[j].id
                    && (c.board.mode == ModernRules && c.worms[i].alive && c.worms[j].alive ==>
                          c.worms[i].position != c.worms[j].position))
              && (forall i :: 0 <= i < |c.worms| ==>
                    var w := c.worms[i];
                    && ValidId(w.id) && w.score >= 0 && (w.alive ==> InBounds(c.board, w.position)) && Playable(w)
                    && w.score == |set p | p in c.territories && c.territories[p].mask == FULL
                                           && c.territories[p].owner == w.id|)
              && (forall p :: p in c.territories && c.territories[p].mask == FULL ==>
                    c.territories[p].owner != NOBODY
                    && exists i :: 0 <= i < |c.worms| && c.worms[i].id == c.territories[p].owner)
              && (forall e :: e in c.trails ==>
                    && e.a != e.b && InBounds(c.board, e.a) && InBounds(c.board, e.b)
                    && (exists d :: EdgeFrom(c.board, e.a, d) == e) && exists d :: EdgeFrom(c.board, e.b, d) == e)
  {
    hide Playable, TableAccepted, ValidId, InBounds, NewEdge, Neighbor;
    forall i | 0 <= i < |c.worms| ensures TableAccepted(c.worms[i]) <==> Playable(c.worms[i]) {
      AcceptedIsPlayable(c.worms[i]);
    }
    forall id ensures CompleteCells(c.territories, id)
        == set p | p in c.territories && c.territories[p].mask == FULL && c.territories[p].owner == id {}
  }

  // ----- inserted trails

  /**
   * A trail is inserted between two cells of the board that some direction joins and no trail does. Only the trail and
   * the two masks are new: they gain what is drawn at the cells, and nobody owns, scores or colours anything for it.
   */
  lemma InsertionsShow(c: Core, a: Point, b: Point, owner: Id)
    ensures Insertable(c, a, b) <==>
              && a != b && InBounds(c.board, a) && InBounds(c.board, b) && NewEdge(a, b) !in c.trails
              && exists d :: EdgeFrom(c.board, a, d) == NewEdge(a, b)
    ensures var c' := Inserted(c, a, b, owner);
      && c' == c.(trails := c.trails[NewEdge(a, b) := owner], territories := c'.territories)
      && (forall p :: p != a && p != b ==> CellAt(c'.territories, p) == CellAt(c.territories, p))
      && forall p :: p == a || p == b ==>
           var t, t' := CellAt(c.territories, p), CellAt(c'.territories, p);
           && t'.owner == t.owner && t'.color == t.color
           && forall d: Direction :: d in t'.mask <==> d in t.mask || EdgeFrom(c.board, p, d) in c'.trails
  {
    hide NewEdge, Neighbor, InBounds;
    forall d: Direction ensures d in FULL { EveryDirection(d); }
  }
}
