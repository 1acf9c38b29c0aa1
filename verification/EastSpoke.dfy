/** What the extension's mask test, as written, does to a game: no worm leaves a cell whose East spoke is drawn. */
module EastSpoke {
  import opened Geometry
  import opened HalfEdges
  import opened Engine
  import opened Ledger
  import opened StartPositions
  import opened Variants
  import opened VariantMoves
  import opened VariantRounds
  import opened VariantRuns
  import opened VariantEnergy
  import opened Wrappers

  /** The moves listed are the intended ones where the East spoke is free, and none at all elsewhere. */
  lemma MovesAsWritten(v: Variant, id: Id)
    requires WormIndex(v.base.worms, id) >= 0 && v.base.worms[WormIndex(v.base.worms, id)].alive && HasEnergy(v, id)
    requires Fresh(v.base, v.base.worms[WormIndex(v.base.worms, id)].position)
    ensures var p := v.base.worms[WormIndex(v.base.worms, id)].position;
      forall d :: d in Moves(v, id) <==> Intended(v, p, d) && East !in MaskAt(v.base, p)
  {
    hide MaskAt, Intended, Passable, Fresh;
    var i := WormIndex(v.base.worms, id);
    var p := v.base.worms[i].position;
    forall d ensures d in Moves(v, id) <==> Intended(v, p, d) && East !in MaskAt(v.base, p) {
      WrittenRule(v, p, d);
      EveryDirection(d);
    }
  }

  /** Live worms stand on a regular board. */
  ghost predicate Standing(c: Core) {
    Regular(c.board) && forall i :: 0 <= i < |c.worms| && c.worms[i].alive ==> InBounds(c.board, c.worms[i].position)
  }

  lemma ExpiredStands(v: Variant)
    requires Standing(v.base)
    ensures Standing(Expired(v).base)
  {
    hide Expired;
    ExpiredFrame(v);
  }

  lemma DrawnTrailStays(v: Variant, i: nat, d: Direction)
    requires i < |v.base.worms| && HasEnergy(v, v.base.worms[i].id)
    requires EdgeFrom(v.base.board, v.base.worms[i].position, d) !in v.temporary
    ensures var e := EdgeFrom(v.base.board, v.base.worms[i].position, d);
      e in Completed(v, i, d, Move(v.base, i, d)).base.trails
  {
    hide Move, Neighbor, NewEdge, Drained, PlayEffect, Delta, Without, Played;
    PlayedEffect(v, i, d);
    var p := Played(v, i, d, Move(v.base, i, d));
    PlayTicks(v, i, p);
    PlayedTrails(v, i, d);
    WithoutFrame(p, Due(p));
  }

  lemma PlayedTrails(v: Variant, i: nat, d: Direction)
    requires i < |v.base.worms|
    ensures EdgeFrom(v.base.board, v.base.worms[i].position, d) in Played(v, i, d, Move(v.base, i, d)).base.trails
    ensures Played(v, i, d, Move(v.base, i, d)).base.board == v.base.board
    ensures Played(v, i, d, Move(v.base, i, d)).base.worms[i].position ==
            Neighbor(v.base.board, v.base.worms[i].position, d)
  {
    hide Neighbor, Move, Drained, CaptureWeight;
    var r := Move(v.base, i, d);
    var id := v.base.worms[i].id;
    MovePlace(v.base, i, d);
    DrainedPlace(Scored(v, r.core, id, r.log), i, id);
  }

  lemma MovePlace(c: Core, i: nat, d: Direction)
    requires i < |c.worms|
    ensures var c' := Move(c, i, d).core; var p := c.worms[i].position;
      && c'.board == c.board && c'.trails == c.trails[EdgeFrom(c.board, p, d) := c.worms[i].id]
      && c'.worms[i].position == Neighbor(c.board, p, d)
  {
    hide Neighbor, Settle, Refreshed, SettleNews, CellAt;
  }

  lemma DrainedPlace(v: Variant, i: nat, id: Id)
    requires i < |v.base.worms|
    ensures var w := Drained(v, i, id);
      w.base.trails == v.base.trails && w.base.board == v.base.board &&
      w.base.worms[i].position == v.base.worms[i].position
  {
  }

  lemma CompletedPosition(v: Variant, i: nat, d: Direction)
    requires i < |v.base.worms|
    ensures var w := Completed(v, i, d, Move(v.base, i, d));
      w.base.board == v.base.board && w.base.worms[i].position == Neighbor(v.base.board, v.base.worms[i].position, d)
  {
    hide Move, Neighbor, Played, Delta;
    PlayedTrails(v, i, d);
    ExpiredFrame(Played(v, i, d, Move(v.base, i, d)));
  }

  /** After a move to the West the mover stands on a cell whose East spoke is drawn: it has no legal move left. */
  lemma WestLeavesNoMove(v: Variant, id: Id)
    requires Standing(v.base) && Apply(v, id, Some(West)).result.Ok?
    ensures Moves(Apply(v, id, Some(West)).after, id) == []
  {
    hide Apply, Expired, Standing, Move, Completed, Neighbor, NewEdge, PlayEffect, LaterOf, MaskAt, Moves;
    var v1, w := Expired(v), Apply(v, id, Some(West)).after;
    ExpiredStands(v);
    ApplyUnfolds(v, id, Some(West));
    ApplyEffect(v, id, Some(West));
    var i := WormIndex(v1.base.worms, id);
    SameIndexAfter(v1, i, id, w);
    CompletedPosition(v1, i, West);
    DrawnTrailStays(v1, i, West);
    EastFromWest(v1, i, w.base);
    EastSpokeBlocks(w, id);
  }

  lemma SameIndexAfter(v: Variant, i: nat, id: Id, w: Variant)
    requires PlayEffect(v, i, w) && WormIndex(v.base.worms, id) == i
    ensures WormIndex(w.base.worms, id) == i
  {
    SameIds(v.base.worms, w.base.worms);
  }

  lemma EastFromWest(v: Variant, i: nat, c: Core)
    requires Standing(v.base) && i < |v.base.worms| && v.base.worms[i].alive && c.board == v.base.board
    requires EdgeFrom(c.board, v.base.worms[i].position, West) in c.trails
    ensures East in MaskAt(c, Neighbor(c.board, v.base.worms[i].position, West))
  {
    hide Neighbor;
    var p := v.base.worms[i].position;
    EdgeIsReciprocal(v.base.board, p);
    EveryDirection(East);
  }

  lemma EdgeIsReciprocal(b: Board, p: Point)
    requires Regular(b) && InBounds(b, p)
    ensures EdgeFrom(b, Neighbor(b, p, West), East) == EdgeFrom(b, p, West)
  {
    hide Neighbor;
    Reciprocal(b, p, West);
    EdgeEnds(Neighbor(b, p, West), p, p, Neighbor(b, p, West));
  }

  /** A live worm on such a cell is killed as blocked by its next turn, whatever its rules say. */
  lemma EastSpokeKills(v: Variant, slot: nat, n: nat)
    requires slot < |v.base.worms| && WormIndex(v.base.worms, v.base.worms[slot].id) == slot
    requires v.base.worms[slot].alive && East in MaskAt(v.base, v.base.worms[slot].position)
    ensures var w := v.base.worms[slot];
      ServeTurn(v, slot, n) == GoesOn(OnBase(v, Fall(v.base, slot)), [Emit(v.base, WormBlocked(w.id, w.position))])
  {
    hide MaskAt, Moves, PlayAutomatic, Follow;
    EastSpokeBlocks(v, v.base.worms[slot].id);
  }

  // ----- the shortest game that shows it

  /** One worm at the centre of the historical board, without terrain, expiry, energy or teams. */
  ghost function LoneGame(): Variant {
    NewGame(Setup(Terrain({}, {}, map[], map[]), 0, 0, map[]), FreshCore(HISTORICAL, [LONER]))
  }

  lemma LoneGameStarts()
    ensures Good(LoneGame()) && !LoneGame().base.over && LoneGame().temporary == map[]
    ensures LoneGame().base == FreshCore(HISTORICAL, [LONER]) && LoneGame().setup.limit == 0
  {
    hide Good, Sound;
    assert LONER.id != NOBODY by { assert |LONER.id.text| == 6; }
    FreshIsSound(HISTORICAL, [LONER]);
    NewGameIsGood(LoneGame().setup, FreshCore(HISTORICAL, [LONER]));
  }

  lemma LoneGameIsKept()
    ensures Books(LoneGame()) && Expired(LoneGame()) == LoneGame()
  {
    hide Sound, Tallied, NewGame, TeamsAgree;
    LoneGameStarts();
    assert Due(LoneGame()) == {};
  }

  /** Nothing is drawn yet, so the first move, to the West, is legal. */
  lemma LonerGoesWest()
    ensures var a := Apply(LoneGame(), LONER.id, Some(West));
      a.result.Ok? && a.after == Completed(LoneGame(), 0, West, Move(LoneGame().base, 0, West))
    ensures CanMove(LoneGame().base, 0, West) && LoneGame().base.worms == [LONER]
  {
    hide Kept, Without, Expired, Apply, Completed, Move, NewGame, Good;
    LoneGameStarts();
    LoneGameIsKept();
    var v := LoneGame();
    assert MaskAt(v.base, CENTRE) == {} by { FreshMask(CENTRE); }
    assert Neighbor(HISTORICAL, CENTRE, West) == Point(8, 9);
    assert Legal(v, LONER.id, Some(West)) by { LoneGameIsBare(); }
    BooksMeanStanding(v);
    AppliedExactly(v, LONER.id, Some(West));
    ApplyUnfolds(v, LONER.id, Some(West));
  }

  lemma BooksMeanStanding(v: Variant)
    requires Books(v)
    ensures Kept(v) && Standing(v.base)
  {
  }

  lemma LoneGameIsBare()
    ensures LoneGame().setup == Setup(Terrain({}, {}, map[], map[]), 0, 0, map[]) && LoneGame().energy == map[]
  {
  }

  lemma FreshMask(p: Point)
    ensures MaskAt(FreshCore(HISTORICAL, [LONER]), p) == {}
  {
  }

  /**
   * The shortest game that shows it: on the historical board a lone worm goes West from the centre. SouthEast is
   * free, the engine lists it, the intended rule allows it, but the rule as written lists nothing and the next turn
   * kills the worm.
   */
  lemma WestStrandsTheLoner(n: nat)
    ensures var v := Apply(LoneGame(), LONER.id, Some(West)).after; var p := Point(8, 9);
      && |v.base.worms| == 1 && v.base.worms[0].id == LONER.id && v.base.worms[0].alive && v.base.worms[0].position == p
      && Intended(v, p, SouthEast) && SouthEast in LegalMoves(v.base, LONER.id)
      && Moves(v, LONER.id) == []
      && ServeTurn(v, 0, n) == GoesOn(OnBase(v, Fall(v.base, 0)), [Emit(v.base, WormBlocked(LONER.id, p))])
  {
    hide Kept, Expired, Apply, Completed, Move, NewGame, Good, Books, Moves, MaskAt, Intended, ServeTurn;
    LoneGameIsKept();
    LonerGoesWest();
    var v0 := LoneGame();
    var v := Apply(v0, LONER.id, Some(West)).after;
    ApplyKeepsBooks(v0, LONER.id, Some(West));
    BooksMeanStanding(v0);
    WestLeavesNoMove(v0, LONER.id);
    LonerAfter();
    SouthEastIsFree(v);
    EastSpokeKills(v, 0, n);
  }

  lemma LonerAfter()
    ensures var v0 := LoneGame(); var v := Completed(v0, 0, West, Move(v0.base, 0, West));
      && v.base.board == HISTORICAL && v.temporary == map[] && v.setup == v0.setup
      && v.base.trails == map[EdgeFrom(HISTORICAL, CENTRE, West) := LONER.id]
      && |v.base.worms| == 1 && v.base.worms[0].id == LONER.id && v.base.worms[0].alive
      && v.base.worms[0].position == Point(8, 9)
  {
    hide Kept, Expired, Move, NewGame, Good, Books, Sound, NewEdge;
    LoneGameStarts();
    LoneGameIsKept();
    LoneGameIsBare();
    LonerGoesWest();
    var v0 := LoneGame();
    var r := Move(v0.base, 0, West);
    LoneMove();
    var p := Played(v0, 0, West, r);
    NothingDue(p);
  }

  lemma NothingDue(v: Variant)
    requires v.temporary == map[]
    ensures var w := Expired(v);
      && w.setup == v.setup && w.temporary == map[] && w.base.board == v.base.board && w.base.trails == v.base.trails
      && |w.base.worms| == |v.base.worms|
      && forall i :: 0 <= i < |v.base.worms| ==>
           w.base.worms[i].id == v.base.worms[i].id && w.base.worms[i].alive == v.base.worms[i].alive
           && w.base.worms[i].position == v.base.worms[i].position
  {
    assert Due(v) == {};
  }

  lemma LoneMove()
    ensures var c := FreshCore(HISTORICAL, [LONER]); var c' := Move(c, 0, West).core;
      && c'.board == HISTORICAL && c'.trails == map[EdgeFrom(HISTORICAL, CENTRE, West) := LONER.id]
      && |c'.worms| == 1 && c'.worms[0].id == LONER.id && c'.worms[0].alive && c'.worms[0].position == Point(8, 9)
  {
    hide NewEdge;
    var c := FreshCore(HISTORICAL, [LONER]);
    var to := Neighbor(HISTORICAL, CENTRE, West);
    assert to == Point(8, 9);
    var e := NewEdge(CENTRE, to);
    var trails := c.trails[e := LONER.id];
    assert EdgeFrom(HISTORICAL, to, West) != e by { SameEdge(HISTORICAL, CENTRE, West, to, West); }
    assert West !in Spokes(HISTORICAL, trails, to);
  }

  lemma SouthEastIsFree(v: Variant)
    requires Books(v) && v.base.board == HISTORICAL && v.temporary == map[] && v.setup == LoneGame().setup
    requires v.base.trails == map[EdgeFrom(HISTORICAL, CENTRE, West) := LONER.id]
    requires |v.base.worms| == 1 && v.base.worms[0].id == LONER.id && v.base.worms[0].alive
    requires v.base.worms[0].position == Point(8, 9)
    ensures Intended(v, Point(8, 9), SouthEast) && SouthEast in LegalMoves(v.base, LONER.id)
    ensures East in MaskAt(v.base, Point(8, 9))
  {
    hide MaskAt, Books, NewEdge, NewGame;
    LoneGameIsBare();
    var p := Point(8, 9);
    assert Neighbor(HISTORICAL, p, SouthEast) == Point(9, 10);
    SpokesAtWest(v);
    EveryDirection(SouthEast);
  }

  lemma SpokesAtWest(v: Variant)
    requires Books(v) && v.base.board == HISTORICAL
    requires v.base.trails == map[EdgeFrom(HISTORICAL, CENTRE, West) := LONER.id]
    ensures var p := Point(8, 9);
      EdgeFrom(HISTORICAL, p, SouthEast) !in v.base.trails &&
      SouthEast !in MaskAt(v.base, p) && East in MaskAt(v.base, p)
  {
    hide Tallied, TeamsAgree, NewEdge;
    var p := Point(8, 9);
    assert Neighbor(HISTORICAL, CENTRE, West) == p;
    SameEdge(HISTORICAL, CENTRE, West, p, SouthEast);
    SameEdge(HISTORICAL, CENTRE, West, p, East);
    CellsAreInBounds(HISTORICAL, p);
    EveryDirection(East);
    assert v.base.territories[p].mask == SpokeMask(v.base, p);
  }
}
