/**
 * One move of a variant game: expiry, legality, the engine's move, weighted scores, energy, and the expiry it is
 * given.
 */
module VariantMoves {
  import opened Geometry
  import opened HalfEdges
  import opened Engine
  import opened Ledger
  import opened Rounds
  import opened EventSourcing
  import opened Variants
  import opened Wrappers

  datatype Refusal = InvalidAction | ByEngine(error: Error)

  type Reply<+T> = Result<T, Refusal>

  /** What a call leaves behind, whether or not it was refused. */
  datatype Attempt = Attempt(after: Variant, result: Reply<seq<Draft>>)

  predicate HasEnergy(v: Variant, id: Id) {
    v.setup.limit > 0 ==> ValueAt(v.energy, id) > 0
  }

  /** The tests on a move that the terrain, the trails and the other worms make. */
  predicate Reachable(v: Variant, from: Point, d: Direction) {
    var to := Neighbor(v.base.board, from, d);
    var e := NewEdge(from, to);
    var t := v.setup.terrain;
    && InBounds(v.base.board, to) && to !in t.obstacles && to !in t.holes
    && !(v.base.board.mode == ModernRules && HasWorm(v.base, to))
    && e !in v.base.trails && e !in v.temporary
    && (e in t.oneWay ==> t.oneWay[e] == d)
  }

  /** The intended rule: the spoke in the move's own direction is free. */
  predicate Intended(v: Variant, from: Point, d: Direction) {
    Reachable(v, from, d) && d !in MaskAt(v.base, from)
  }

  /** The cell's cached mask shows no spoke that is not drawn. */
  ghost predicate Fresh(c: Core, p: Point) {
    CellAt(c.territories, p).mask <= SpokeMask(c, p)
  }

  /** The rule as written: its mask test looks at the East spoke for every direction; see `Masks.GuardTestsEast`. */
  predicate Passable(v: Variant, from: Point, d: Direction) {
    Reachable(v, from, d) && East !in MaskAt(v.base, from)
  }

  predicate Legal(v: Variant, id: Id, h: Heading) {
    var i := WormIndex(v.base.worms, id);
    && i >= 0 && v.base.worms[i].alive && h.Some?
    && HasEnergy(v, id)
    && Passable(v, v.base.worms[i].position, h.value)
  }

  function LegalFrom(v: Variant, id: Id, dirs: seq<Direction>): (ds: seq<Direction>)
    ensures forall d :: d in ds <==> d in dirs && Legal(v, id, Some(d))
    ensures |ds| <= |dirs|
  {
    if dirs == [] then []
    else (if Legal(v, id, Some(dirs[0])) then [dirs[0]] else []) + LegalFrom(v, id, dirs[1..])
  }

  function Moves(v: Variant, id: Id): seq<Direction> {
    LegalFrom(v, id, DIRECTIONS)
  }

  // ----- what a move adds

  /** The weights of the cells that a list of events reports captured. */
  function CaptureWeight(t: Terrain, log: seq<Draft>): int {
    if log == [] then 0
    else
      var e := log[|log| - 1];
      CaptureWeight(t, log[..|log| - 1]) + if e.body.TerritoryCaptured? then WeightOf(t, e.body.territory) else 0
  }

  function Captured(log: seq<Draft>): int {
    if log == [] then 0
    else Captured(log[..|log| - 1]) + if log[|log| - 1].body.TerritoryCaptured? then 1 else 0
  }

  /** Captures are credited one by one; where there are none the map of scores is not touched. */
  function Scored(v: Variant, c: Core, id: Id, log: seq<Draft>): Variant {
    v.(base := c,
       scores := if Captured(log) == 0 then v.scores
                 else v.scores[id := ValueAt(v.scores, id) + CaptureWeight(v.setup.terrain, log)])
  }

  ghost function Exhausted(c: Core, i: nat): Core
    requires i < |c.worms|
  {
    var c' := Fall(c, i);
    if AliveSlots(c'.worms) == {} then c'.(over := true) else c'
  }

  /** A move costs one unit of energy, and the last unit costs the worm its life. */
  ghost function Drained(v: Variant, i: nat, id: Id): Variant
    requires i < |v.base.worms|
  {
    if v.setup.limit == 0 then v
    else
      var left := if ValueAt(v.energy, id) > 0 then ValueAt(v.energy, id) - 1 else 0;
      var v' := v.(energy := v.energy[id := left]);
      if left == 0 then v'.(base := Exhausted(v.base, i)) else v'
  }

  function Dated(v: Variant, e: Edge): Variant {
    if v.setup.ttl > 0 then v.(temporary := v.temporary[e := v.base.tick + v.setup.ttl]) else v
  }

  function Credited(v: Variant, id: Id, delta: int): Variant {
    var team := TeamOf(v.setup, id);
    if team == NOBODY then v else v.(teamScores := v.teamScores[team := ValueAt(v.teamScores, team) + delta])
  }

  /** The variant before its second expiry, and the change in the mover's weighted score. */
  ghost function Played(v: Variant, i: nat, d: Direction, r: Done): Variant
    requires i < |v.base.worms| == |r.core.worms|
    ensures |Played(v, i, d, r).base.worms| == |v.base.worms|
  {
    var id := v.base.worms[i].id;
    Dated(Drained(Scored(v, r.core, id, r.log), i, id), EdgeFrom(v.base.board, v.base.worms[i].position, d))
  }

  function Delta(v: Variant, i: nat, r: Done): int
    requires i < |v.base.worms| == |r.core.worms|
  {
    r.core.worms[i].score - v.base.worms[i].score + CaptureWeight(v.setup.terrain, r.log) - Captured(r.log)
  }

  /** The variant after an accepted move, its second expiry and the credit to the mover's team. */
  ghost function Completed(v: Variant, i: nat, d: Direction, r: Done): Variant
    requires i < |v.base.worms| == |r.core.worms|
    ensures |Completed(v, i, d, r).base.worms| == |v.base.worms|
  {
    Credited(Expired(Played(v, i, d, r)), v.base.worms[i].id, Delta(v, i, r))
  }

  /** `Apply` outside classic mode. Expiry comes first and stays even if the move is refused. */
  ghost function Apply(v: Variant, id: Id, h: Heading): (a: Attempt)
    ensures |a.after.base.worms| == |v.base.worms|
  {
    var v1 := Expired(v);
    if !Legal(v1, id, h) then Attempt(v1, Err(InvalidAction))
    else
      var i := WormIndex(v1.base.worms, id);
      var r := Step(v1.base, id, h);
      if r.Err? then Attempt(v1, Err(ByEngine(r.error)))
      else Attempt(Completed(v1, i, h.value, r.value), Ok(r.value.log))
  }

  // ----- what the legality test accepts

  /**
   * Where no spoke is cached without its trail, the rule as written is the intended one for a cell whose East spoke is
   * free, and empty otherwise.
   */
  lemma WrittenRule(v: Variant, from: Point, d: Direction)
    requires Fresh(v.base, from)
    ensures Passable(v, from, d) <==> Intended(v, from, d) && East !in MaskAt(v.base, from)
  {
    hide Neighbor;
    EveryDirection(d);
  }

  lemma SoundIsFresh(c: Core, p: Point)
    requires Sound(c)
    ensures Fresh(c, p)
  {
  }

  /** Once its East spoke is drawn, no worm leaves a cell. */
  lemma EastSpokeBlocks(v: Variant, id: Id)
    requires WormIndex(v.base.worms, id) >= 0
    requires East in MaskAt(v.base, v.base.worms[WormIndex(v.base.worms, id)].position)
    ensures Moves(v, id) == []
  {
    hide Reachable, MaskAt;
    forall d ensures !Legal(v, id, Some(d)) {}
    NoneLegal(v, id, DIRECTIONS);
  }

  lemma {:induction false} NoneLegal(v: Variant, id: Id, dirs: seq<Direction>)
    requires forall d :: !Legal(v, id, Some(d))
    ensures LegalFrom(v, id, dirs) == []
    decreases |dirs|
  {
    hide Legal;
    if dirs == [] {
    } else {
      NoneLegal(v, id, dirs[1..]);
    }
  }

  /**
   * A call is accepted exactly if the move is legal, its own spoke is free and the game goes on. In a game whose
   * books are in order a legal move's spoke is always free; the expiry stays even if the call is refused.
   */
  lemma AppliedExactly(v: Variant, id: Id, h: Heading)
    ensures Apply(v, id, h).result.Ok? <==>
              var w := Expired(v); var i := WormIndex(w.base.worms, id);
              Legal(w, id, h) && !v.base.over && h.value !in MaskAt(w.base, w.base.worms[i].position)
    ensures Kept(v) ==> (Apply(v, id, h).result.Ok? <==> Legal(Expired(v), id, h) && !v.base.over)
    ensures Apply(v, id, h).result.Err? ==> Apply(v, id, h).after == Expired(v)
  {
    hide MaskAt, Neighbor, Kept, Without, Due, Completed, Move;
    var w := Expired(v);
    assert w.base.over == v.base.over by { ExpiredOver(v); }
    if Kept(v) && Legal(w, id, h) {
      ExpiredIsKept(v);
      LegalSpokeIsFree(w, id, h);
    }
  }

  lemma ExpiredOver(v: Variant)
    ensures Expired(v).base.over == v.base.over
  {
    hide Without;
    WithoutFrame(v, Due(v));
  }

  lemma ExpiredIsKept(v: Variant)
    requires Kept(v)
    ensures Kept(Expired(v))
  {
    hide Kept, Without;
    WithoutKeeps(v, Due(v));
  }

  lemma LegalSpokeIsFree(v: Variant, id: Id, h: Heading)
    requires Kept(v) && Legal(v, id, h)
    ensures h.value !in MaskAt(v.base, v.base.worms[WormIndex(v.base.worms, id)].position)
  {
    hide MaskAt, Tallied, Neighbor, Passable, Intended, Fresh;
    var from := v.base.worms[WormIndex(v.base.worms, id)].position;
    SoundIsFresh(v.base, from);
    WrittenRule(v, from, h.value);
    IntendedSpoke(v, from, h.value);
  }

  lemma IntendedSpoke(v: Variant, from: Point, d: Direction)
    requires Intended(v, from, d)
    ensures d !in MaskAt(v.base, from)
  {
  }

  // ----- the weighted score of a move

  lemma {:induction false} NothingCaptured(t: Terrain, log: seq<Draft>)
    ensures Captured(log) >= 0 && (Captured(log) == 0 ==> CaptureWeight(t, log) == 0)
    decreases |log|
  {
    if log == [] {
    } else {
      NothingCaptured(t, log[..|log| - 1]);
    }
  }

  /** For a worm that has a score, the credit is one addition. */
  lemma ScoredAtOnce(v: Variant, c: Core, id: Id, log: seq<Draft>)
    requires id in v.scores
    ensures Scored(v, c, id, log) ==
            v.(base := c, scores := v.scores[id := v.scores[id] + CaptureWeight(v.setup.terrain, log)])
  {
    NothingCaptured(v.setup.terrain, log);
    assert v.scores[id := v.scores[id]] == v.scores;
  }

  lemma {:induction false} CapturesConcat(t: Terrain, a: seq<Draft>, b: seq<Draft>)
    ensures CaptureWeight(t, a + b) == CaptureWeight(t, a) + CaptureWeight(t, b)
    ensures Captured(a + b) == Captured(a) + Captured(b)
    decreases |b|
  {
    if b == [] {
      assert a + b == a;
    } else {
      CapturesConcat(t, a, b[..|b| - 1]);
      assert (a + b)[..|a + b| - 1] == a + b[..|b| - 1];
    }
  }

  lemma CapturesOfOne(t: Terrain, e: Draft)
    ensures CaptureWeight(t, [e]) == if e.body.TerritoryCaptured? then WeightOf(t, e.body.territory) else 0
    ensures Captured([e]) == if e.body.TerritoryCaptured? then 1 else 0
  {
    assert [e][..0] == [];
  }

  lemma CapturesOfNews(t: Terrain, tick: nat, round: nat, cell: Territory, d: Direction, id: Id, color: Color, p: Point)
    requires cell.owner == NOBODY
    ensures var log := EmitAll(tick, round, SettleNews(cell, cell.mask + {d}, id, color, p));
      CaptureWeight(t, log) == Gain(cell, d) * WeightOf(t, p) && Captured(log) == Gain(cell, d)
  {
    hide WeightOf;
    var m := cell.mask + {d};
    var body := if m == FULL then TerritoryCaptured(id, p, color, 1, FULL) else TerritoryColorChanged(id, p, color, m);
    assert SettleNews(cell, m, id, color, p) == [body];
    assert EmitAll(tick, round, [body]) == [Draft(tick, round, body)];
    CapturesOfOne(t, Draft(tick, round, body));
  }

  /** The events of a move report exactly the cells it completes. */
  lemma CapturesOfMove(c: Core, t: Terrain, i: nat, d: Direction)
    requires AtSite(c, i, d) && c.worms[i].id != NOBODY
    ensures var from, to := c.worms[i].position, Target(c, i, d); var log := Move(c, i, d).log;
      && CaptureWeight(t, log) == Gain(c.territories[from], d) * WeightOf(t, from)
                                  + Gain(c.territories[to], Opposite(d)) * WeightOf(t, to)
      && Captured(log) == Gain(c.territories[from], d) + Gain(c.territories[to], Opposite(d))
  {
    hide WeightOf, SettleNews, Neighbor, Gain, Settle;
    var w := c.worms[i];
    var from, to := w.position, Target(c, i, d);
    var s, g := c.territories[from], c.territories[to];
    var m, m' := s.mask + {d}, g.mask + {Opposite(d)};
    var claimed := TrailClaimed(w.id, from, to, NewEdge(from, to), TrailColor(w), m);
    var moved := WormMoved(w.id, from, to, NewEdge(from, to), TrailColor(w));
    var died := if m' == FULL then [WormDied(w.id, to)] else [];
    var a := SettleNews(s, m, w.id, TrailColor(w), from);
    var b := SettleNews(g, m', w.id, TrailColor(w), to);
    assert Move(c, i, d).log == EmitAll(c.tick + 1, c.round, [claimed] + a + b + [moved] + died) by {
      MoveLog(c, i, d);
    }
    CapturesOfBodies(t, c.tick + 1, c.round, [claimed], a);
    CapturesOfBodies(t, c.tick + 1, c.round, [claimed] + a, b);
    CapturesOfBodies(t, c.tick + 1, c.round, [claimed] + a + b, [moved]);
    CapturesOfBodies(t, c.tick + 1, c.round, [claimed] + a + b + [moved], died);
    CapturesOfNews(t, c.tick + 1, c.round, s, d, w.id, TrailColor(w), from);
    CapturesOfNews(t, c.tick + 1, c.round, g, Opposite(d), w.id, TrailColor(w), to);
    NoCaptures(t, c.tick + 1, c.round, claimed);
    NoCaptures(t, c.tick + 1, c.round, moved);
    NoCaptures(t, c.tick + 1, c.round, WormDied(w.id, to));
    assert EmitAll(c.tick + 1, c.round, []) == [];
  }

  lemma CapturesOfBodies(t: Terrain, tick: nat, round: nat, a: seq<Body>, b: seq<Body>)
    ensures CaptureWeight(t, EmitAll(tick, round, a + b)) ==
            CaptureWeight(t, EmitAll(tick, round, a)) + CaptureWeight(t, EmitAll(tick, round, b))
    ensures Captured(EmitAll(tick, round, a + b)) ==
            Captured(EmitAll(tick, round, a)) + Captured(EmitAll(tick, round, b))
  {
    hide CaptureWeight, Captured;
    CapturesConcat(t, EmitAll(tick, round, a), EmitAll(tick, round, b));
    assert EmitAll(tick, round, a + b) == EmitAll(tick, round, a) + EmitAll(tick, round, b);
  }

  lemma NoCaptures(t: Terrain, tick: nat, round: nat, body: Body)
    requires !body.TerritoryCaptured?
    ensures CaptureWeight(t, EmitAll(tick, round, [body])) == 0 && Captured(EmitAll(tick, round, [body])) == 0
  {
    assert EmitAll(tick, round, [body]) == [Draft(tick, round, body)];
    CapturesOfOne(t, Draft(tick, round, body));
  }

  lemma WeighedAfterDrawing(t: Terrain, cells: map<Point, Territory>, p: Point, cell: Territory, id: Id)
    requires p in cells && cells[p].owner == NOBODY && id != NOBODY
    ensures WeightSum(t, Owned(cells[p := cell], id)) ==
            WeightSum(t, Owned(cells, id)) + if cell.owner == id then WeightOf(t, p) else 0
  {
    var mine := Owned(cells[p := cell], id);
    assert mine == Owned(cells, id) + if cell.owner == id then {p} else {};
    if cell.owner == id {
      WeightSumPick(t, mine, p);
      assert mine - {p} == Owned(cells, id);
    } else {
      assert mine == Owned(cells, id);
    }
  }

  /** A worm's weighted total grows by the weights of the cells its move reports captured; no other worm's grows. */
  lemma WeighedAfterMove(v: Variant, i: nat, d: Direction, id: Id)
    requires Kept(v) && CanMove(v.base, i, d) && id != NOBODY
    ensures WeightSum(v.setup.terrain, Owned(MovedCells(v.base, i, d), id)) ==
            WeightSum(v.setup.terrain, Owned(v.base.territories, id)) +
            if id == v.base.worms[i].id then CaptureWeight(v.setup.terrain, Move(v.base, i, d).log) else 0
  {
    hide WeightSum, WeightOf, Owned, Tallied, CaptureWeight, Move, Neighbor;
    var c, t := v.base, v.setup.terrain;
    var w := c.worms[i];
    var from, to := w.position, Target(c, i, d);
    MoveSite(c, i, d);
    MoveMasks(c, i, d);
    MoverIsNamed(c, i);
    CapturesOfMove(c, t, i, d);
    var f := Drawn(c.territories[from], d, w.id, TrailColor(w));
    var g := Drawn(c.territories[to], Opposite(d), w.id, TrailColor(w));
    WeighedAfterDrawing(t, c.territories, from, f, id);
    WeighedAfterDrawing(t, c.territories[from := f], to, g, id);
  }

  lemma MoverIsNamed(c: Core, i: nat)
    requires Sound(c) && i < |c.worms|
    ensures c.worms[i].id != NOBODY
  {
  }

  // ----- what a move keeps

  /** The books agree except that one team is still owed x. */
  ghost predicate Owing(v: Variant, team: Name, x: int) {
    forall t :: t in v.teamScores ==>
      v.teamScores[t] + (if t == team then x else 0) == TeamSum(v.setup.teams, v.scores, t)
  }

  ghost predicate SameIdList(ws: seq<Worm>, ws': seq<Worm>) {
    |ws'| == |ws| && forall i :: 0 <= i < |ws| ==> ws'[i].id == ws[i].id
  }

  lemma SameIdSet(ws: seq<Worm>, ws': seq<Worm>)
    requires SameIdList(ws, ws')
    ensures Ids(ws') == Ids(ws)
  {
  }

  /** A sound position and exact weighted scores tally. */
  lemma TalliedFrom(v: Variant, v': Variant)
    requires Tallied(v) && Sound(v'.base) && SameIdList(v.base.worms, v'.base.worms)
    requires v'.setup == v.setup && v'.teamScores.Keys == v.teamScores.Keys && v'.scores.Keys == v.scores.Keys
    requires forall id :: id in v.scores ==>
               v'.scores[id] == WeightSum(v.setup.terrain, Owned(v'.base.territories, id))
    ensures Tallied(v')
  {
    hide Regular, MasksInSync, OwnedWhenFull, AllOnBoard, WeightSum, Owned;
    SameIdSet(v.base.worms, v'.base.worms);
  }

  lemma ScoredKeeps(v: Variant, i: nat, d: Direction)
    requires Kept(v) && CanMove(v.base, i, d)
    ensures var r := Move(v.base, i, d); var id := v.base.worms[i].id; var v' := Scored(v, r.core, id, r.log);
      && Kept(v') && EdgeFrom(v.base.board, v.base.worms[i].position, d) in r.core.trails
      && (TeamsAgree(v) ==> Owing(v', TeamOf(v.setup, id), CaptureWeight(v.setup.terrain, r.log)))
  {
    hide Sound, Move, Neighbor, MaskAt, CaptureWeight, Captured, WeightSum, Owned, MovedCells, Tallied, MovedWorm,
        TeamSum, Scored;
    var c := v.base;
    var r := Move(c, i, d);
    var id := c.worms[i].id;
    var v' := Scored(v, r.core, id, r.log);
    MoveKeepsSound(c, i, d);
    MoveMasks(c, i, d);
    MoveShape(c, i, d);
    MoverScored(v, i);
    ScoredAtOnce(v, r.core, id, r.log);
    forall k | k in v.scores ensures v'.scores[k] == WeightSum(v.setup.terrain, Owned(r.core.territories, k)) {
      WeighedAfterMove(v, i, d, k);
      TalliedAt(v, k);
    }
    MovedIds(c, i, d);
    TalliedFrom(v, v');
    if TeamsAgree(v) {
      TeamsOwe(v, id, CaptureWeight(v.setup.terrain, r.log));
    }
  }

  lemma MoverScored(v: Variant, i: nat)
    requires Kept(v) && i < |v.base.worms|
    ensures v.base.worms[i].id in v.scores
    ensures NOBODY !in v.scores
  {
    hide Sound;
    assert v.base.worms[i].id in Ids(v.base.worms);
    ScoredIdsAreWorms(v, NOBODY);
  }

  lemma TalliedAt(v: Variant, id: Id)
    requires Tallied(v) && id in v.scores
    ensures v.scores[id] == WeightSum(v.setup.terrain, Owned(v.base.territories, id))
  {
  }

  lemma MovedIds(c: Core, i: nat, d: Direction)
    requires i < |c.worms|
    ensures SameIdList(c.worms, Moved(c, i, d).worms)
  {
  }

  lemma TeamsOwe(v: Variant, id: Id, x: int)
    requires Tallied(v) && TeamsAgree(v) && id in v.scores
    ensures Owing(v.(scores := v.scores[id := v.scores[id] + x]), TeamOf(v.setup, id), x)
  {
    var scores := v.scores[id := v.scores[id] + x];
    forall t | t in v.teamScores
      ensures TeamSum(v.setup.teams, scores, t) == v.teamScores[t] + if t == TeamOf(v.setup, id) then x else 0
    {
      TotalChange(v.scores, Members(v.setup.teams, t), id, v.scores[id] + x);
      assert t != NOBODY;
    }
  }

  lemma ExhaustedFrame(c: Core, i: nat)
    requires i < |c.worms|
    ensures SameLedger(c, Exhausted(c, i))
  {
  }

  lemma DrainedFrame(v: Variant, i: nat, id: Id)
    requires i < |v.base.worms|
    ensures var v' := Drained(v, i, id);
      && v' == v.(energy := v'.energy, base := v'.base) && SameLedger(v.base, v'.base)
  {
    hide SameLedger, Exhausted;
    ExhaustedFrame(v.base, i);
    SameAsItself(v.base);
  }

  lemma SameAsItself(c: Core)
    ensures SameLedger(c, c)
  {
  }

  lemma DrainedKeeps(v: Variant, i: nat, id: Id)
    requires Kept(v) && i < |v.base.worms|
    ensures var v' := Drained(v, i, id);
      && Kept(v') && v'.teamScores == v.teamScores && v'.scores == v.scores && v'.setup == v.setup
      && v'.base.trails == v.base.trails && v'.base.board == v.base.board && v'.temporary == v.temporary
  {
    hide Sound, Tallied, Drained, SameWorms;
    var v' := Drained(v, i, id);
    DrainedFrame(v, i, id);
    SoundFrame(v.base, v'.base);
    TalliedAfterDeath(v, v');
  }

  lemma TalliedAfterDeath(v: Variant, v': Variant)
    requires Tallied(v) && SameLedger(v.base, v'.base)
    requires v'.setup == v.setup && v'.scores == v.scores && v'.teamScores == v.teamScores
    ensures Tallied(v')
  {
    hide Owned, WeightSum;
    SameIds(v.base.worms, v'.base.worms);
    SameIdSet(v.base.worms, v'.base.worms);
    assert Weighed(v', v'.base.territories) == v.scores;
  }

  lemma DatedKeeps(v: Variant, e: Edge)
    requires Kept(v) && e in v.base.trails
    ensures Kept(Dated(v, e))
  {
    hide Sound, Tallied;
    TalliedReads(v, Dated(v, e));
  }

  lemma OwingAfterExpiry(v: Variant, es: set<Edge>, team: Name, x: int)
    requires Kept(v) && es <= v.temporary.Keys && Owing(v, team, x)
    ensures Owing(Without(v, es), team, x)
  {
    hide Kept, Without, Weighed, FadedCells, TeamSum;
    WithoutRecounts(v, es);
  }

  lemma CreditSettles(v: Variant, id: Id, x: int)
    requires Kept(v) && Owing(v, TeamOf(v.setup, id), x)
    ensures Books(Credited(v, id, x))
  {
    hide Sound, TeamSum;
    var team, v' := TeamOf(v.setup, id), Credited(v, id, x);
    assert team != NOBODY ==> team in v.teamScores by {
      assert id in v.setup.teams ==> v.setup.teams[id] in v.setup.teams.Values;
      assert team in v.teamScores.Keys <==> team in v.teamScores;
    }
    assert v'.teamScores.Keys == v.teamScores.Keys;
    assert Weighed(v', v'.base.territories) == v.scores;
  }

  /** The score a move reports is the change of the mover's weighted total at the time of the move. */
  lemma DeltaIsWeight(v: Variant, i: nat, d: Direction)
    requires Kept(v) && CanMove(v.base, i, d)
    ensures Delta(v, i, Move(v.base, i, d)) == CaptureWeight(v.setup.terrain, Move(v.base, i, d).log)
  {
    hide Move, Neighbor, CaptureWeight, Captured, WeightOf, Tallied;
    MoveSite(v.base, i, d);
    MoveMasks(v.base, i, d);
    MoverIsNamed(v.base, i);
    MoveShape(v.base, i, d);
    CapturesOfMove(v.base, v.setup.terrain, i, d);
  }

  lemma LegalCanMove(v: Variant, id: Id, h: Heading)
    requires Legal(v, id, h)
    ensures WormIndex(v.base.worms, id) >= 0 && h.Some?
    ensures var i := WormIndex(v.base.worms, id);
      Step(v.base, id, h).Ok? ==> CanMove(v.base, i, h.value) && Step(v.base, id, h) == Ok(Move(v.base, i, h.value))
  {
    hide Move, MaskAt, Neighbor;
  }

  lemma ExpiryKeepsBooks(v: Variant)
    requires Books(v)
    ensures Books(Expired(v))
  {
    hide Kept, TeamsAgree, Without;
    WithoutKeeps(v, Due(v));
  }

  /** What `Apply` does, in one line: an expiry, then a move played, expired and credited. */
  lemma ApplyUnfolds(v: Variant, id: Id, h: Heading)
    ensures var a := Apply(v, id, h); var v1 := Expired(v); var i := WormIndex(v1.base.worms, id);
      if a.result.Err? then a.after == v1
      else
        && Legal(v1, id, h) && h.Some? && i >= 0 && CanMove(v1.base, i, h.value)
        && var r := Move(v1.base, i, h.value);
        && a.result == Ok(r.log)
        && a.after == Completed(v1, i, h.value, r)
  {
    hide Without, Due, Move, Completed, Expired, MaskAt, Neighbor;
    var v1 := Expired(v);
    if Legal(v1, id, h) {
      LegalCanMove(v1, id, h);
    }
  }

  /**
   * Every ledger survives a move of a variant game, though it draws one trail and may delete others; so does it a
   * refusal.
   */
  lemma ApplyKeepsBooks(v: Variant, id: Id, h: Heading)
    requires Books(v)
    ensures Books(Apply(v, id, h).after)
  {
    hide Kept, TeamsAgree, Expired, Legal, Apply;
    ExpiryKeepsBooks(v);
    ApplyUnfolds(v, id, h);
    if Apply(v, id, h).result.Ok? {
      var v1 := Expired(v);
      PlayedKeeps(v1, WormIndex(v1.base.worms, id), h.value);
    }
  }

  lemma PlayedKeeps(v: Variant, i: nat, d: Direction)
    requires Books(v) && CanMove(v.base, i, d)
    ensures var r := Move(v.base, i, d);
      Books(Completed(v, i, d, r))
  {
    hide Sound, Tallied, Without, Due, Credited, Delta, Move, Drained, TeamsAgree,
        Owing, CaptureWeight, Neighbor, MaskAt, TeamOf;
    var r := Move(v.base, i, d);
    var id := v.base.worms[i].id;
    var e := EdgeFrom(v.base.board, v.base.worms[i].position, d);
    var x := CaptureWeight(v.setup.terrain, r.log);
    ScoredKeeps(v, i, d);
    DeltaIsWeight(v, i, d);
    var v2 := Scored(v, r.core, id, r.log);
    DrainedKeeps(v2, i, id);
    var v3 := Drained(v2, i, id);
    DatedKeeps(v3, e);
    var v4 := Dated(v3, e);
    OwingReads(v2, v4, TeamOf(v.setup, id), x);
    DueIsTemporary(v4);
    WithoutKeeps(v4, Due(v4));
    OwingAfterExpiry(v4, Due(v4), TeamOf(v.setup, id), x);
    WithoutSetup(v4, Due(v4));
    CreditSettles(Expired(v4), id, x);
  }

  lemma DueIsTemporary(v: Variant)
    ensures Due(v) <= v.temporary.Keys
  {
  }

  lemma OwingReads(v: Variant, v': Variant, team: Name, x: int)
    requires v'.setup == v.setup && v'.scores == v.scores && v'.teamScores == v.teamScores
    ensures Owing(v', team, x) == Owing(v, team, x)
  {
  }

  lemma WithoutSetup(v: Variant, es: set<Edge>)
    ensures Without(v, es).setup == v.setup
  {
    hide Without;
    WithoutFrame(v, es);
  }

  /** The books do not depend on rules, uses, lives or the controller's own fields. */
  lemma BooksFrame(v: Variant, c: Core)
    requires Books(v) && SameLedger(v.base, c)
    ensures Books(v.(base := c))
  {
    hide Sound, Tallied, TeamSum;
    SoundFrame(v.base, c);
    TalliedAfterDeath(v, v.(base := c));
  }
}
