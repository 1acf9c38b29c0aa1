/**
 * The variant layer of internal/extension on values: terrain, energy, teams, and trails that expire. The running totals
 * it keeps (cell counts, weighted scores, team scores) are compared with what a recount of the board would give.
 */
module Variants {
  import opened Geometry
  import opened HalfEdges
  import opened Engine
  import opened Ledger
  import opened EventLog
  import opened EventSourcing

  datatype Terrain = Terrain(
    obstacles: set<Point>, holes: set<Point>, weights: map<Point, int>, oneWay: map<Edge, Direction>)

  /** What a configuration fixes; `ttl` 0 means permanent trails, `limit` 0 means no energy. */
  datatype Setup = Setup(terrain: Terrain, ttl: nat, limit: nat, teams: map<Id, Name>)

  datatype Variant = Variant(
    setup: Setup, base: Core, temporary: map<Edge, nat>, energy: map<Id, int>,
    scores: map<Id, int>, teamScores: map<Name, int>)

  function WeightOf(t: Terrain, p: Point): int {
    if p in t.weights && t.weights[p] != 0 then t.weights[p] else 1
  }

  function ValueAt(m: map<Name, int>, k: Name): int {
    if k in m then m[k] else 0
  }

  function TeamOf(s: Setup, id: Id): Name {
    if id in s.teams then s.teams[id] else NOBODY
  }

  // ----- recounts

  ghost function WeightSum(t: Terrain, cells: set<Point>): int {
    if cells == {} then 0 else var p := Pick(cells); WeightOf(t, p) + WeightSum(t, cells - {p})
  }

  ghost function Total(m: map<Id, int>, ids: set<Id>): int {
    if ids == {} then 0 else var id := Pick(ids); ValueAt(m, id) + Total(m, ids - {id})
  }

  ghost function Members(teams: map<Id, Name>, team: Name): set<Id> {
    set id | id in teams && teams[id] == team
  }

  ghost function TeamSum(teams: map<Id, Name>, scores: map<Id, int>, team: Name): int {
    Total(scores, Members(teams, team))
  }

  ghost function Ids(ws: seq<Worm>): set<Id> {
    set i | 0 <= i < |ws| :: ws[i].id
  }

  ghost function Weighed(v: Variant, cells: map<Point, Territory>): map<Id, int> {
    map id | id in v.scores :: WeightSum(v.setup.terrain, Owned(cells, id))
  }

  ghost function Rescored(ws: seq<Worm>, cells: map<Point, Territory>): (ws': seq<Worm>)
    ensures |ws'| == |ws|
  {
    seq(|ws|, i requires 0 <= i < |ws| => ws[i].(score := |Owned(cells, ws[i].id)|))
  }

  /** Team scores moved by the change in their members' scores. */
  ghost function Adjusted(v: Variant, scores: map<Id, int>): map<Name, int> {
    map t | t in v.teamScores :: v.teamScores[t] +
        TeamSum(v.setup.teams, scores, t) - TeamSum(v.setup.teams, v.scores, t)
  }

  /** The variant with these cells and every total recounted from them. */
  ghost function Recount(v: Variant, cells: map<Point, Territory>): (r: Variant)
    ensures |r.base.worms| == |v.base.worms|
  {
    v.(base := v.base.(territories := cells, worms := Rescored(v.base.worms, cells)),
       scores := Weighed(v, cells), teamScores := Adjusted(v, Weighed(v, cells)))
  }

  // ----- the ledger

  ghost predicate Tallied(v: Variant) {
    && UniqueIds(v.base.worms) && (forall i :: 0 <= i < |v.base.worms| ==> v.base.worms[i].id != NOBODY)
    && ScoresCountCells(v.base) && OwnersAreWorms(v.base)
    && v.scores == Weighed(v, v.base.territories) && v.scores.Keys == Ids(v.base.worms)
    && (forall id :: id in v.setup.teams ==> v.setup.teams[id] != NOBODY)
    && v.teamScores.Keys == v.setup.teams.Values
  }

  /** Cached masks, counts and weighted scores agree with the board, and every expiring trail is drawn. */
  ghost predicate Kept(v: Variant) {
    && Sound(v.base) && Tallied(v)
    && v.temporary.Keys <= v.base.trails.Keys
  }

  ghost predicate TeamsAgree(v: Variant) {
    forall t :: t in v.teamScores ==> v.teamScores[t] == TeamSum(v.setup.teams, v.scores, t)
  }

  ghost predicate Books(v: Variant) {
    Kept(v) && TeamsAgree(v)
  }

  // ----- expiry

  /** A cell whose mask has shrunk to m: a cell that is no longer complete loses its owner. */
  function Faded(t: Territory, m: Mask): Territory {
    if m != FULL && t.owner != NOBODY then Territory(m, NOBODY, NOBODY) else Territory(m, t.color, t.owner)
  }

  function Reduced(m: map<Name, int>, k: Name, x: int): map<Name, int> {
    m[k := ValueAt(m, k) - x]
  }

  function Deducted(ws: seq<Worm>, owner: Id): (ws': seq<Worm>)
    ensures |ws'| == |ws|
  {
    var i := WormIndex(ws, owner);
    if i >= 0 && ws[i].score > 0 then ws[i := ws[i].(score := ws[i].score - 1)] else ws
  }

  /** Cell p no longer counts for its owner: one cell less, and its weight off the owner's and the team's scores. */
  function Debited(v: Variant, owner: Id, p: Point): (r: Variant)
    ensures |r.base.worms| == |v.base.worms|
  {
    var weight := WeightOf(v.setup.terrain, p);
    var team := TeamOf(v.setup, owner);
    v.(base := v.base.(worms := Deducted(v.base.worms, owner)), scores := Reduced(v.scores, owner, weight),
       teamScores := if team != NOBODY then Reduced(v.teamScores, team, weight) else v.teamScores)
  }

  function WithCell(v: Variant, p: Point, t: Territory): Variant {
    v.(base := v.base.(territories := v.base.territories[p := t]))
  }

  /** One end of an expired trail: the spoke goes, and a cell that was complete is taken from its owner. */
  function FadeAt(v: Variant, p: Point, d: Direction): (r: Variant)
    ensures |r.base.worms| == |v.base.worms|
  {
    var t := CellAt(v.base.territories, p);
    var m := t.mask - {d};
    WithCell(if m != FULL && t.owner != NOBODY then Debited(v, t.owner, p) else v, p, Faded(t, m))
  }

  /** The first direction that leads from p to q, and East where none does. */
  function HeadingTo(b: Board, p: Point, q: Point): Direction {
    var h := FirstDirection(b, p, q, DIRECTIONS);
    if h.Some? then h.value else East
  }

  /** The trail and its expiry are gone; its ends have not faded yet. */
  function Dropped(v: Variant, e: Edge): Variant {
    v.(base := v.base.(trails := v.base.trails - {e}), temporary := v.temporary - {e})
  }

  /** One expired trail: the trail and its expiry go, then both ends fade. */
  function Unlay(v: Variant, e: Edge): (r: Variant)
    ensures |r.base.worms| == |v.base.worms|
  {
    var v1 := FadeAt(Dropped(v, e), e.a, HeadingTo(v.base.board, e.a, e.b));
    FadeAt(v1, e.b, HeadingTo(v.base.board, e.b, e.a))
  }

  /** The variant after these trails have expired one by one; by `WithoutMore` the order is immaterial. */
  ghost function Without(v: Variant, es: set<Edge>): (r: Variant)
    ensures |r.base.worms| == |v.base.worms|
    decreases |es|
  {
    if es == {} then v else var e := Pick(es); Unlay(Without(v, es - {e}), e)
  }

  ghost function Due(v: Variant): set<Edge> {
    set e | e in v.temporary && v.temporary[e] <= v.base.tick
  }

  ghost function Expired(v: Variant): (r: Variant)
    ensures |r.base.worms| == |v.base.worms|
  {
    Without(v, Due(v))
  }

  // ----- the order of expiry

  lemma ShrunkIsNotFull(m: Mask, d: Direction)
    ensures m - {d} != FULL
  {
    EveryDirection(d);
    assert d !in m - {d};
  }

  lemma DeductionsCommute(ws: seq<Worm>, a: Id, b: Id)
    ensures Deducted(Deducted(ws, a), b) == Deducted(Deducted(ws, b), a)
  {
    DeductedIds(ws, a);
    DeductedIds(ws, b);
  }

  lemma DeductedIds(ws: seq<Worm>, a: Id)
    ensures forall id :: WormIndex(Deducted(ws, a), id) == WormIndex(ws, id)
  {
    SameIds(ws, Deducted(ws, a));
  }

  lemma ReductionsCommute(m: map<Name, int>, a: Name, x: int, b: Name, y: int)
    ensures Reduced(Reduced(m, a, x), b, y) == Reduced(Reduced(m, b, y), a, x)
  {
  }

  lemma DebitsCommute(v: Variant, a: Id, p: Point, b: Id, q: Point)
    ensures Debited(Debited(v, a, p), b, q) == Debited(Debited(v, b, q), a, p)
  {
    hide Deducted, Reduced, WeightOf, TeamOf;
    var x, y := WeightOf(v.setup.terrain, p), WeightOf(v.setup.terrain, q);
    DeductionsCommute(v.base.worms, a, b);
    ReductionsCommute(v.scores, a, x, b, y);
    ReductionsCommute(v.teamScores, TeamOf(v.setup, a), x, TeamOf(v.setup, b), y);
  }

  lemma CellKeepsDebit(v: Variant, p: Point, t: Territory, owner: Id, q: Point)
    ensures Debited(WithCell(v, p, t), owner, q) == WithCell(Debited(v, owner, q), p, t)
  {
    hide Deducted, Reduced, WeightOf, TeamOf;
  }

  lemma CellsCommute(v: Variant, p: Point, t: Territory, q: Point, u: Territory)
    ensures p != q ==> WithCell(WithCell(v, p, t), q, u) == WithCell(WithCell(v, q, u), p, t)
    ensures WithCell(WithCell(v, p, t), p, u) == WithCell(v, p, u)
    ensures WithCell(v, p, t).base.territories == v.base.territories[p := t]
  {
  }

  /** What the owner of a cell that has lost a spoke has to give up. */
  function Taken(v: Variant, t: Territory, p: Point): (r: Variant)
    ensures |r.base.worms| == |v.base.worms|
  {
    if t.owner != NOBODY then Debited(v, t.owner, p) else v
  }

  lemma FadeIs(v: Variant, p: Point, d: Direction)
    ensures var t := CellAt(v.base.territories, p);
      FadeAt(v, p, d) == WithCell(Taken(v, t, p), p, Faded(t, t.mask - {d}))
    ensures FadeAt(v, p, d).base.territories
         == v.base.territories[p := Faded(CellAt(v.base.territories, p), CellAt(v.base.territories, p).mask - {d})]
  {
    hide Deducted, Reduced, WeightOf, TeamOf, Faded;
    ShrunkIsNotFull(CellAt(v.base.territories, p).mask, d);
  }

  lemma TakingsCommute(v: Variant, t: Territory, p: Point, u: Territory, q: Point)
    ensures Taken(Taken(v, t, p), u, q) == Taken(Taken(v, u, q), t, p)
  {
    hide Debited;
    DebitsCommute(v, t.owner, p, u.owner, q);
  }

  lemma CellKeepsTaking(v: Variant, p: Point, t: Territory, u: Territory, q: Point)
    ensures Taken(WithCell(v, p, t), u, q) == WithCell(Taken(v, u, q), p, t)
  {
    hide Debited, WithCell;
    CellKeepsDebit(v, p, t, u.owner, q);
  }

  /** Two ends fade in either order with the same result: a cell is taken from its owner once. */
  lemma FadesCommute(v: Variant, p: Point, d: Direction, q: Point, k: Direction)
    ensures FadeAt(FadeAt(v, p, d), q, k) == FadeAt(FadeAt(v, q, k), p, d)
  {
    hide FadeAt, Taken, WithCell, Faded, CellAt;
    if p == q {
      FadesAtOne(v, p, d, k);
      FadesAtOne(v, p, k, d);
      var t := CellAt(v.base.territories, p);
      assert t.mask - {d} - {k} == t.mask - {k} - {d};
    } else {
      FadesApart(v, p, d, q, k);
      FadesApart(v, q, k, p, d);
      var t, u := CellAt(v.base.territories, p), CellAt(v.base.territories, q);
      TakingsCommute(v, t, p, u, q);
      CellsCommute(Taken(Taken(v, t, p), u, q), p, Faded(t, t.mask - {d}), q, Faded(u, u.mask - {k}));
    }
  }

  lemma FadesAtOne(v: Variant, p: Point, d: Direction, k: Direction)
    ensures var t := CellAt(v.base.territories, p);
      FadeAt(FadeAt(v, p, d), p, k) == WithCell(Taken(v, t, p), p, Faded(t, t.mask - {d} - {k}))
  {
    hide FadeAt, WithCell, Debited;
    var t := CellAt(v.base.territories, p);
    FadeIs(v, p, d);
    FadeIs(FadeAt(v, p, d), p, k);
    ShrunkIsNotFull(t.mask, d);
    ShrunkIsNotFull(t.mask - {d}, k);
    CellsCommute(Taken(v, t, p), p, Faded(t, t.mask - {d}), p, Faded(t, t.mask - {d} - {k}));
  }

  lemma FadesApart(v: Variant, p: Point, d: Direction, q: Point, k: Direction)
    requires p != q
    ensures var t, u := CellAt(v.base.territories, p), CellAt(v.base.territories, q);
      FadeAt(FadeAt(v, p, d), q, k)
      == WithCell(WithCell(Taken(Taken(v, t, p), u, q), p, Faded(t, t.mask - {d})), q, Faded(u, u.mask - {k}))
  {
    hide FadeAt, WithCell, Taken, Faded;
    var t, u := CellAt(v.base.territories, p), CellAt(v.base.territories, q);
    FadeIs(v, p, d);
    FadeIs(FadeAt(v, p, d), q, k);
    CellKeepsTaking(Taken(v, t, p), p, Faded(t, t.mask - {d}), u, q);
  }

  lemma DropsCommute(v: Variant, e: Edge, f: Edge)
    ensures Dropped(Dropped(v, e), f) == Dropped(Dropped(v, f), e)
  {
  }

  lemma DropFades(v: Variant, e: Edge, p: Point, d: Direction)
    ensures Dropped(FadeAt(v, p, d), e) == FadeAt(Dropped(v, e), p, d)
    ensures FadeAt(v, p, d).base.board == v.base.board
  {
    hide FadeAt, WithCell, Faded, Dropped, Taken;
    var t := CellAt(v.base.territories, p);
    FadeIs(v, p, d);
    DroppedBoard(v, e);
    FadeIs(Dropped(v, e), p, d);
    DropTakes(v, e, t, p);
    DropCell(Taken(v, t, p), e, p, Faded(t, t.mask - {d}));
    FadeFrame(v, p, d);
  }

  lemma DropTakes(v: Variant, e: Edge, t: Territory, p: Point)
    ensures Dropped(Taken(v, t, p), e) == Taken(Dropped(v, e), t, p)
  {
    hide Deducted, Reduced, WeightOf, TeamOf;
  }

  lemma DropCell(v: Variant, e: Edge, p: Point, t: Territory)
    ensures Dropped(WithCell(v, p, t), e) == WithCell(Dropped(v, e), p, t)
  {
  }

  /** Two trails expire in either order with the same result, on every state. */
  lemma UnlaysCommute(v: Variant, e: Edge, f: Edge)
    ensures Unlay(Unlay(v, e), f) == Unlay(Unlay(v, f), e)
  {
    hide FadeAt, Dropped, HeadingTo;
    var b := v.base.board;
    var ea, eb, fa, fb := HeadingTo(b, e.a, e.b), HeadingTo(b, e.b, e.a),
        HeadingTo(b, f.a, f.b), HeadingTo(b, f.b, f.a);
    var ve, vf := Dropped(v, e), Dropped(v, f);
    var w := Dropped(ve, f);
    DropsCommute(v, e, f);
    UnlayedLast(v, e, f);
    UnlayedLast(v, f, e);
    var we, wf := FadeAt(w, e.a, ea), FadeAt(w, f.a, fa);
    calc {
      FadeAt(FadeAt(FadeAt(we, e.b, eb), f.a, fa), f.b, fb);
    == { FadesCommute(we, e.b, eb, f.a, fa); FadesCommute(w, e.a, ea, f.a, fa); }
      FadeAt(FadeAt(FadeAt(wf, e.a, ea), e.b, eb), f.b, fb);
    == { FadesCommute(FadeAt(wf, e.a, ea), e.b, eb, f.b, fb); FadesCommute(wf, e.a, ea, f.b, fb); }
      FadeAt(FadeAt(FadeAt(wf, f.b, fb), e.a, ea), e.b, eb);
    }
  }

  /** Both trails can be dropped before the four ends fade. */
  lemma UnlayedLast(v: Variant, e: Edge, f: Edge)
    ensures var b := v.base.board; var w := Dropped(Dropped(v, e), f);
      var we := FadeAt(FadeAt(w, e.a, HeadingTo(b, e.a, e.b)), e.b, HeadingTo(b, e.b, e.a));
      Unlay(Unlay(v, e), f) == FadeAt(FadeAt(we, f.a, HeadingTo(b, f.a, f.b)), f.b, HeadingTo(b, f.b, f.a))
  {
    hide FadeAt, HeadingTo, Dropped;
    var b := v.base.board;
    var v1 := FadeAt(Dropped(v, e), e.a, HeadingTo(b, e.a, e.b));
    DropFades(Dropped(v, e), f, e.a, HeadingTo(b, e.a, e.b));
    DropFades(v1, f, e.b, HeadingTo(b, e.b, e.a));
    DroppedBoard(v, e);
  }

  lemma DroppedBoard(v: Variant, e: Edge)
    ensures Dropped(v, e).base.board == v.base.board && Dropped(v, e).base.territories == v.base.territories
  {
  }

  /** Trails can expire one by one in any order with the same result, on every state. */
  lemma {:induction false} WithoutMore(v: Variant, es: set<Edge>, e: Edge)
    requires e !in es
    ensures Unlay(Without(v, es), e) == Without(v, es + {e})
    decreases |es|
  {
    hide Unlay;
    var all := es + {e};
    var p := Pick(all);
    if p == e {
      assert all - {p} == es;
    } else {
      var rest := es - {p};
      assert all - {p} == rest + {e} && rest + {p} == es;
      WithoutMore(v, rest, e);
      WithoutMore(v, rest, p);
      UnlaysCommute(Without(v, rest), e, p);
    }
  }

  // ----- what expiry leaves alone

  ghost predicate SameButScore(ws: seq<Worm>, ws': seq<Worm>) {
    |ws'| == |ws| && forall j :: 0 <= j < |ws| ==> ws'[j] == ws[j].(score := ws'[j].score)
  }

  ghost predicate SameClock(c: Core, c': Core) {
    && c'.board == c.board && c'.tick == c.tick && c'.round == c.round && c'.activeSlot == c.activeSlot
    && c'.pending == c.pending && c'.over == c.over
  }

  lemma TakenFrame(v: Variant, t: Territory, p: Point)
    ensures var w := Taken(v, t, p);
      && w.setup == v.setup && w.energy == v.energy && w.temporary == v.temporary && w.base.trails == v.base.trails
      && SameClock(v.base, w.base) && SameButScore(v.base.worms, w.base.worms)
  {
    hide Reduced, WeightOf, TeamOf, Deducted, SameButScore;
    DeductedFrame(v.base.worms, t.owner);
  }

  lemma DeductedFrame(ws: seq<Worm>, owner: Id)
    ensures SameButScore(ws, Deducted(ws, owner)) && SameButScore(ws, ws)
  {
  }

  lemma FadeFrame(v: Variant, p: Point, d: Direction)
    ensures var w := FadeAt(v, p, d);
      && w.setup == v.setup && w.energy == v.energy && w.temporary == v.temporary && w.base.trails == v.base.trails
      && SameClock(v.base, w.base) && SameButScore(v.base.worms, w.base.worms)
  {
    hide FadeAt, Taken, Faded, SameButScore;
    FadeIs(v, p, d);
    TakenFrame(v, CellAt(v.base.territories, p), p);
  }

  lemma UnlayFrame(v: Variant, e: Edge)
    ensures var w := Unlay(v, e);
      && w.setup == v.setup && w.energy == v.energy && w.temporary == v.temporary - {e}
      && SameClock(v.base, w.base) && SameButScore(v.base.worms, w.base.worms)
      && w.base.trails == v.base.trails - {e}
  {
    hide HeadingTo, FadeAt;
    var v0 := Dropped(v, e);
    FadeFrame(v0, e.a, HeadingTo(v.base.board, e.a, e.b));
    FadeFrame(FadeAt(v0, e.a, HeadingTo(v.base.board, e.a, e.b)), e.b, HeadingTo(v.base.board, e.b, e.a));
  }

  lemma {:induction false} WithoutFrame(v: Variant, es: set<Edge>)
    ensures var w := Without(v, es);
      && w.setup == v.setup && w.energy == v.energy && w.temporary == v.temporary - es
      && w.base.trails == v.base.trails - es
      && SameClock(v.base, w.base) && SameButScore(v.base.worms, w.base.worms)
    decreases |es|
  {
    hide Unlay;
    if es == {} {
      assert v.temporary - es == v.temporary && v.base.trails - es == v.base.trails;
    } else {
      var e := Pick(es);
      WithoutFrame(v, es - {e});
      UnlayFrame(Without(v, es - {e}), e);
      assert v.temporary - (es - {e}) - {e} == v.temporary - es;
      assert v.base.trails - (es - {e}) - {e} == v.base.trails - es;
    }
  }

  // ----- expiry as a recount

  ghost function SpokesIn(b: Board, es: set<Edge>, p: Point): Mask {
    set d | d in FULL && EdgeFrom(b, p, d) in es
  }

  ghost function FadedCells(c: Core, es: set<Edge>): map<Point, Territory> {
    map p | p in c.territories :: Faded(c.territories[p], c.territories[p].mask - SpokesIn(c.board, es, p))
  }

  /**
   * The variant without these trails and every total recounted: what expiry amounts to while the books are in order.
   */
  ghost function Recounted(v: Variant, es: set<Edge>): (r: Variant)
    ensures |r.base.worms| == |v.base.worms|
  {
    Recount(v.(base := v.base.(trails := v.base.trails - es), temporary := v.temporary - es), FadedCells(v.base, es))
  }

  // ----- totals

  lemma {:induction false} WeightSumPick(t: Terrain, cells: set<Point>, q: Point)
    requires q in cells
    ensures WeightSum(t, cells) == WeightOf(t, q) + WeightSum(t, cells - {q})
    decreases |cells|
  {
    var p := Pick(cells);
    if p != q {
      WeightSumPick(t, cells - {p}, q);
      WeightSumPick(t, cells - {q}, p);
      assert cells - {p} - {q} == cells - {q} - {p};
    }
  }

  /** A total moves with the one value that moves. */
  lemma {:induction false} TotalChange(m: map<Id, int>, ids: set<Id>, k: Id, x: int)
    ensures Total(m[k := x], ids) == Total(m, ids) + if k in ids then x - ValueAt(m, k) else 0
    decreases |ids|
  {
    if ids == {} {
    } else {
      var p := Pick(ids);
      TotalChange(m, ids - {p}, k, x);
    }
  }

  lemma OwnedAfterFading(cells: map<Point, Territory>, p: Point, m: Mask, id: Id)
    requires p in cells && id != NOBODY
    ensures var t := cells[p]; var mine := Owned(cells[p := Faded(t, m)], id);
      if m != FULL && t.owner == id
      then p in Owned(cells, id) && mine == Owned(cells, id) - {p}
      else mine == Owned(cells, id)
  {
  }

  lemma DeductedIsRescored(v: Variant, p: Point, d: Direction)
    requires Tallied(v) && p in v.base.territories
    requires var t := v.base.territories[p]; t.owner != NOBODY && t.mask - {d} != FULL
    ensures var t := v.base.territories[p];
      Deducted(v.base.worms, t.owner) == Rescored(v.base.worms, v.base.territories[p := Faded(t, t.mask - {d})])
  {
    var t := v.base.territories[p];
    var ws, cells := v.base.worms, v.base.territories[p := Faded(t, t.mask - {d})];
    var i := WormIndex(ws, t.owner);
    OwnedAfterFading(v.base.territories, p, t.mask - {d}, t.owner);
    forall j | 0 <= j < |ws| ensures Deducted(ws, t.owner)[j] == Rescored(ws, cells)[j] {
      if j != i {
        OwnedAfterFading(v.base.territories, p, t.mask - {d}, ws[j].id);
      }
    }
  }

  lemma ScoredIdsAreWorms(v: Variant, id: Id)
    requires Tallied(v)
    ensures id in v.scores ==> id != NOBODY
    ensures WormIndex(v.base.worms, id) >= 0 ==> id in v.scores
  {
    hide Weighed, ScoresCountCells, OwnersAreWorms;
    assert id in v.scores <==> id in v.scores.Keys;
  }

  lemma ScoreAfterFading(v: Variant, p: Point, m: Mask, id: Id)
    requires Tallied(v) && p in v.base.territories && id in v.scores && m != FULL
    ensures var t := v.base.territories[p];
      WeightSum(v.setup.terrain, Owned(v.base.territories[p := Faded(t, m)], id)) ==
      v.scores[id] - if id == t.owner then WeightOf(v.setup.terrain, p) else 0
  {
    hide Owned, WeightOf, ScoresCountCells, OwnersAreWorms;
    ScoredIdsAreWorms(v, id);
    OwnedAfterFading(v.base.territories, p, m, id);
    var mine := Owned(v.base.territories, id);
    if id == v.base.territories[p].owner {
      WeightSumPick(v.setup.terrain, mine, p);
    }
  }

  lemma OwnerIsScored(v: Variant, p: Point)
    requires Tallied(v) && p in v.base.territories && v.base.territories[p].owner != NOBODY
    ensures v.base.territories[p].owner in v.scores
  {
    hide Weighed, ScoresCountCells;
    ScoredIdsAreWorms(v, v.base.territories[p].owner);
  }

  lemma ReducedIsWeighed(v: Variant, p: Point, d: Direction)
    requires Tallied(v) && p in v.base.territories
    requires var t := v.base.territories[p]; t.owner != NOBODY && t.mask - {d} != FULL
    ensures var t := v.base.territories[p];
      Reduced(v.scores, t.owner, WeightOf(v.setup.terrain, p)) ==
          Weighed(v, v.base.territories[p := Faded(t, t.mask - {d})])
  {
    hide WeightSum, WeightOf, Owned, Tallied, Faded;
    var t := v.base.territories[p];
    var cells := v.base.territories[p := Faded(t, t.mask - {d})];
    assert t.owner in v.scores by { OwnerIsScored(v, p); }
    forall id | id in v.scores
      ensures WeightSum(v.setup.terrain, Owned(cells, id)) ==
              v.scores[id] - if id == t.owner then WeightOf(v.setup.terrain, p) else 0
    {
      ScoreAfterFading(v, p, t.mask - {d}, id);
    }
  }

  /** When one worm's score moves, its team's total moves by as much, and no other team's does. */
  lemma TeamsAfterChange(v: Variant, id: Id, x: int)
    requires forall k :: k in v.setup.teams ==> v.setup.teams[k] != NOBODY
    requires v.teamScores.Keys == v.setup.teams.Values
    ensures var team := TeamOf(v.setup, id); var delta := x - ValueAt(v.scores, id);
      Adjusted(v, v.scores[id := x]) ==
      if team != NOBODY then v.teamScores[team := ValueAt(v.teamScores, team) + delta] else v.teamScores
  {
    var teams := v.setup.teams;
    forall t | t in v.teamScores
      ensures TeamSum(teams, v.scores[id := x], t) ==
              TeamSum(teams, v.scores, t) + if id in teams && teams[id] == t then x - ValueAt(v.scores, id) else 0
    {
      TotalChange(v.scores, Members(teams, t), id, x);
    }
    assert id in teams ==> teams[id] in teams.Values;
  }

  /** The incremental update of one cell is the recount: it keeps every total it touches exact. */
  lemma FadeRecounts(v: Variant, p: Point, d: Direction)
    requires Tallied(v) && p in v.base.territories
    ensures var t := v.base.territories[p];
      FadeAt(v, p, d) == Recount(v, v.base.territories[p := Faded(t, t.mask - {d})])
  {
    var t := v.base.territories[p];
    if t.owner != NOBODY && t.mask - {d} != FULL {
      TakenCellRecounts(v, p, d);
    } else {
      SameOwnersSameCount(v, v.base.territories[p := Faded(t, t.mask - {d})]);
    }
  }

  lemma TakenCellRecounts(v: Variant, p: Point, d: Direction)
    requires Tallied(v) && p in v.base.territories
    requires var t := v.base.territories[p]; t.owner != NOBODY && t.mask - {d} != FULL
    ensures var t := v.base.territories[p];
      FadeAt(v, p, d) == Recount(v, v.base.territories[p := Faded(t, t.mask - {d})])
  {
    hide Deducted, Rescored, Weighed, Adjusted, ScoresCountCells, OwnersAreWorms, UniqueIds, Faded;
    var t := v.base.territories[p];
    DeductedIsRescored(v, p, d);
    ReducedIsWeighed(v, p, d);
    TeamsAfterChange(v, t.owner, ValueAt(v.scores, t.owner) - WeightOf(v.setup.terrain, p));
  }

  lemma SameOwnersSameCount(v: Variant, cells: map<Point, Territory>)
    requires Tallied(v) && cells.Keys == v.base.territories.Keys
    requires forall p :: p in cells ==> cells[p].owner == v.base.territories[p].owner
    ensures Recount(v, cells) == v.(base := v.base.(territories := cells))
  {
    forall id ensures Owned(cells, id) == Owned(v.base.territories, id) {}
    assert Rescored(v.base.worms, cells) == v.base.worms;
    assert Weighed(v, cells) == v.scores;
    assert Adjusted(v, v.scores) == v.teamScores;
  }

  lemma RescoredIds(ws: seq<Worm>, cells: map<Point, Territory>)
    ensures forall i :: 0 <= i < |ws| ==> Rescored(ws, cells)[i].id == ws[i].id
    ensures Ids(Rescored(ws, cells)) == Ids(ws)
    ensures forall id :: WormIndex(Rescored(ws, cells), id) == WormIndex(ws, id)
  {
    SameIds(ws, Rescored(ws, cells));
  }

  lemma RecountTallies(v: Variant, cells: map<Point, Territory>)
    requires Tallied(v)
    requires forall p :: p in cells && cells[p].owner != NOBODY ==> WormIndex(v.base.worms, cells[p].owner) >= 0
    ensures Tallied(Recount(v, cells))
  {
    hide Rescored, ScoresCountCells, Ids, WormIndex, Adjusted;
    RescoredIds(v.base.worms, cells);
    assert ScoresCountCells(Recount(v, cells).base) by { RecountCounts(v, cells); }
    assert Recount(v, cells).teamScores.Keys == v.teamScores.Keys by { AdjustedKeys(v, Weighed(v, cells)); }
    assert Weighed(v, cells).Keys == v.scores.Keys;
  }

  lemma RecountCounts(v: Variant, cells: map<Point, Territory>)
    ensures ScoresCountCells(Recount(v, cells).base)
  {
  }

  lemma AdjustedKeys(v: Variant, scores: map<Id, int>)
    ensures Adjusted(v, scores).Keys == v.teamScores.Keys
  {
  }

  lemma RecountTwice(v: Variant, cells: map<Point, Territory>, cells': map<Point, Territory>)
    ensures Recount(Recount(v, cells), cells') == Recount(v, cells')
  {
    assert Rescored(Rescored(v.base.worms, cells), cells') == Rescored(v.base.worms, cells');
    var mid := Recount(v, cells);
    assert Weighed(mid, cells') == Weighed(v, cells');
    assert Adjusted(mid, Weighed(v, cells')) == Adjusted(v, Weighed(v, cells'));
  }

  // ----- one expired trail

  lemma EdgeHeadings(b: Board, e: Edge)
    requires Regular(b) && OnBoard(b, e)
    ensures var d := HeadingTo(b, e.a, e.b);
      && e.a != e.b && EdgeFrom(b, e.a, d) == e && Neighbor(b, e.a, d) == e.b
      && HeadingTo(b, e.b, e.a) == Opposite(d)
  {
    hide Neighbor;
    var d :| Neighbor(b, e.a, d) == e.b;
    EveryDirection(d);
    EveryDirection(Opposite(d));
    FirstDirectionFinds(b, e.a, d, DIRECTIONS);
    NeighborsDistinct(b, e.a, d, d);
    Reciprocal(b, e.a, d);
    FirstDirectionFinds(b, e.b, Opposite(d), DIRECTIONS);
  }

  /** An edge is a spoke of its two ends only. */
  lemma SpokesOfEdge(b: Board, e: Edge, p: Point)
    requires Regular(b) && OnBoard(b, e) && InBounds(b, p)
    ensures var d := HeadingTo(b, e.a, e.b);
      SpokesIn(b, {e}, p) == if p == e.a then {d} else if p == e.b then {Opposite(d)} else {}
  {
    hide Neighbor, HeadingTo;
    EdgeHeadings(b, e);
    var d := HeadingTo(b, e.a, e.b);
    forall k: Direction ensures k in SpokesIn(b, {e}, p) <==> (p == e.a && k == d) || (p == e.b && k == Opposite(d)) {
      EveryDirection(k);
      SameEdge(b, e.a, d, p, k);
    }
  }

  lemma EndsAreCells(c: Core, e: Edge)
    requires Sound(c) && OnBoard(c.board, e)
    ensures e.a in c.territories && e.b in c.territories && e.a != e.b && Regular(c.board)
  {
    hide OwnedWhenFull, OwnersAreWorms, ScoresCountCells, WormsPlaced, Regular;
    EdgeHeadings(c.board, e);
    CellsAreInBounds(c.board, e.a);
    CellsAreInBounds(c.board, e.b);
  }

  lemma FadedByOne(v: Variant, e: Edge)
    requires Sound(v.base) && OnBoard(v.base.board, e)
    ensures var c := v.base; var d := HeadingTo(c.board, e.a, e.b);
      && e.a in c.territories && e.b in c.territories && e.a != e.b
      && FadedCells(c, {e}) ==
         c.territories[e.a := Faded(c.territories[e.a], c.territories[e.a].mask - {d})]
                      [e.b := Faded(c.territories[e.b], c.territories[e.b].mask - {Opposite(d)})]
  {
    hide HeadingTo, Sound, OnBoard, Faded, SpokesIn;
    var c := v.base;
    EndsAreCells(c, e);
    forall p | p in c.territories ensures FadedCells(c, {e})[p] == FadedAt(c, e, p) {
      FadedAtOne(c, e, p);
    }
  }

  ghost function FadedAt(c: Core, e: Edge, p: Point): Territory
    requires p in c.territories
  {
    var d := HeadingTo(c.board, e.a, e.b);
    if p == e.a then Faded(c.territories[p], c.territories[p].mask - {d})
    else if p == e.b then Faded(c.territories[p], c.territories[p].mask - {Opposite(d)})
    else c.territories[p]
  }

  lemma FadedAtOne(c: Core, e: Edge, p: Point)
    requires Sound(c) && OnBoard(c.board, e) && p in c.territories
    ensures FadedCells(c, {e})[p] == FadedAt(c, e, p)
  {
    hide HeadingTo, Faded, SpokesIn;
    CellsAreInBounds(c.board, p);
    SpokesOfEdge(c.board, e, p);
    FullStays(c, p);
  }

  lemma FullStays(c: Core, p: Point)
    requires Sound(c) && p in c.territories
    ensures Faded(c.territories[p], c.territories[p].mask - {}) == c.territories[p]
  {
  }

  /** Taking one trail away by the incremental update is taking it away and recounting. */
  lemma UnlayIs(v: Variant, e: Edge)
    requires Kept(v) && e in v.temporary
    ensures Unlay(v, e) == Recounted(v, {e})
  {
    hide HeadingTo, FadeAt, Sound, Tallied, Faded, Recount, FadedCells;
    var c := v.base;
    KeptTrail(v, e);
    FadedByOne(v, e);
    EdgeHeadings(c.board, e);
    var d := HeadingTo(c.board, e.a, e.b);
    var v0 := v.(base := c.(trails := c.trails - {e}), temporary := v.temporary - {e});
    TalliedReads(v, v0);
    FadeRecounts(v0, e.a, d);
    var cells := c.territories[e.a := Faded(c.territories[e.a], c.territories[e.a].mask - {d})];
    FadedOwners(v, e.a, d);
    RecountTallies(v0, cells);
    var v1 := Recount(v0, cells);
    RecountedCells(v0, cells);
    FadeRecounts(v1, e.b, Opposite(d));
    RecountTwice(v0, cells, cells[e.b := Faded(c.territories[e.b], c.territories[e.b].mask - {Opposite(d)})]);
  }

  lemma KeptTrail(v: Variant, e: Edge)
    requires Kept(v) && e in v.temporary
    ensures Regular(v.base.board) && OnBoard(v.base.board, e) && e in v.base.trails
  {
    assert e in v.temporary.Keys;
  }

  lemma TalliedReads(v: Variant, v': Variant)
    requires v'.setup == v.setup && v'.scores == v.scores && v'.teamScores == v.teamScores
    requires v'.base.worms == v.base.worms && v'.base.territories == v.base.territories
    ensures Tallied(v') == Tallied(v)
  {
    assert Weighed(v', v.base.territories) == Weighed(v, v.base.territories);
  }

  lemma RecountedCells(v: Variant, cells: map<Point, Territory>)
    ensures var r := Recount(v, cells);
      r.base.territories == cells && r.base.trails == v.base.trails && r.temporary == v.temporary && r.setup == v.setup
      && r.base.board == v.base.board && r.base.tick == v.base.tick
  {
  }

  lemma FadedOwners(v: Variant, p: Point, d: Direction)
    requires Tallied(v) && p in v.base.territories
    ensures var t := v.base.territories[p]; var cells := v.base.territories[p := Faded(t, t.mask - {d})];
      forall q :: q in cells && cells[q].owner != NOBODY ==> WormIndex(v.base.worms, cells[q].owner) >= 0
  {
  }

  // ----- any number of expired trails, in any order

  lemma FadedTwice(t: Territory, a: Mask, b: Mask)
    ensures Faded(Faded(t, t.mask - a), t.mask - a - b) == Faded(t, t.mask - (a + b))
  {
    assert t.mask - a - b == t.mask - (a + b);
    if t.mask - a - b == FULL {
      forall d: Direction ensures d in t.mask - a && d in FULL { EveryDirection(d); assert d in t.mask - a - b; }
      assert t.mask - a == FULL;
    }
  }

  lemma FadedMore(c: Core, c': Core, es: set<Edge>, e: Edge)
    requires c'.board == c.board && c'.territories == FadedCells(c, es)
    ensures FadedCells(c', {e}) == FadedCells(c, es + {e})
  {
    hide Faded;
    forall p | p in c.territories ensures FadedCells(c', {e})[p] == FadedCells(c, es + {e})[p] {
      FadedMoreAt(c, c', es, e, p);
    }
  }

  lemma FadedMoreAt(c: Core, c': Core, es: set<Edge>, e: Edge, p: Point)
    requires c'.board == c.board && c'.territories == FadedCells(c, es) && p in c.territories
    ensures FadedCells(c', {e})[p] == FadedCells(c, es + {e})[p]
  {
    var t := c.territories[p];
    var a, b := SpokesIn(c.board, es, p), SpokesIn(c.board, {e}, p);
    assert SpokesIn(c.board, es + {e}, p) == a + b;
    FadedTwice(t, a, b);
    assert Faded(t, t.mask - a).mask == t.mask - a;
  }

  /** Recounting after one more trail is recounting once after all of them. */
  lemma RecountedMore(v: Variant, es: set<Edge>, e: Edge)
    ensures Recounted(Recounted(v, es), {e}) == Recounted(v, es + {e})
  {
    hide FadedCells, Recount;
    var v1 := v.(base := v.base.(trails := v.base.trails - es), temporary := v.temporary - es);
    var w := Recount(v1, FadedCells(v.base, es));
    RecountedCells(v1, FadedCells(v.base, es));
    FadedMore(v.base, w.base, es, e);
    var cells := FadedCells(v.base, es + {e});
    var w1 := w.(base := w.base.(trails := w.base.trails - {e}), temporary := w.temporary - {e});
    SameColumns(v.base.trails, es, e);
    SameColumns(v.temporary, es, e);
    var v2 := v.(base := v.base.(trails := v.base.trails - (es + {e})), temporary := v.temporary - (es + {e}));
    RecountReads(v1, v2, FadedCells(v.base, es));
    RecountReads(w1, Recount(v2, FadedCells(v.base, es)), cells);
    RecountTwice(v2, FadedCells(v.base, es), cells);
  }

  lemma SameColumns<V>(m: map<Edge, V>, es: set<Edge>, e: Edge)
    ensures m - es - {e} == m - (es + {e})
  {
  }

  /** A recount reads neither the trails nor the expiries. */
  lemma RecountReads(v: Variant, v': Variant, cells: map<Point, Territory>)
    requires v' == v.(base := v.base.(trails := v'.base.trails), temporary := v'.temporary)
    ensures Recount(v', cells) ==
            Recount(v, cells).(base := Recount(v, cells).base.(trails := v'.base.trails), temporary := v'.temporary)
  {
    assert Weighed(v', cells) == Weighed(v, cells);
    assert Adjusted(v', Weighed(v, cells)) == Adjusted(v, Weighed(v, cells));
  }

  /** Fewer trails, and masks that are still theirs. */
  lemma FadedMasks(c: Core, es: set<Edge>, p: Point)
    requires p in c.territories && c.territories[p].mask == SpokeMask(c, p)
    ensures FadedCells(c, es)[p].mask == Spokes(c.board, c.trails - es, p)
  {
  }

  lemma FadedOwnership(c: Core, es: set<Edge>, p: Point)
    requires p in c.territories && (c.territories[p].owner != NOBODY <==> c.territories[p].mask == FULL)
    ensures var t := FadedCells(c, es)[p];
      (t.owner != NOBODY <==> t.mask == FULL) && (t.owner != NOBODY ==> t.owner == c.territories[p].owner)
  {
    var m := c.territories[p].mask - SpokesIn(c.board, es, p);
    if m == FULL {
      forall d: Direction ensures d in c.territories[p].mask { EveryDirection(d); assert d in m; }
      assert c.territories[p].mask == FULL;
    }
  }

  lemma RecountedKeeps(v: Variant, es: set<Edge>)
    requires Kept(v) && es <= v.temporary.Keys
    ensures Kept(Recounted(v, es))
    ensures TeamsAgree(v) ==> TeamsAgree(Recounted(v, es))
  {
    hide FadedCells, Recount, Sound, Tallied;
    var v1 := v.(base := v.base.(trails := v.base.trails - es), temporary := v.temporary - es);
    TalliedReads(v, v1);
    var cells := FadedCells(v.base, es);
    CellsStaySound(v.base, es);
    RecountTallies(v1, cells);
    RecountedCells(v1, cells);
    SoundAfterRecount(v, v1, cells);
    TeamsAfterRecount(v1, cells);
  }

  lemma CellsStaySound(c: Core, es: set<Edge>)
    requires Sound(c)
    ensures FadedCells(c, es).Keys == c.territories.Keys
    ensures forall p :: p in c.territories ==>
              var t := FadedCells(c, es)[p];
              && t.mask == Spokes(c.board, c.trails - es, p) && (t.owner != NOBODY <==> t.mask == FULL)
              && (t.owner != NOBODY ==> WormIndex(c.worms, t.owner) >= 0)
  {
    hide Spokes, WormsPlaced, ScoresCountCells;
    forall p | p in c.territories
      ensures var t := FadedCells(c, es)[p];
              && t.mask == Spokes(c.board, c.trails - es, p) && (t.owner != NOBODY <==> t.mask == FULL)
              && (t.owner != NOBODY ==> WormIndex(c.worms, t.owner) >= 0)
    {
      FadedMasks(c, es, p);
      FadedOwnership(c, es, p);
    }
  }

  lemma SoundAfterRecount(v: Variant, v1: Variant, cells: map<Point, Territory>)
    requires Sound(v.base) && Tallied(Recount(v1, cells))
    requires v1.base == v.base.(trails := v1.base.trails) && v1.base.trails.Keys <= v.base.trails.Keys
    requires cells.Keys == v.base.territories.Keys
    requires forall p :: p in cells ==>
               cells[p].mask == Spokes(v.base.board, v1.base.trails, p) &&
                   (cells[p].owner != NOBODY <==> cells[p].mask == FULL)
    ensures Sound(Recount(v1, cells).base)
  {
    hide Spokes, Adjusted, Weighed;
    RescoredIds(v.base.worms, cells);
    var c := Recount(v1, cells).base;
    assert MasksInSync(c) && OwnedWhenFull(c);
    assert WormsPlaced(c) by {
      forall i | 0 <= i < |c.worms| ensures c.worms[i].alive ==> InBounds(c.board, c.worms[i].position) {
        assert v.base.worms[i].alive ==> InBounds(c.board, v.base.worms[i].position);
      }
    }
  }

  lemma TeamsAfterRecount(v: Variant, cells: map<Point, Territory>)
    ensures TeamsAgree(v) ==> TeamsAgree(Recount(v, cells))
  {
  }

  lemma RecountedNone(v: Variant)
    requires Kept(v)
    ensures Recounted(v, {}) == v
  {
    hide Sound, Faded, Recount;
    assert v.base.trails - {} == v.base.trails && v.temporary - {} == v.temporary;
    forall p | p in v.base.territories ensures FadedCells(v.base, {})[p] == v.base.territories[p] {
      assert SpokesIn(v.base.board, {}, p) == {};
      FullStays(v.base, p);
    }
    assert FadedCells(v.base, {}) == v.base.territories;
    SameOwnersSameCount(v, v.base.territories);
  }

  /** While the books are in order, expiring any set of live trails one by one is one recount. */
  lemma {:induction false} WithoutRecounts(v: Variant, es: set<Edge>)
    requires Kept(v) && es <= v.temporary.Keys
    ensures Without(v, es) == Recounted(v, es)
    decreases |es|
  {
    hide Kept, Recounted, Unlay;
    if es == {} {
      RecountedNone(v);
    } else {
      var e := Pick(es);
      var rest := es - {e};
      WithoutRecounts(v, rest);
      RecountedKeeps(v, rest);
      StillTemporary(v, rest, e);
      UnlayIs(Recounted(v, rest), e);
      RecountedMore(v, rest, e);
      assert rest + {e} == es;
    }
  }

  lemma StillTemporary(v: Variant, es: set<Edge>, e: Edge)
    requires e in v.temporary && e !in es
    ensures e in Recounted(v, es).temporary
  {
  }

  /** Expiring trails keep every total exact: masks, ownership, cell counts, weighted scores and team scores. */
  lemma WithoutKeeps(v: Variant, es: set<Edge>)
    requires Kept(v) && es <= v.temporary.Keys
    ensures Kept(Without(v, es))
    ensures TeamsAgree(v) ==> TeamsAgree(Without(v, es))
  {
    hide Kept, Recounted, Without, TeamsAgree;
    WithoutRecounts(v, es);
    RecountedKeeps(v, es);
  }
}
