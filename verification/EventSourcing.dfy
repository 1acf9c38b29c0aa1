/** The proof that replaying an emitted log rebuilds the state. */
module EventSourcing {
  import opened Geometry
  import opened HalfEdges
  import opened Engine
  import opened Ledger
  import opened Rounds
  import opened Frames
  import opened Progress
  import opened EventLog
  import opened Wrappers

  /** Replaying the log from c gives exactly c'. */
  ghost predicate Rebuilds(c: Core, log: seq<Draft>, c': Core) {
    ApplyAll(c, log) == Ok(c')
  }

  lemma {:induction false} RebuildsConcat(a: Core, x: seq<Draft>, b: Core, y: seq<Draft>, c: Core)
    requires Rebuilds(a, x, b) && Rebuilds(b, y, c)
    ensures Rebuilds(a, x + y, c)
    decreases |x|
  {
    hide Apply;
    if x == [] {
      assert x + y == y;
    } else {
      assert (x + y)[1..] == x[1..] + y;
      RebuildsConcat(Apply(a, x[0]).value, x[1..], b, y, c);
    }
  }

  lemma RebuildsOne(a: Core, e: Draft, b: Core)
    requires Apply(a, e) == Ok(b)
    ensures Rebuilds(a, [e], b)
  {
    hide Apply;
    assert ApplyAll(b, [e][1..]) == Ok(b);
  }

  // ----- a move

  lemma {:induction false} FirstDirectionFinds(b: Board, from: Point, d: Direction, dirs: seq<Direction>)
    requires Regular(b) && InBounds(b, from) && d in dirs
    ensures FirstDirection(b, from, Neighbor(b, from, d), dirs) == Some(d)
    decreases |dirs|
  {
    hide Neighbor;
    NeighborsDistinct(b, from, dirs[0], d);
    if dirs[0] != d {
      FirstDirectionFinds(b, from, d, dirs[1..]);
    }
  }

  /** Replaying what happened to one cell of a move settles that cell and scores its capture. */
  lemma NewsRebuild(c: Core, i: nat, p: Point, t: Territory, d: Direction, color: Color)
    requires i < |c.worms| && WormIndex(c.worms, c.worms[i].id) == i
    requires CellAt(c.territories, p) == t && t.owner == NOBODY
    ensures Rebuilds(c, EmitAll(c.tick, c.round, SettleNews(t, t.mask + {d}, c.worms[i].id, color, p)),
                     c.(territories := c.territories[p := Drawn(t, d, c.worms[i].id, color)],
                        worms := c.worms[i := c.worms[i].(score := c.worms[i].score + Gain(t, d))]))
  {
    var m := t.mask + {d};
    var id := c.worms[i].id;
    var news := SettleNews(t, m, id, color, p);
    var body := if m == FULL then TerritoryCaptured(id, p, color, 1, FULL) else TerritoryColorChanged(id, p, color, m);
    assert news == [body];
    var e := Draft(c.tick, c.round, body);
    assert EmitAll(c.tick, c.round, news) == [e];
    assert c.worms[i := c.worms[i]] == c.worms;
    RebuildsOne(c, e, c.(territories := c.territories[p := Drawn(t, d, id, color)],
                         worms := c.worms[i := c.worms[i].(score := c.worms[i].score + Gain(t, d))]));
  }

  lemma EmitConcat(tick: nat, round: nat, a: seq<Body>, b: seq<Body>)
    ensures EmitAll(tick, round, a + b) == EmitAll(tick, round, a) + EmitAll(tick, round, b)
  {
  }

  /** The states a replay passes through between the events of a move. */
  ghost function Claimed(c: Core, i: nat, d: Direction): Core
    requires i < |c.worms|
  {
    c.(tick := c.tick + 1, trails := c.trails[EdgeFrom(c.board, c.worms[i].position, d) := c.worms[i].id])
  }

  ghost function SourceSettled(c: Core, i: nat, d: Direction): Core
    requires i < |c.worms|
  {
    var w := c.worms[i];
    var t := CellAt(c.territories, w.position);
    Claimed(c, i, d).(territories := c.territories[w.position := Drawn(t, d, w.id, TrailColor(w))],
                      worms := c.worms[i := w.(score := w.score + Gain(t, d))])
  }

  ghost function BothSettled(c: Core, i: nat, d: Direction): Core
    requires i < |c.worms|
  {
    var w := c.worms[i];
    var source, target := CellAt(c.territories, w.position), CellAt(c.territories, Target(c, i, d));
    Claimed(c, i, d).(territories := MovedCells(c, i, d),
      worms := c.worms[i := w.(score := w.score + Gain(source, d) + Gain(target, Opposite(d)))])
  }

  ghost function Relocated(c: Core, i: nat, d: Direction): Core
    requires i < |c.worms|
  {
    var w := BothSettled(c, i, d).worms[i];
    WithWorm(BothSettled(c, i, d), i,
             w.(position := Target(c, i, d), previous := Some(d), crix := Some(Opposite(d))))
  }

  lemma ClaimRebuilds(c: Core, i: nat, d: Direction, m: Mask)
    requires i < |c.worms| && EdgeFrom(c.board, c.worms[i].position, d) !in c.trails
    ensures var w := c.worms[i]; var to := Target(c, i, d);
      Rebuilds(c,
               [Draft(c.tick + 1, c.round,
                      TrailClaimed(w.id, w.position, to, NewEdge(w.position, to), TrailColor(w), m))],
               Claimed(c, i, d))
  {
    hide Neighbor;
    var w := c.worms[i];
    var to := Target(c, i, d);
    RebuildsOne(c, Draft(c.tick + 1, c.round,
                         TrailClaimed(w.id, w.position, to, NewEdge(w.position, to), TrailColor(w), m)),
                Claimed(c, i, d));
  }

  ghost predicate Named(c: Core, i: nat) {
    i < |c.worms| && WormIndex(c.worms, c.worms[i].id) == i
  }

  lemma NamedFrame(c: Core, c': Core, i: nat)
    requires Named(c, i) && |c'.worms| == |c.worms|
    requires forall j :: 0 <= j < |c.worms| ==> c'.worms[j].id == c.worms[j].id
    ensures Named(c', i)
  {
    SameIds(c.worms, c'.worms);
  }

  lemma SettlingRebuilds(c: Core, i: nat, d: Direction)
    requires AtSite(c, i, d) && Named(c, i)
    ensures var w := c.worms[i]; var from, to := w.position, Target(c, i, d);
      var s, t := c.territories[from], c.territories[to];
      && Rebuilds(Claimed(c, i, d),
          EmitAll(c.tick + 1, c.round, SettleNews(s, s.mask + {d}, w.id, TrailColor(w), from)),
                  SourceSettled(c, i, d))
      && Rebuilds(SourceSettled(c, i, d),
                  EmitAll(c.tick + 1, c.round, SettleNews(t, t.mask + {Opposite(d)}, w.id, TrailColor(w), to)),
                  BothSettled(c, i, d))
  {
    hide Rebuilds, Refreshed, SettleNews, Neighbor;
    var w := c.worms[i];
    var from, to := w.position, Target(c, i, d);
    NamedFrame(c, Claimed(c, i, d), i);
    NewsRebuild(Claimed(c, i, d), i, from, c.territories[from], d, TrailColor(w));
    NamedFrame(c, SourceSettled(c, i, d), i);
    NewsRebuild(SourceSettled(c, i, d), i, to, c.territories[to], Opposite(d), TrailColor(w));
    var w' := BothSettled(c, i, d).worms[i];
    assert c.worms[i := SourceSettled(c, i, d).worms[i]][i := w'] == c.worms[i := w'];
  }

  lemma RelocationRebuilds(c: Core, i: nat, d: Direction)
    requires AtSite(c, i, d) && Named(c, i) && c.worms[i].alive &&
             Regular(c.board) && InBounds(c.board, c.worms[i].position)
    ensures var w := c.worms[i]; var to := Target(c, i, d);
      Rebuilds(BothSettled(c, i, d),
               [Draft(c.tick + 1, c.round, WormMoved(w.id, w.position, to, NewEdge(w.position, to), TrailColor(w)))],
               Relocated(c, i, d))
  {
    hide Neighbor, Refreshed, Regular;
    var w := c.worms[i];
    var to := Target(c, i, d);
    var b := BothSettled(c, i, d);
    NamedFrame(c, b, i);
    EveryDirection(d);
    FirstDirectionFinds(c.board, w.position, d, DIRECTIONS);
    RebuildsOne(b, Draft(c.tick + 1, c.round, WormMoved(w.id, w.position, to, NewEdge(w.position, to), TrailColor(w))),
                Relocated(c, i, d));
  }

  lemma DeathRebuilds(c: Core, i: nat, d: Direction)
    requires AtSite(c, i, d) && Named(c, i) && c.worms[i].alive
    ensures var w := c.worms[i]; var to := Target(c, i, d);
      var dies := c.territories[to].mask + {Opposite(d)} == FULL;
      Rebuilds(Relocated(c, i, d), EmitAll(c.tick + 1, c.round, if dies then [WormDied(w.id, to)] else []),
               Moved(c, i, d))
  {
    hide Neighbor, Refreshed;
    var w := c.worms[i];
    var to := Target(c, i, d);
    var r := Relocated(c, i, d);
    NamedFrame(c, r, i);
    if c.territories[to].mask + {Opposite(d)} == FULL {
      var e := Draft(c.tick + 1, c.round, WormDied(w.id, to));
      assert EmitAll(c.tick + 1, c.round, [WormDied(w.id, to)]) == [e];
      assert Fall(r, i).worms == Moved(c, i, d).worms;
      RebuildsOne(r, e, Moved(c, i, d));
    } else {
      assert r.worms == Moved(c, i, d).worms;
    }
  }

  lemma MoveChain(c: Core, i: nat, d: Direction)
    requires AtSite(c, i, d) && Named(c, i) && c.worms[i].alive &&
             Regular(c.board) && InBounds(c.board, c.worms[i].position)
    requires EdgeFrom(c.board, c.worms[i].position, d) !in c.trails
    ensures Rebuilds(c, Move(c, i, d).log, Moved(c, i, d))
  {
    hide Rebuilds, Regular, InBounds, Claimed, SourceSettled, BothSettled, Relocated, Moved, Named;
    var w := c.worms[i];
    var from, to := w.position, Target(c, i, d);
    var s, t := c.territories[from], c.territories[to];
    var tick, round := c.tick + 1, c.round;
    var claim := [TrailClaimed(w.id, from, to, NewEdge(from, to), TrailColor(w), s.mask + {d})];
    var news := SettleNews(s, s.mask + {d}, w.id, TrailColor(w), from);
    var news' := SettleNews(t, t.mask + {Opposite(d)}, w.id, TrailColor(w), to);
    var moved := [WormMoved(w.id, from, to, NewEdge(from, to), TrailColor(w))];
    var death := if t.mask + {Opposite(d)} == FULL then [WormDied(w.id, to)] else [];
    MoveLog(c, i, d);
    assert Move(c, i, d).log == EmitAll(tick, round, claim + news + news' + moved + death);
    EmitConcat(tick, round, claim, news);
    EmitConcat(tick, round, claim + news, news');
    EmitConcat(tick, round, claim + news + news', moved);
    EmitConcat(tick, round, claim + news + news' + moved, death);
    var e0, e1, e2, e3 := EmitAll(tick, round, claim), EmitAll(tick, round, news), EmitAll(tick, round, news'),
                          EmitAll(tick, round, moved);
    assert e0 == [Draft(tick, round, claim[0])] && e3 == [Draft(tick, round, moved[0])];
    ClaimRebuilds(c, i, d, s.mask + {d});
    SettlingRebuilds(c, i, d);
    RelocationRebuilds(c, i, d);
    DeathRebuilds(c, i, d);
    RebuildsConcat(c, e0, Claimed(c, i, d), e1, SourceSettled(c, i, d));
    RebuildsConcat(c, e0 + e1, SourceSettled(c, i, d), e2, BothSettled(c, i, d));
    RebuildsConcat(c, e0 + e1 + e2, BothSettled(c, i, d), e3, Relocated(c, i, d));
    RebuildsConcat(c, e0 + e1 + e2 + e3, Relocated(c, i, d), EmitAll(tick, round, death), Moved(c, i, d));
  }

  /** The events of a move, in order. */
  lemma MoveLog(c: Core, i: nat, d: Direction)
    requires AtSite(c, i, d)
    ensures var w := c.worms[i]; var from, to := w.position, Target(c, i, d);
      var s, t := c.territories[from], c.territories[to];
      Move(c, i, d).log == EmitAll(c.tick + 1, c.round,
        [TrailClaimed(w.id, from, to, NewEdge(from, to), TrailColor(w), s.mask + {d})]
        + SettleNews(s, s.mask + {d}, w.id, TrailColor(w), from)
        + SettleNews(t, t.mask + {Opposite(d)}, w.id, TrailColor(w), to)
        + [WormMoved(w.id, from, to, NewEdge(from, to), TrailColor(w))]
        + if t.mask + {Opposite(d)} == FULL then [WormDied(w.id, to)] else [])
  {
    hide Neighbor, SettleNews, Settle, Points;
  }

  // ----- when a replay is faithful

  /**
   * The start of a replay: masks in sync on a regular board, trails on it, and worms with their own names placed on
   * it.
   */
  ghost predicate Placed(c: Core) {
    Regular(c.board) && AllOnBoard(c.board, c.trails.Keys) && MasksInSync(c) && WormsPlaced(c)
  }

  /** No event of the log reports on a cell that has an owner: none ever does, so such a cell is never rewritten. */
  ghost predicate Quiet(cells: map<Point, Territory>, log: seq<Draft>) {
    forall k :: 0 <= k < |log| ==>
      var e := log[k].body;
      e.TerritoryColorChanged? || e.TerritoryCaptured? ==> CellAt(cells, e.territory).owner == NOBODY
  }

  /** Owned cells keep their owners and spokes, and only complete cells are newly owned. */
  ghost predicate Grown(cells: map<Point, Territory>, cells': map<Point, Territory>) {
    && (forall p :: p in cells && cells[p].owner != NOBODY ==>
          && p in cells' && cells'[p].owner == cells[p].owner && cells'[p].color == cells[p].color
          && cells[p].mask <= cells'[p].mask)
    && forall p :: p in cells' && cells'[p].owner != NOBODY ==>
         (p in cells && cells[p].owner != NOBODY) || cells'[p].mask == FULL
  }

  /** The log reports a trail that begins or ends at p. */
  predicate DrawsAt(log: seq<Draft>, p: Point) {
    exists k :: 0 <= k < |log| && log[k].body.TrailClaimed? && (log[k].body.from == p || log[k].body.to == p)
  }

  /** No trail of the log begins or ends at a cell that has an owner. */
  predicate Spares(cells: map<Point, Territory>, log: seq<Draft>) {
    forall k :: 0 <= k < |log| && log[k].body.TrailClaimed? ==>
      CellAt(cells, log[k].body.from).owner == NOBODY && CellAt(cells, log[k].body.to).owner == NOBODY
  }

  /** The owned cells that have changed are exactly those where the log draws a trail. */
  ghost predicate Drawing(cells: map<Point, Territory>, log: seq<Draft>, cells': map<Point, Territory>) {
    forall p :: p in cells && cells[p].owner != NOBODY ==>
      p in cells' && (cells'[p] == cells[p] <==> !DrawsAt(log, p))
  }

  /** The log takes c to c', and replaying it rebuilds c' provided no owned cell has gained a spoke. */
  ghost predicate Faithful(c: Core, log: seq<Draft>, c': Core) {
    && Placed(c') && Grown(c.territories, c'.territories) && Quiet(c.territories, log)
    && Drawing(c.territories, log, c'.territories)
    && (OwnersKept(c.territories, c'.territories) ==> Rebuilds(c, log, c'))
  }

  /** An event that does not report on a cell leaves the cell alone. */
  lemma {:induction false} UntouchedCell(c: Core, log: seq<Draft>, x: Core, p: Point)
    requires Rebuilds(c, log, x) && p in c.territories
    requires forall k :: 0 <= k < |log| ==>
               var e := log[k].body; e.TerritoryColorChanged? || e.TerritoryCaptured? ==> e.territory != p
    ensures p in x.territories && x.territories[p] == c.territories[p]
    decreases |log|
  {
    hide Apply;
    if log == [] {
    } else {
      EventLeaves(c, log[0], p);
      UntouchedCell(Apply(c, log[0]).value, log[1..], x, p);
    }
  }

  lemma EventLeaves(c: Core, e: Draft, p: Point)
    requires p in c.territories && Apply(c, e).Ok?
    requires e.body.TerritoryColorChanged? || e.body.TerritoryCaptured? ==> e.body.territory != p
    ensures var c' := Apply(c, e).value; p in c'.territories && c'.territories[p] == c.territories[p]
  {
    hide RecordedDirection;
  }

  /** What a quiet log rebuilds has the owned cells as they were. */
  lemma QuietKeepsOwners(c: Core, log: seq<Draft>, c': Core)
    requires Quiet(c.territories, log) && Rebuilds(c, log, c')
    ensures OwnersKept(c.territories, c'.territories)
  {
    hide Rebuilds;
    forall p | p in c.territories && c.territories[p].owner != NOBODY
      ensures p in c'.territories && c'.territories[p] == c.territories[p]
    {
      UntouchedCell(c, log, c', p);
    }
  }

  /** Whether owned cells have been left alone can be read off the log. */
  lemma SparedExactly(cells: map<Point, Territory>, log: seq<Draft>, cells': map<Point, Territory>)
    requires Drawing(cells, log, cells')
    ensures OwnersKept(cells, cells') <==> Spares(cells, log)
  {
    if OwnersKept(cells, cells') {
      forall k | 0 <= k < |log| && log[k].body.TrailClaimed?
        ensures CellAt(cells, log[k].body.from).owner == NOBODY && CellAt(cells, log[k].body.to).owner == NOBODY
      {
        assert DrawsAt(log, log[k].body.from) && DrawsAt(log, log[k].body.to);
      }
    }
  }

  /** A faithful log rebuilds its end exactly when it draws no trail at an owned cell. */
  lemma FaithfulExactly(c: Core, log: seq<Draft>, c': Core)
    requires Faithful(c, log, c')
    ensures Rebuilds(c, log, c') <==> Spares(c.territories, log)
    ensures OwnersKept(c.territories, c'.territories) <==> Spares(c.territories, log)
  {
    hide Rebuilds, Placed, Grown, Quiet, OwnersKept, Spares, Drawing;
    SparedExactly(c.territories, log, c'.territories);
    if Rebuilds(c, log, c') {
      QuietKeepsOwners(c, log, c');
    }
  }

  lemma FullIsMost(m: Mask)
    ensures FULL <= m ==> m == FULL
  {
    if FULL <= m {
      forall d: Direction ensures d in FULL { EveryDirection(d); }
    }
  }

  lemma GrownTwice(a: map<Point, Territory>, b: map<Point, Territory>, c: map<Point, Territory>)
    requires Grown(a, b) && Grown(b, c)
    ensures Grown(a, c)
    ensures OwnersKept(a, c) ==> OwnersKept(a, b) && OwnersKept(b, c)
  {
    forall p | p in c && c[p].owner != NOBODY ensures (p in a && a[p].owner != NOBODY) || c[p].mask == FULL {
      FullIsMost(c[p].mask);
    }
    if OwnersKept(a, c) {
      forall p | p in b && b[p].owner != NOBODY ensures p in c && c[p] == b[p] {
        FullIsMost(c[p].mask);
      }
    }
  }

  lemma QuietConcat(a: map<Point, Territory>, x: seq<Draft>, b: map<Point, Territory>, y: seq<Draft>)
    requires Quiet(a, x) && Grown(a, b) && Quiet(b, y)
    ensures Quiet(a, x + y)
  {
    forall k | 0 <= k < |x + y| && ((x + y)[k].body.TerritoryColorChanged? || (x + y)[k].body.TerritoryCaptured?)
      ensures CellAt(a, (x + y)[k].body.territory).owner == NOBODY
    {
      if k < |x| {
        assert (x + y)[k] == x[k];
      } else {
        assert (x + y)[k] == y[k - |x|];
      }
    }
  }

  lemma DrawsAtConcat(x: seq<Draft>, y: seq<Draft>, p: Point)
    ensures DrawsAt(x + y, p) <==> DrawsAt(x, p) || DrawsAt(y, p)
  {
    var z := x + y;
    assert forall k :: 0 <= k < |x| ==> z[k] == x[k];
    assert forall k :: 0 <= k < |y| ==> z[|x| + k] == y[k];
    assert forall k :: |x| <= k < |z| ==> z[k] == y[k - |x|];
  }

  lemma DrawingConcat(a: map<Point, Territory>, x: seq<Draft>, b: map<Point, Territory>, y: seq<Draft>,
                      c: map<Point, Territory>)
    requires Grown(a, b) && Grown(b, c) && Drawing(a, x, b) && Drawing(b, y, c)
    ensures Drawing(a, x + y, c)
  {
    hide DrawsAt;
    forall p | p in a && a[p].owner != NOBODY ensures p in c && (c[p] == a[p] <==> !DrawsAt(x + y, p)) {
      DrawsAtConcat(x, y, p);
      assert c[p] == a[p] ==> b[p].mask == a[p].mask;
    }
  }

  lemma FaithfulConcat(a: Core, x: seq<Draft>, b: Core, y: seq<Draft>, c: Core)
    requires Faithful(a, x, b) && Faithful(b, y, c)
    ensures Faithful(a, x + y, c)
  {
    hide Rebuilds, Placed, Grown, Quiet, OwnersKept, Drawing;
    DrawingConcat(a.territories, x, b.territories, y, c.territories);
    GrownTwice(a.territories, b.territories, c.territories);
    QuietConcat(a.territories, x, b.territories, y);
    if OwnersKept(a.territories, c.territories) {
      RebuildsConcat(a, x, b, y, c);
    }
  }

  /** What changes only rules, uses, lives and the controller's own fields is faithful if it rebuilds. */
  lemma FrameFaithful(c: Core, log: seq<Draft>, c': Core)
    requires Placed(c) && SameLedger(c, c') && Rebuilds(c, log, c')
    requires forall k :: 0 <= k < |log| ==>
               var e := log[k].body; !e.TerritoryColorChanged? && !e.TerritoryCaptured? && !e.TrailClaimed?
    ensures Faithful(c, log, c')
  {
    hide Rebuilds, Regular;
  }

  lemma PlacedFrame(c: Core, c': Core)
    requires Placed(c) && SameLedger(c, c')
    ensures Placed(c')
  {
    hide Regular;
  }

  // ----- a move from any placed state

  /** Both ends of the move are cells of the board, to be settled with exactly one more spoke. */
  lemma PlacedSite(c: Core, i: nat, d: Direction)
    requires Placed(c) && CanMove(c, i, d)
    ensures var w := c.worms[i]; var from, to := w.position, Target(c, i, d);
      && from in c.territories && to in c.territories && from != to
      && InBounds(c.board, from) && InBounds(c.board, to) && EdgeFrom(c.board, from, d) !in c.trails
      && d !in c.territories[from].mask && Opposite(d) !in c.territories[to].mask
      && var trails := c.trails[NewEdge(from, to) := w.id];
      && Refreshed(c.board, trails, c.territories, from) == c.territories[from].mask + {d}
      && Refreshed(c.board, trails, c.territories, to) == c.territories[to].mask + {Opposite(d)}
  {
    hide AllOnBoard, Neighbor;
    var w := c.worms[i];
    var from, to := w.position, Target(c, i, d);
    CellsAreInBounds(c.board, from);
    CellsAreInBounds(c.board, to);
    NeighborsDistinct(c.board, from, d, d);
    FreeSpokeAtOtherEnd(c, from, d);
    SpokesAfterTrail(c.board, c.trails, from, d, w.id, from);
    SpokesAfterTrail(c.board, c.trails, from, d, w.id, to);
  }

  /** The cells after a move between two different cells: both ends are settled with their refreshed masks. */
  lemma MoveGround(c: Core, i: nat, d: Direction)
    requires i < |c.worms| && c.worms[i].position != Target(c, i, d)
    ensures var w := c.worms[i]; var from, to := w.position, Target(c, i, d); var c' := Move(c, i, d).core;
      var trails := c.trails[NewEdge(from, to) := w.id];
      var m, m' := Refreshed(c.board, trails, c.territories, from), Refreshed(c.board, trails, c.territories, to);
      && c'.board == c.board && c'.trails == trails
      && c'.territories == c.territories[from := Settle(CellAt(c.territories, from), m, w.id, TrailColor(w))]
                                        [to := Settle(CellAt(c.territories, to), m', w.id, TrailColor(w))]
  {
    hide Neighbor, Settle, SettleNews, Spokes, Points;
  }

  lemma MoveWorms(c: Core, i: nat, d: Direction)
    requires i < |c.worms|
    ensures var c' := Move(c, i, d).core;
      && c'.worms == c.worms[i := c'.worms[i]] && c'.worms[i].id == c.worms[i].id
      && c'.worms[i].position == Target(c, i, d)
  {
    hide Neighbor, Settle, Refreshed, SettleNews, CellAt, Points;
  }

  lemma MoveStaysPlaced(c: Core, i: nat, d: Direction)
    requires Placed(c) && CanMove(c, i, d)
    ensures Placed(Move(c, i, d).core)
  {
    hide Move, Neighbor, Regular, InBounds, Refreshed;
    var c' := Move(c, i, d).core;
    var w := c.worms[i];
    PlacedSite(c, i, d);
    MoveGround(c, i, d);
    MoveWorms(c, i, d);
    EdgeFromOnBoard(c.board, w.position, d);
    forall p | p in c.territories ensures p in c'.territories && c'.territories[p].mask == SpokeMask(c', p) {
      CellsAreInBounds(c.board, p);
      SpokesAfterTrail(c.board, c.trails, w.position, d, w.id, p);
      assert c.territories[p].mask == SpokeMask(c, p);
    }
    assert c'.territories.Keys == c.territories.Keys;
  }

  lemma SettleGrows(t: Territory, m: Mask, id: Id, color: Color)
    requires t.mask <= m
    ensures var t' := Settle(t, m, id, color);
      && (t.owner != NOBODY ==> t'.owner == t.owner && t'.color == t.color && t.mask <= t'.mask)
      && (t'.owner != NOBODY ==> t.owner != NOBODY || t'.mask == FULL)
  {
  }

  lemma MoveGrows(c: Core, i: nat, d: Direction)
    requires Placed(c) && CanMove(c, i, d)
    ensures Grown(c.territories, Move(c, i, d).core.territories)
  {
    hide Move, Neighbor, Placed, MaskAt, Settle, Refreshed;
    var w := c.worms[i];
    var from, to := w.position, Target(c, i, d);
    PlacedSite(c, i, d);
    MoveGround(c, i, d);
    SettleGrows(c.territories[from], c.territories[from].mask + {d}, w.id, TrailColor(w));
    SettleGrows(c.territories[to], c.territories[to].mask + {Opposite(d)}, w.id, TrailColor(w));
  }

  /** The events of a move between two different cells, in order. */
  lemma MoveBodies(c: Core, i: nat, d: Direction) returns (news: seq<Body>, more: seq<Body>)
    requires i < |c.worms| && c.worms[i].position != Target(c, i, d)
    ensures var w := c.worms[i]; var from, to := w.position, Target(c, i, d);
      var trails := c.trails[NewEdge(from, to) := w.id];
      var m, m' := Refreshed(c.board, trails, c.territories, from), Refreshed(c.board, trails, c.territories, to);
      && news == SettleNews(CellAt(c.territories, from), m, w.id, TrailColor(w), from)
      && more == SettleNews(CellAt(c.territories, to), m', w.id, TrailColor(w), to)
      && Move(c, i, d).log == EmitAll(c.tick + 1, c.round,
           [TrailClaimed(w.id, from, to, NewEdge(from, to), TrailColor(w), m)] + news + more
           + [WormMoved(w.id, from, to, NewEdge(from, to), TrailColor(w))]
           + if m' == FULL then [WormDied(w.id, to)] else [])
  {
    hide Neighbor, SettleNews, Settle, Points, Spokes;
    var w := c.worms[i];
    var from, to := w.position, Target(c, i, d);
    var trails := c.trails[NewEdge(from, to) := w.id];
    var m, m' := Refreshed(c.board, trails, c.territories, from), Refreshed(c.board, trails, c.territories, to);
    news := SettleNews(CellAt(c.territories, from), m, w.id, TrailColor(w), from);
    more := SettleNews(CellAt(c.territories, to), m', w.id, TrailColor(w), to);
  }

  /** News of a cell are about that cell, and there are none of a cell with an owner. */
  lemma NewsOfUnowned(t: Territory, m: Mask, id: Id, color: Color, p: Point)
    ensures forall b :: b in SettleNews(t, m, id, color, p) ==>
              t.owner == NOBODY && (b.TerritoryColorChanged? || b.TerritoryCaptured?) && b.territory == p
  {
  }

  lemma MoveIsQuiet(c: Core, i: nat, d: Direction)
    requires i < |c.worms| && c.worms[i].position != Target(c, i, d)
    ensures Quiet(c.territories, Move(c, i, d).log)
  {
    hide Move, Neighbor, SettleNews, Refreshed, CellAt, NewEdge;
    var w := c.worms[i];
    var from, to := w.position, Target(c, i, d);
    var trails := c.trails[NewEdge(from, to) := w.id];
    NewsOfUnowned(CellAt(c.territories, from), Refreshed(c.board, trails, c.territories, from),
        w.id, TrailColor(w), from);
    NewsOfUnowned(CellAt(c.territories, to), Refreshed(c.board, trails, c.territories, to), w.id, TrailColor(w), to);
    var news, more := MoveBodies(c, i, d);
  }

  lemma UnownedSite(c: Core, i: nat, d: Direction)
    requires Placed(c) && CanMove(c, i, d)
    requires CellAt(c.territories, c.worms[i].position).owner == NOBODY &&
             CellAt(c.territories, Target(c, i, d)).owner == NOBODY
    ensures AtSite(c, i, d)
  {
    hide Placed, Refreshed, Neighbor;
    PlacedSite(c, i, d);
  }

  /** If an end of the move has an owner, the move changes that cell. */
  lemma OwnedEndChanges(c: Core, i: nat, d: Direction)
    requires Placed(c) && CanMove(c, i, d) && OwnersKept(c.territories, Move(c, i, d).core.territories)
    ensures CellAt(c.territories, c.worms[i].position).owner == NOBODY
    ensures CellAt(c.territories, Target(c, i, d)).owner == NOBODY
  {
    hide Move, Placed, Neighbor, Refreshed;
    PlacedSite(c, i, d);
    MoveGround(c, i, d);
  }

  lemma IndexOfPlaced(c: Core, i: nat)
    requires Placed(c) && i < |c.worms|
    ensures Named(c, i) && Regular(c.board)
  {
    IndexOfSlot(c.worms, i);
  }

  /** Replaying a move's events performs the move, if its two cells have no owner. */
  lemma MoveRebuilds(c: Core, i: nat, d: Direction)
    requires Placed(c) && CanMove(c, i, d)
    requires CellAt(c.territories, c.worms[i].position).owner == NOBODY &&
             CellAt(c.territories, Target(c, i, d)).owner == NOBODY
    ensures Rebuilds(c, Move(c, i, d).log, Move(c, i, d).core)
  {
    hide Rebuilds, Placed, Regular, Move, AtSite, Neighbor, Refreshed;
    PlacedSite(c, i, d);
    UnownedSite(c, i, d);
    MoveShape(c, i, d);
    IndexOfPlaced(c, i);
    MoveChain(c, i, d);
  }

  /** A move changes the two cells it draws at and reports both in its first event. */
  lemma MoveDraws(c: Core, i: nat, d: Direction)
    requires Placed(c) && CanMove(c, i, d)
    ensures Drawing(c.territories, Move(c, i, d).log, Move(c, i, d).core.territories)
  {
    hide Move, Placed, Neighbor, Refreshed, SettleNews, CellAt, DrawsAt, NewEdge;
    var from, to := c.worms[i].position, Target(c, i, d);
    PlacedSite(c, i, d);
    MoveGround(c, i, d);
    forall p ensures DrawsAt(Move(c, i, d).log, p) <==> p == from || p == to {
      MoveDrawsAt(c, i, d, p);
    }
    assert d in c.territories[from].mask + {d} && Opposite(d) in c.territories[to].mask + {Opposite(d)};
  }

  lemma MoveDrawsAt(c: Core, i: nat, d: Direction, p: Point)
    requires i < |c.worms| && c.worms[i].position != Target(c, i, d)
    ensures DrawsAt(Move(c, i, d).log, p) <==> p == c.worms[i].position || p == Target(c, i, d)
  {
    hide Move, Neighbor, Refreshed, CellAt, NewEdge;
    var from, to := c.worms[i].position, Target(c, i, d);
    var news, more := MoveBodies(c, i, d);
    var log := Move(c, i, d).log;
    assert log[0].body.TrailClaimed? && log[0].body.from == from && log[0].body.to == to;
    assert forall k :: 0 < k < |log| ==> !log[k].body.TrailClaimed?;
  }

  lemma MoveFaithful(c: Core, i: nat, d: Direction)
    requires Placed(c) && CanMove(c, i, d)
    ensures Faithful(c, Move(c, i, d).log, Move(c, i, d).core)
  {
    hide Rebuilds, Placed, Move, Neighbor, Grown, Quiet, OwnersKept, Refreshed, Drawing;
    PlacedSite(c, i, d);
    MoveStaysPlaced(c, i, d);
    MoveGrows(c, i, d);
    MoveIsQuiet(c, i, d);
    MoveDraws(c, i, d);
    if OwnersKept(c.territories, Move(c, i, d).core.territories) {
      OwnedEndChanges(c, i, d);
      MoveRebuilds(c, i, d);
    }
  }

  /**
   * The exact condition for one move: its events rebuild it if and only if neither of its two cells has an owner. A
   * cell that has one gets a new mask but no event of its own.
   */
  lemma MoveRebuildsExactly(c: Core, i: nat, d: Direction)
    requires Placed(c) && CanMove(c, i, d)
    ensures Rebuilds(c, Move(c, i, d).log, Move(c, i, d).core) <==>
            CellAt(c.territories, c.worms[i].position).owner == NOBODY &&
            CellAt(c.territories, Target(c, i, d)).owner == NOBODY
  {
    hide Rebuilds, Placed, Move, Neighbor, OwnersKept, Faithful;
    MoveFaithful(c, i, d);
    FaithfulExactly(c, Move(c, i, d).log, Move(c, i, d).core);
    if Rebuilds(c, Move(c, i, d).log, Move(c, i, d).core) {
      OwnedEndChanges(c, i, d);
    } else if CellAt(c.territories, c.worms[i].position).owner == NOBODY
              && CellAt(c.territories, Target(c, i, d)).owner == NOBODY {
      MoveRebuilds(c, i, d);
    }
  }

  lemma StepFaithful(c: Core, id: Id, h: Heading)
    requires Placed(c) && Step(c, id, h).Ok?
    ensures Faithful(c, Step(c, id, h).value.log, Step(c, id, h).value.core)
  {
    hide Faithful, Move, Placed;
    MoveFaithful(c, WormIndex(c.worms, id), h.value);
  }

  // ----- a turn

  lemma UseRebuilds(c: Core, slot: nat, m: Mask, a: Action)
    requires Named(c, slot)
    ensures Rebuilds(c, [UseEvent(Count(c, slot, m), slot, m, a)], Count(c, slot, m))
  {
    RebuildsOne(c, UseEvent(Count(c, slot, m), slot, m, a), Count(c, slot, m));
  }

  lemma CountFaithful(c: Core, slot: nat, m: Mask, a: Action)
    requires Placed(c) && slot < |c.worms|
    ensures Faithful(c, [UseEvent(Count(c, slot, m), slot, m, a)], Count(c, slot, m))
  {
    hide Rebuilds, Placed, Named;
    IndexOfPlaced(c, slot);
    UseRebuilds(c, slot, m, a);
    assert SameLedger(c, Count(c, slot, m));
    FrameFaithful(c, [UseEvent(Count(c, slot, m), slot, m, a)], Count(c, slot, m));
  }

  lemma FaithfulEnds(c: Core, log: seq<Draft>, c': Core)
    requires Faithful(c, log, c')
    ensures Placed(c')
  {
  }

  lemma ActFaithful(c: Core, slot: nat, m: Mask, a: Action)
    requires Placed(c) && slot < |c.worms| && Act(c, slot, m, a).Continue?
    ensures Faithful(c, Act(c, slot, m, a).log, Act(c, slot, m, a).core)
  {
    hide Faithful, Placed, Step, UseEvent;
    var counted := Count(c, slot, m);
    CountFaithful(c, slot, m, a);
    FaithfulEnds(c, [UseEvent(counted, slot, m, a)], counted);
    var r := Step(counted, c.worms[slot].id, Some(a.dir)).value;
    StepFaithful(counted, c.worms[slot].id, Some(a.dir));
    FaithfulConcat(c, [UseEvent(counted, slot, m, a)], counted, r.log, r.core);
  }

  lemma LearnRebuilds(c: Core, slot: nat, m: Mask, a: Action)
    requires Named(c, slot) && c.pending.None?
    ensures Rebuilds(c, [Emit(c, RuleLearned(c.worms[slot].id, slot, m, a, "auto"))], Learn(c, slot, m, a))
  {
    RebuildsOne(c, Emit(c, RuleLearned(c.worms[slot].id, slot, m, a, "auto")), Learn(c, slot, m, a));
  }

  lemma LearnFaithful(c: Core, slot: nat, m: Mask, a: Action)
    requires Placed(c) && slot < |c.worms| && c.pending.None?
    ensures Faithful(c, [Emit(c, RuleLearned(c.worms[slot].id, slot, m, a, "auto"))], Learn(c, slot, m, a))
  {
    hide Rebuilds, Placed, Named;
    IndexOfPlaced(c, slot);
    LearnRebuilds(c, slot, m, a);
    assert SameLedger(c, Learn(c, slot, m, a));
    FrameFaithful(c, [Emit(c, RuleLearned(c.worms[slot].id, slot, m, a, "auto"))], Learn(c, slot, m, a));
  }

  lemma AutomaticFaithful(c: Core, slot: nat, m: Mask, a: Action)
    requires Placed(c) && slot < |c.worms| && c.pending.None? && Automatic(c, slot, m, a).Continue?
    ensures Faithful(c, Automatic(c, slot, m, a).log, Automatic(c, slot, m, a).core)
  {
    hide Faithful, Placed, Act;
    if c.worms[slot].frozen {
      ActFaithful(c, slot, m, a);
    } else {
      var learned := Learn(c, slot, m, a);
      var news := [Emit(c, RuleLearned(c.worms[slot].id, slot, m, a, "auto"))];
      LearnFaithful(c, slot, m, a);
      FaithfulEnds(c, news, learned);
      ActFaithful(learned, slot, m, a);
      var r := Act(learned, slot, m, a);
      FaithfulConcat(c, news, learned, r.log, r.core);
    }
  }

  lemma FallRebuilds(c: Core, slot: nat, body: Body)
    requires Named(c, slot)
    requires body == WormDied(c.worms[slot].id, c.worms[slot].position) ||
             body == WormBlocked(c.worms[slot].id, c.worms[slot].position)
    ensures Rebuilds(c, [Emit(c, body)], Fall(c, slot))
  {
    RebuildsOne(c, Emit(c, body), Fall(c, slot));
  }

  lemma StallRebuilds(c: Core, slot: nat, m: Mask, n: nat, x: int)
    requires Named(c, slot) && c.activeSlot == slot
    ensures var r := AwaitDecision(c, slot, m, n); Rebuilds(c.(activeSlot := x), r.log, r.core)
  {
    var r := AwaitDecision(c, slot, m, n);
    var cx := c.(activeSlot := x);
    assert Apply(cx, r.log[0]) == Ok(r.core);
    RebuildsOne(cx, r.log[0], r.core);
  }

  lemma FallFaithful(c: Core, slot: nat, body: Body)
    requires Placed(c) && slot < |c.worms|
    requires body == WormDied(c.worms[slot].id, c.worms[slot].position) ||
             body == WormBlocked(c.worms[slot].id, c.worms[slot].position)
    ensures Faithful(c, [Emit(c, body)], Fall(c, slot))
  {
    hide Rebuilds, Placed, Named;
    IndexOfPlaced(c, slot);
    FallRebuilds(c, slot, body);
    assert SameLedger(c, Fall(c, slot));
    FrameFaithful(c, [Emit(c, body)], Fall(c, slot));
  }

  lemma ContinueFaithful(c: Core, slot: nat, n: nat)
    requires Placed(c) && slot < |c.worms| && c.pending.None? && TakeTurn(c, slot, n).Continue?
    ensures Faithful(c, TakeTurn(c, slot, n).log, TakeTurn(c, slot, n).core)
    ensures TakeTurn(c, slot, n).core.pending.None?
  {
    hide Faithful, Placed, Act, Automatic, LegalMoves, ChooseAuto, MaskAt;
    var w := c.worms[slot];
    var m := MaskAt(c, w.position);
    TurnPending(c, slot, n);
    if !w.alive {
      NothingFaithful(c);
    } else if LegalMoves(c, w.id) == [] {
      FallFaithful(c, slot, WormBlocked(w.id, w.position));
    } else {
      match RuleAt(w, m)
      case GetNew =>
      case DoAI => AutomaticFaithful(c, slot, m, ActionOf(ChooseAuto(c, slot)));
      case Die => FallFaithful(c, slot, WormDied(w.id, w.position));
      case a => ActFaithful(c, slot, m, a);
    }
  }

  lemma NothingRebuilds(c: Core)
    ensures Rebuilds(c, [], c)
  {
  }

  lemma NothingFaithful(c: Core)
    requires Placed(c)
    ensures Faithful(c, [], c)
  {
    hide Placed;
    NothingRebuilds(c);
  }

  // ----- a round

  lemma FinishRebuilds(c: Core, x: int)
    requires c.pending.None?
    ensures Rebuilds(c.(activeSlot := x), Finish(c).log, Finish(c).core)
  {
    var c' := c.(activeSlot := -1, round := c.round + 1);
    RebuildsOne(c.(activeSlot := x), Emit(c', RoundCompleted), c');
    if AliveSlots(c.worms) == {} {
      RebuildsOne(c', Emit(c', GameEnded), c'.(over := true));
      RebuildsConcat(c.(activeSlot := x), [Emit(c', RoundCompleted)], c', [Emit(c', GameEnded)], c'.(over := true));
    }
  }

  /** The loop's active slot leaves no trace in the log until a stall or the end of the round records it. */
  lemma TurnIgnoresActiveSlot(c: Core, slot: nat, n: nat, x: int)
    requires slot < |c.worms| && TakeTurn(c, slot, n).Continue?
    ensures var r, r' := TakeTurn(c, slot, n), TakeTurn(c.(activeSlot := x), slot, n);
      r'.Continue? && r'.log == r.log && r'.core == r.core.(activeSlot := x)
  {
    hide TakeTurn;
    var cx := c.(activeSlot := x);
    TurnView(c, cx, slot, n, n);
    var r, r' := TakeTurn(c, slot, n), TakeTurn(cx, slot, n);
    SameWormsThroughout(c, cx, slot, r.core, r'.core);
  }

  lemma SameWormsThroughout(c: Core, c': Core, slot: nat, d: Core, d': Core)
    requires c'.worms == c.worms && ViewAt(d, d', slot) && OthersKept(c, d, slot) && OthersKept(c', d', slot)
    ensures d'.worms == d.worms
  {
    forall j | 0 <= j < |d.worms| ensures d'.worms[j] == d.worms[j] {
      assert Alike(d.worms[j], d'.worms[j]);
    }
  }

  lemma FinishFaithful(c: Core, x: int)
    requires Placed(c) && c.pending.None?
    ensures Faithful(c.(activeSlot := x), Finish(c).log, Finish(c).core)
  {
    hide Rebuilds, Placed, AliveSlots;
    FinishRebuilds(c, x);
    assert SameLedger(c, c.(activeSlot := x)) && SameLedger(c.(activeSlot := x), Finish(c).core);
    PlacedFrame(c, c.(activeSlot := x));
    FrameFaithful(c.(activeSlot := x), Finish(c).log, Finish(c).core);
  }

  lemma StalledTurnFaithful(c: Core, slot: nat, n: nat, x: int)
    requires Placed(c) && slot < |c.worms| && c.activeSlot == slot && TakeTurn(c, slot, n).Stall?
    ensures Faithful(c.(activeSlot := x), TakeTurn(c, slot, n).log, TakeTurn(c, slot, n).core)
  {
    hide Rebuilds, Placed, Act, Automatic, LegalMoves, ChooseAuto, MaskAt, Named;
    var r := AwaitDecision(c, slot, MaskAt(c, c.worms[slot].position), n);
    IndexOfPlaced(c, slot);
    StallRebuilds(c, slot, MaskAt(c, c.worms[slot].position), n, x);
    assert SameLedger(c, c.(activeSlot := x)) && SameLedger(c.(activeSlot := x), r.core);
    PlacedFrame(c, c.(activeSlot := x));
    FrameFaithful(c.(activeSlot := x), r.log, r.core);
  }

  /** The log of a round is faithful and a stall names its worm. */
  lemma {:induction false} SlotsFaithful(c: Core, slot: nat, n: nat, x: int)
    requires Placed(c) && c.pending.None? && Slots(c, slot, n).Ok?
    ensures var r := Slots(c, slot, n).value; Faithful(c.(activeSlot := x), r.log, r.core) && PendingNamed(r.core)
    decreases |c.worms| - slot
  {
    hide Faithful, Placed, TakeTurn, SameLedger, PendingNamed;
    if slot >= |c.worms| {
      FinishFaithful(c, x);
      NothingPending(Finish(c).core);
    } else {
      var at, cx := c.(activeSlot := slot), c.(activeSlot := x);
      ActiveSlotFrame(c, slot);
      ActiveSlotFrame(c, x);
      var r := TakeTurn(at, slot, n);
      if r.Stall? {
        StalledTurnFaithful(at, slot, n, x);
        TurnPending(at, slot, n);
      } else {
        TurnIgnoresActiveSlot(at, slot, n, x);
        ContinueFaithful(cx, slot, n);
        ContinueFaithful(at, slot, n);
        FaithfulEnds(at, r.log, r.core);
        var rest := Slots(r.core, slot + 1, n + |r.log|).value;
        SlotsFaithful(r.core, slot + 1, n + |r.log|, x);
        FaithfulConcat(cx, r.log, r.core.(activeSlot := x), rest.log, rest.core);
      }
    }
  }

  lemma NothingPending(c: Core)
    ensures c.pending.None? ==> PendingNamed(c)
  {
  }

  lemma ActiveSlotFrame(c: Core, x: int)
    requires Placed(c)
    ensures Placed(c.(activeSlot := x))
  {
    hide Placed;
    assert SameLedger(c, c.(activeSlot := x));
    PlacedFrame(c, c.(activeSlot := x));
  }

  // ----- a submitted decision

  lemma TaughtFaithful(c: Core, d: Direction)
    requires Placed(c) && c.pending.Some? && PendingNamed(c)
    ensures var p := c.pending.value; var id := c.worms[p.slot].id;
      Faithful(c,
               [Emit(c, RuleLearned(id, p.slot, p.mask, Go(d), "new")), UseEvent(Taught(c, d), p.slot, p.mask, Go(d))],
               Taught(c, d))
  {
    hide Placed, Rebuilds, Named;
    TaughtRebuilds(c, d);
    var p := c.pending.value;
    assert SameLedger(c, Taught(c, d));
    FrameFaithful(c, [Emit(c, RuleLearned(c.worms[p.slot].id, p.slot, p.mask, Go(d), "new")),
                      UseEvent(Taught(c, d), p.slot, p.mask, Go(d))], Taught(c, d));
  }

  lemma TaughtRebuilds(c: Core, d: Direction)
    requires Placed(c) && c.pending.Some? && PendingNamed(c)
    ensures var p := c.pending.value; var id := c.worms[p.slot].id;
      Rebuilds(c,
               [Emit(c, RuleLearned(id, p.slot, p.mask, Go(d), "new")), UseEvent(Taught(c, d), p.slot, p.mask, Go(d))],
               Taught(c, d))
  {
    hide Placed;
    var p := c.pending.value;
    var learned := Learn(c, p.slot, p.mask, Go(d)).(pending := None, activeSlot := p.slot + 1);
    IndexOfPlaced(c, p.slot);
    NamedFrame(c, learned, p.slot);
    var e := Emit(c, RuleLearned(c.worms[p.slot].id, p.slot, p.mask, Go(d), "new"));
    RebuildsOne(c, e, learned);
    UseRebuilds(learned, p.slot, p.mask, Go(d));
    RebuildsConcat(c, [e], learned, [UseEvent(Taught(c, d), p.slot, p.mask, Go(d))], Taught(c, d));
  }

  lemma AnswerFaithful(c: Core, d: Direction)
    requires Placed(c) && c.pending.Some? && PendingNamed(c) && Answer(c, d).Ok?
    ensures Faithful(c, Answer(c, d).value.log, Answer(c, d).value.core) && Answer(c, d).value.core.pending.None?
  {
    hide Faithful, Placed, Step, Taught, UseEvent;
    var p := c.pending.value;
    var id := c.worms[p.slot].id;
    var news := [Emit(c, RuleLearned(id, p.slot, p.mask, Go(d), "new")), UseEvent(Taught(c, d), p.slot, p.mask, Go(d))];
    TaughtFaithful(c, d);
    FaithfulEnds(c, news, Taught(c, d));
    StepFaithful(Taught(c, d), id, Some(d));
    var r := Step(Taught(c, d), id, Some(d)).value;
    FaithfulConcat(c, news, Taught(c, d), r.log, r.core);
    TaughtIsResolved(c, d);
    StepPending(Taught(c, d), id, Some(d));
  }

  lemma TaughtIsResolved(c: Core, d: Direction)
    requires c.pending.Some? && PendingInRange(c)
    ensures Taught(c, d).pending.None?
  {
  }

  lemma StepPending(c: Core, id: Id, h: Heading)
    requires Step(c, id, h).Ok?
    ensures var c' := Step(c, id, h).value.core;
      && c'.pending == c.pending && |c'.worms| == |c.worms|
      && forall i :: 0 <= i < |c.worms| ==> c'.worms[i].id == c.worms[i].id
  {
    hide Move;
    MoveKeepsControl(c, WormIndex(c.worms, id), h.value);
  }

  // ----- runs that mix moves, rounds and decisions

  ghost function Run(g: Game, ops: seq<Op>): Outcome<Game>
    decreases |ops|
  {
    if ops == [] then Ok(g)
    else
      var r := Perform(g.core, |g.events|, ops[0]);
      if r.Err? then Err(r.error) else Run(Append(g, r.value), ops[1..])
  }

  /** A run of a game with its log is a run of its core that counts the events. */
  lemma {:induction false} RunIsPlay(g: Game, ops: seq<Op>)
    ensures Run(g, ops) == match Play(g.core, |g.events|, ops) case Ok(r) => Ok(Append(g, r)) case Err(e) => Err(e)
    decreases |ops|
  {
    hide Perform, Stamp;
    if ops == [] {
      StampNothing(|g.events|);
      assert g.events + [] == g.events;
    } else {
      var r := Perform(g.core, |g.events|, ops[0]);
      if r.Ok? {
        RunIsPlay(Append(g, r.value), ops[1..]);
        var rest := Play(r.value.core, |g.events| + |r.value.log|, ops[1..]);
        if rest.Ok? {
          AppendTwice(g, r.value, rest.value);
        }
      }
    }
  }

  lemma AppendTwice(g: Game, a: Done, b: Done)
    ensures Append(Append(g, a), b) == Append(g, Done(b.core, a.log + b.log))
  {
    hide Stamp;
    StampConcat(|g.events|, a.log, b.log);
    assert |Append(g, a).events| == |g.events| + |a.log|;
    assert g.events + Stamp(|g.events|, a.log) + Stamp(|g.events| + |a.log|, b.log)
        == g.events + Stamp(|g.events|, a.log + b.log);
  }

  /**
   * Over every run that mixes moves, rounds and decisions: the ledger survives, owned cells are never changed, ticks
   * count trails and never exceed 3·W·H, three of them pay for each point, and the spoke bits total twice the tick.
   */
  lemma RunKeepsLedger(g: Game, ops: seq<Op>)
    requires Sound(g.core) && g.core.tick == |g.core.trails| && Run(g, ops).Ok?
    ensures var c' := Run(g, ops).value.core;
      && Sound(c') && Later(g.core, c') && OwnersKept(g.core.territories, c'.territories)
      && c'.tick == |c'.trails| <= 3 * (g.core.board.width * g.core.board.height)
      && 0 <= 3 * ScoreTotal(c'.worms) <= c'.tick
      && SpokeTotal(c', Cells(g.core.board)) == 2 * c'.tick
      && |ops| <= Measure(g.core)
  {
    hide Run, Play, Later, Sound, Grounded, OwnersKept, ScoreTotal, SpokeTotal;
    RunIsPlay(g, ops);
    SoundIsGrounded(g.core);
    TicksCountTrails(g.core, |g.events|, ops);
    RunIsBounded(g.core, |g.events|, ops);
  }

  /** The events g' has beyond those of g. */
  function Emitted(g: Game, g': Game): seq<Event> {
    if |g.events| <= |g'.events| then g'.events[|g.events|..] else []
  }

  ghost predicate OnlySteps(ops: seq<Op>) {
    forall k :: 0 <= k < |ops| ==> ops[k].OpStep?
  }

  ghost predicate Replayable(c: Core) {
    Placed(c) && PendingNamed(c)
  }

  /** Some event of the log is not a bare move, so a replay does not take it for a legacy stream. */
  ghost predicate Mixed(log: seq<Draft>) {
    exists k :: 0 <= k < |log| && !log[k].body.WormMoved?
  }

  lemma {:induction false} SlotsMixed(c: Core, slot: nat, n: nat)
    requires Slots(c, slot, n).Ok?
    ensures var log := Slots(c, slot, n).value.log; log != [] && !log[|log| - 1].body.WormMoved?
    decreases |c.worms| - slot
  {
    hide TakeTurn;
    if slot < |c.worms| {
      var r := TakeTurn(c.(activeSlot := slot), slot, n);
      if r.Continue? {
        SlotsMixed(r.core, slot + 1, n + |r.log|);
      } else {
        StalledLog(c.(activeSlot := slot), slot, n);
      }
    }
  }

  lemma StalledLog(c: Core, slot: nat, n: nat)
    requires slot < |c.worms| && TakeTurn(c, slot, n).Stall?
    ensures var log := TakeTurn(c, slot, n).log; |log| == 1 && log[0].body.DecisionPending?
  {
    hide Act, Automatic;
  }

  /** The log touches neither rules nor the controller's fields. */
  ghost predicate Plain(log: seq<Draft>) {
    forall k :: 0 <= k < |log| ==>
      !log[k].body.RuleLearned? && !log[k].body.DecisionPending? && !log[k].body.RoundCompleted?
  }

  /** The log reports a stall or the end of a round. */
  ghost predicate Anchored(log: seq<Draft>) {
    exists k :: 0 <= k < |log| && (log[k].body.DecisionPending? || log[k].body.RoundCompleted?)
  }

  lemma StepIsPlain(c: Core, id: Id, h: Heading)
    requires Placed(c) && Step(c, id, h).Ok?
    ensures Plain(Step(c, id, h).value.log)
  {
    hide Placed, Neighbor, Move;
    var i := WormIndex(c.worms, id);
    PlacedSite(c, i, h.value);
    var news, more := MoveBodies(c, i, h.value);
  }

  lemma AnchoredConcat(a: seq<Draft>, b: seq<Draft>)
    ensures Anchored(a) || Anchored(b) ==> Anchored(a + b)
    ensures Plain(a) && Plain(b) ==> Plain(a + b)
  {
    if Anchored(a) {
      var k :| 0 <= k < |a| && (a[k].body.DecisionPending? || a[k].body.RoundCompleted?);
      assert (a + b)[k] == a[k];
    }
    if Anchored(b) {
      var k :| 0 <= k < |b| && (b[k].body.DecisionPending? || b[k].body.RoundCompleted?);
      assert (a + b)[|a| + k] == b[k];
    }
  }

  lemma {:induction false} SlotsAnchored(c: Core, slot: nat, n: nat)
    requires Slots(c, slot, n).Ok?
    ensures Anchored(Slots(c, slot, n).value.log)
    decreases |c.worms| - slot
  {
    hide TakeTurn, Anchored;
    if slot >= |c.worms| {
      FinishAnchored(c);
    } else {
      var r := TakeTurn(c.(activeSlot := slot), slot, n);
      if r.Continue? {
        SlotsAnchored(r.core, slot + 1, n + |r.log|);
        AnchoredConcat(r.log, Slots(r.core, slot + 1, n + |r.log|).value.log);
      } else {
        StallAnchored(c.(activeSlot := slot), slot, n);
      }
    }
  }

  lemma FinishAnchored(c: Core)
    ensures Anchored(Finish(c).log)
  {
    assert Finish(c).log[0].body.RoundCompleted?;
  }

  lemma StallAnchored(c: Core, slot: nat, n: nat)
    requires slot < |c.worms| && TakeTurn(c, slot, n).Stall?
    ensures Anchored(TakeTurn(c, slot, n).log)
  {
    StalledLog(c, slot, n);
  }

  lemma AdvanceAnchored(c: Core, n: nat)
    requires AdvanceRound(c, n).Ok?
    ensures Anchored(AdvanceRound(c, n).value.log)
  {
    hide Slots, Anchored;
    SlotsAnchored(c, if c.activeSlot >= 0 then c.activeSlot else 0, n);
  }

  lemma SubmitAnchored(c: Core, n: nat, h: Heading)
    requires Submit(c, n, h).Ok?
    ensures Anchored(Submit(c, n, h).value.log)
  {
    hide Slots, Answer, Anchored, LegalMoves;
    var a := Answer(c, h.value).value;
    SlotsAnchored(a.core, c.pending.value.slot + 1, n + |a.log|);
    AnchoredConcat(a.log, Slots(a.core, c.pending.value.slot + 1, n + |a.log|).value.log);
  }

  /** Moves have plain logs, and every round played or resumed reports a stall or its end. */
  lemma PerformShape(c: Core, n: nat, op: Op)
    requires Placed(c) && Perform(c, n, op).Ok?
    ensures if op.OpStep? then Plain(Perform(c, n, op).value.log) else Anchored(Perform(c, n, op).value.log)
  {
    hide Placed, Plain, Anchored, Step, AdvanceRound, Submit;
    match op
    case OpStep(id, h) => StepIsPlain(c, id, h);
    case OpCall(CallAdvance) => AdvanceAnchored(c, n);
    case OpCall(CallSubmit(h)) => SubmitAnchored(c, n, h);
  }

  /** What every successful operation leaves behind. */
  ghost predicate OpResult(c: Core, r: Done) {
    Faithful(c, r.log, r.core) && Replayable(r.core) && Mixed(r.log)
  }

  lemma StepOpFaithful(c: Core, id: Id, h: Heading)
    requires Replayable(c) && Step(c, id, h).Ok?
    ensures OpResult(c, Step(c, id, h).value)
  {
    hide Faithful, Placed, Step;
    StepFaithful(c, id, h);
    FaithfulEnds(c, Step(c, id, h).value.log, Step(c, id, h).value.core);
    StepLog(c, id, h);
    StepPending(c, id, h);
  }

  lemma StepLog(c: Core, id: Id, h: Heading)
    requires Step(c, id, h).Ok?
    ensures var log := Step(c, id, h).value.log; |log| > 0 && log[0].body.TrailClaimed?
  {
  }

  lemma AdvanceFaithful(c: Core, n: nat)
    requires Replayable(c) && AdvanceRound(c, n).Ok?
    ensures OpResult(c, AdvanceRound(c, n).value)
  {
    hide Faithful, Placed, Slots, PendingNamed;
    var start := if c.activeSlot >= 0 then c.activeSlot else 0;
    SlotsFaithful(c, start, n, c.activeSlot);
    SlotsMixed(c, start, n);
    assert c.(activeSlot := c.activeSlot) == c;
    FaithfulEnds(c, AdvanceRound(c, n).value.log, AdvanceRound(c, n).value.core);
  }

  lemma SubmitFaithful(c: Core, n: nat, h: Heading)
    requires Replayable(c) && Submit(c, n, h).Ok?
    ensures OpResult(c, Submit(c, n, h).value)
  {
    hide Faithful, Placed, Slots, Answer, LegalMoves, PendingNamed;
    AnswerFaithful(c, h.value);
    var a := Answer(c, h.value).value;
    FaithfulEnds(c, a.log, a.core);
    var start := c.pending.value.slot + 1;
    SlotsFaithful(a.core, start, n + |a.log|, a.core.activeSlot);
    SlotsMixed(a.core, start, n + |a.log|);
    assert a.core.(activeSlot := a.core.activeSlot) == a.core;
    var rest := Slots(a.core, start, n + |a.log|).value;
    FaithfulConcat(c, a.log, a.core, rest.log, rest.core);
    FaithfulEnds(c, a.log + rest.log, rest.core);
    assert (a.log + rest.log)[|a.log| + |rest.log| - 1] == rest.log[|rest.log| - 1];
  }

  lemma PerformFaithful(c: Core, n: nat, op: Op)
    requires Replayable(c) && Perform(c, n, op).Ok?
    ensures OpResult(c, Perform(c, n, op).value)
  {
    hide OpResult, Replayable, Step, Submit, AdvanceRound;
    match op
    case OpStep(id, h) => StepOpFaithful(c, id, h);
    case OpCall(CallAdvance) => AdvanceFaithful(c, n);
    case OpCall(CallSubmit(h)) => SubmitFaithful(c, n, h);
  }

  lemma StampConcat(n: nat, a: seq<Draft>, b: seq<Draft>)
    ensures Stamp(n, a + b) == Stamp(n, a) + Stamp(n + |a|, b)
  {
  }

  /** A run appends one log to the events, and that log is faithful. */
  lemma {:induction false} RunLog(g: Game, ops: seq<Op>) returns (log: seq<Draft>)
    requires Replayable(g.core) && Run(g, ops).Ok?
    ensures var g' := Run(g, ops).value;
      && g'.events == g.events + Stamp(|g.events|, log)
      && Faithful(g.core, log, g'.core)
      && (if log == [] then g' == g else Mixed(log))
      && if OnlySteps(ops) then Plain(log) else Anchored(log)
    decreases |ops|
  {
    hide Faithful, Placed, PendingNamed, Perform, Stamp, Plain, Anchored;
    if ops == [] {
      log := [];
      NothingFaithful(g.core);
      StampNothing(|g.events|);
      assert Plain(log) by { NothingIsPlain(); }
    } else {
      var r := Perform(g.core, |g.events|, ops[0]).value;
      PerformFaithful(g.core, |g.events|, ops[0]);
      PerformShape(g.core, |g.events|, ops[0]);
      var rest := RunLog(Append(g, r), ops[1..]);
      log := r.log + rest;
      StampConcat(|g.events|, r.log, rest);
      AnchoredConcat(r.log, rest);
      FaithfulConcat(g.core, r.log, r.core, rest, Run(g, ops).value.core);
      var k :| 0 <= k < |r.log| && !r.log[k].body.WormMoved?;
      assert log[k] == r.log[k];
    }
  }

  lemma NothingIsPlain()
    ensures Plain([]) && !Anchored([])
  {
  }

  lemma StampNothing(n: nat)
    ensures Stamp(n, []) == []
  {
  }

  lemma DraftsOfStamp(n: nat, log: seq<Draft>)
    ensures Drafts(Stamp(n, log)) == log && InSequence(n, Stamp(n, log))
    ensures Mixed(log) ==> !Legacy(Stamp(n, log))
  {
    if Mixed(log) {
      var k :| 0 <= k < |log| && !log[k].body.WormMoved?;
      assert !Stamp(n, log)[k].body.WormMoved?;
    }
  }

  /** Replaying a log with its sequence numbers is applying its events in order. */
  lemma ReplayAppliesLog(g: Game, log: seq<Draft>, c': Core)
    requires if log == [] then c' == g.core else Mixed(log)
    ensures var events := Stamp(|g.events|, log);
      Replay(g, events) == Ok(Game(c', g.events + events)) <==> Rebuilds(g.core, log, c')
  {
    hide Stamp, ApplyAll, Mixed, Legacy, InSequence, Drafts;
    DraftsOfStamp(|g.events|, log);
    if log == [] {
      StampNothing(|g.events|);
      NothingRebuilds(g.core);
      assert g.events + [] == g.events;
    }
  }

  /**
   * Event sourcing, for every start with masks in sync whose pending decision, if any, names the worm of its slot, and
   * every run of moves, rounds and decisions: replaying the emitted events gives exactly the final state, log included,
   * if and only if no trail of the log begins or ends at a cell that had an owner at the start.
   */
  lemma NamedReplayIsExact(g: Game, ops: seq<Op>)
    requires Replayable(g.core) && Run(g, ops).Ok?
    ensures var g' := Run(g, ops).value;
      && g.events <= g'.events
      && (Replay(g, Emitted(g, g')) == Ok(g') <==> Spares(g.core.territories, Drafts(Emitted(g, g'))))
  {
    hide Replayable, Run, Replay, Stamp, Rebuilds, Mixed, Plain, Anchored, OwnersKept, Faithful, Spares, Drafts;
    var log := RunLog(g, ops);
    var g' := Run(g, ops).value;
    DraftsOfStamp(|g.events|, log);
    assert Emitted(g, g') == Stamp(|g.events|, log);
    assert g' == Game(g'.core, g.events + Stamp(|g.events|, log));
    ReplayAppliesLog(g, log, g'.core);
    FaithfulExactly(g.core, log, g'.core);
  }

  ghost predicate UnfinishedUnowned(c: Core) {
    forall p :: p in c.territories && c.territories[p].owner != NOBODY ==> c.territories[p].mask == FULL
  }

  /** From a start in which only complete cells have owners every replay is exact. */
  lemma ReplayFromUnownedIsExact(g: Game, ops: seq<Op>)
    requires Replayable(g.core) && UnfinishedUnowned(g.core) && Run(g, ops).Ok?
    ensures var g' := Run(g, ops).value; Replay(g, Emitted(g, g')) == Ok(g')
  {
    hide Replayable, Run, Replay, Stamp, Grown, Drafts, Plain, Anchored, Mixed, Drawing, Spares, OwnersKept;
    var g' := Run(g, ops).value;
    var log := RunLog(g, ops);
    NamedReplayIsExact(g, ops);
    DraftsOfStamp(|g.events|, log);
    assert Emitted(g, g') == Stamp(|g.events|, log);
    FaithfulExactly(g.core, log, g'.core);
    CompleteCellsStay(g.core, g'.core);
  }

  lemma CompleteCellsStay(c: Core, c': Core)
    requires UnfinishedUnowned(c) && Grown(c.territories, c'.territories)
    ensures OwnersKept(c.territories, c'.territories)
  {
    forall p | p in c.territories && c.territories[p].owner != NOBODY
      ensures p in c'.territories && c'.territories[p] == c.territories[p]
    {
      FullIsMost(c'.territories[p].mask);
    }
  }
}
