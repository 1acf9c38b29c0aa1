/** What terrain, trails and energy allow a move of the variant to do, read off the states and the log. */
module TerrainLaws {
  import opened Geometry
  import opened Engine
  import opened Rounds
  import opened MoveLaws
  import opened Variants
  import opened VariantMoves
  import opened VariantRounds
  import opened VariantRuns
  import opened VariantEnergy
  import opened Wrappers

  // ----- which moves are accepted

  /** A live worm with energy left may go in direction d: the cell is on the board, free, open, and the way is right. */
  ghost predicate MayGo(v: Variant, i: int, d: Direction)
    requires 0 <= i < |v.base.worms|
  {
    var w := v.base.worms[i];
    var t := v.setup.terrain;
    var from, to := w.position, Neighbor(v.base.board, w.position, d);
    var e := NewEdge(from, to);
    && w.alive && (v.setup.limit > 0 ==> w.id in v.energy && v.energy[w.id] > 0)
    && InBounds(v.base.board, to) && to !in t.obstacles && to !in t.holes
    && e !in v.base.trails && e !in v.temporary
    && (e in t.oneWay ==> t.oneWay[e] == d)
    && (v.base.board.mode == ModernRules ==>
          forall j :: 0 <= j < |v.base.worms| && v.base.worms[j].alive ==> v.base.worms[j].position != to)
    && East !in CellAt(v.base.territories, from).mask && EdgeFrom(v.base.board, from, East) !in v.base.trails
  }

  /**
   * After the expiry a call is accepted exactly if its worm may go that way, the game goes on, and no stale spoke
   * stands in the way; a worm that may not go is an invalid action.
   */
  lemma ApplyAccepts(v: Variant, id: Id, h: Heading)
    ensures var v1 := Expired(v); var r := Apply(v, id, h).result; var i := WormIndex(v1.base.worms, id);
      if i >= 0 && h.Some? && MayGo(v1, i, h.value) then
        && (r.Ok? <==> !v.base.over && h.value !in CellAt(v1.base.territories, v1.base.worms[i].position).mask)
        && (r.Err? ==> r.error == ByEngine(Rejected(if v.base.over then GameOver else OccupiedSpoke)))
      else r == Err(InvalidAction)
  {
    hide Expired, Neighbor, NewEdge, InBounds, Move, Completed;
    var v1 := Expired(v);
    var i := WormIndex(v1.base.worms, id);
    ExpiredOver(v);
    if i >= 0 && h.Some? {
      LegalIsMayGo(v1, i, id, h.value);
      SpokeIsTrail(v1.base, v1.base.worms[i].position, h.value);
    }
  }

  lemma LegalIsMayGo(v: Variant, i: nat, id: Id, d: Direction)
    requires i < |v.base.worms| && WormIndex(v.base.worms, id) == i
    ensures Legal(v, id, Some(d)) <==> MayGo(v, i, d)
  {
    hide Neighbor, NewEdge, InBounds;
    SpokeIsTrail(v.base, v.base.worms[i].position, East);
    assert EdgeFrom(v.base.board, v.base.worms[i].position, East) in v.base.trails
      <==> East in SpokeMask(v.base, v.base.worms[i].position) by { EveryDirection(East); }
  }

  // ----- terrain along runs

  /** No live worm stands on an obstacle or in a hole. */
  ghost predicate Clear(v: Variant) {
    forall i :: 0 <= i < |v.base.worms| && v.base.worms[i].alive ==>
      v.base.worms[i].position !in v.setup.terrain.obstacles && v.base.worms[i].position !in v.setup.terrain.holes
  }

  /** Every move in the log ends on open ground, and goes the way of a one-way edge. */
  ghost predicate KeepsToTerrain(v: Variant, log: seq<Draft>) {
    forall k :: 0 <= k < |log| && log[k].body.WormMoved? ==>
      var m, t := log[k].body, v.setup.terrain;
      && m.to !in t.obstacles && m.to !in t.holes
      && (m.edge in t.oneWay ==> Neighbor(v.base.board, m.from, t.oneWay[m.edge]) == m.to)
  }

  ghost predicate Honours(v: Variant, log: seq<Draft>, v': Variant) {
    && v'.setup == v.setup && v'.base.board == v.base.board
    && KeepsToTerrain(v, log) && (Clear(v) ==> Clear(v'))
  }

  lemma HonoursTwice(a: Variant, x: seq<Draft>, b: Variant, y: seq<Draft>, c: Variant)
    requires Honours(a, x, b) && Honours(b, y, c)
    ensures Honours(a, x + y, c)
  {
    hide Clear;
    forall k | 0 <= k < |x + y| && (x + y)[k].body.WormMoved?
      ensures var m, t := (x + y)[k].body, a.setup.terrain;
        && m.to !in t.obstacles && m.to !in t.holes
        && (m.edge in t.oneWay ==> Neighbor(a.base.board, m.from, t.oneWay[m.edge]) == m.to)
    {
      if k < |x| {
        assert (x + y)[k] == x[k];
      } else {
        assert (x + y)[k] == y[k - |x|];
      }
    }
  }

  lemma ClearStays(v: Variant, c: Core, log: seq<Draft>)
    requires SameLedger(v.base, c) && forall k :: 0 <= k < |log| ==> !log[k].body.WormMoved?
    ensures Honours(v, log, OnBase(v, c))
  {
  }

  /** After a move every worm but the mover is where it was, and the mover is one step on. */
  lemma PlacesAfter(v: Variant, i: nat, d: Direction)
    requires i < |v.base.worms|
    ensures var w := Completed(v, i, d, Move(v.base, i, d));
      && w.setup == v.setup && w.base.board == v.base.board
      && forall j :: 0 <= j < |v.base.worms| ==>
           && (w.base.worms[j].alive ==> v.base.worms[j].alive)
           && w.base.worms[j].position
              == if j == i then Neighbor(v.base.board, v.base.worms[i].position, d) else v.base.worms[j].position
  {
    hide Move, Drained, Neighbor, NewEdge, Expired, Delta, CaptureWeight, Captured;
    var r := Move(v.base, i, d);
    var id := v.base.worms[i].id;
    MoveDisplaces(v.base, i, d);
    DrainedFrame(Scored(v, r.core, id, r.log), i, id);
    ExpiredFrame(Played(v, i, d, r));
  }

  lemma MoveReportsPlaces(c: Core, i: nat, d: Direction)
    requires i < |c.worms|
    ensures var from, to := c.worms[i].position, Neighbor(c.board, c.worms[i].position, d);
      var log := Move(c, i, d).log;
      forall k :: 0 <= k < |log| && log[k].body.WormMoved? ==>
        log[k].body.from == from && log[k].body.to == to && log[k].body.edge == NewEdge(from, to)
  {
    hide Neighbor, NewEdge, Refreshed, Points, Settle;
  }

  /** Accepted or refused, a call keeps everyone off obstacles and out of holes. */
  lemma ApplyHonours(v: Variant, id: Id, h: Heading)
    ensures var a := Apply(v, id, h);
      Honours(v, if a.result.Ok? then a.result.value else [], a.after)
  {
    hide Apply, Expired, Move, Completed, Neighbor, NewEdge, InBounds;
    var v1 := Expired(v);
    ExpiredFrame(v);
    ApplyUnfolds(v, id, h);
    if Apply(v, id, h).result.Ok? {
      var i := WormIndex(v1.base.worms, id);
      LegalIsMayGo(v1, i, id, h.value);
      PlacesAfter(v1, i, h.value);
      MoveReportsPlaces(v1.base, i, h.value);
    }
  }

  lemma PlayHonours(v: Variant, slot: nat, m: Mask, d: Direction)
    requires slot < |v.base.worms|
    ensures var r := Play(v, slot, m, d); r.GoesOn? ==> Honours(v, r.log, r.state)
  {
    hide Apply, Honours;
    var counted := Count(v.base, slot, m);
    var used := [UseEvent(counted, slot, m, Go(d))];
    assert SameLedger(v.base, counted);
    ClearStays(v, counted, used);
    var a := Apply(OnBase(v, counted), v.base.worms[slot].id, Some(d));
    ApplyHonours(OnBase(v, counted), v.base.worms[slot].id, Some(d));
    if a.result.Ok? {
      HonoursTwice(v, used, OnBase(v, counted), a.result.value, a.after);
    }
  }

  lemma AutomaticHonours(v: Variant, slot: nat, m: Mask, legal: seq<Direction>)
    requires slot < |v.base.worms| && legal != []
    ensures var r := PlayAutomatic(v, slot, m, legal); r.GoesOn? ==> Honours(v, r.log, r.state)
  {
    hide Play, Choose, Honours;
    var d := Choose(v, slot, legal);
    PlayHonours(v, slot, m, d);
    var learned := Learn(v.base, slot, m, Go(d));
    var news := [Emit(v.base, RuleLearned(v.base.worms[slot].id, slot, m, Go(d), "auto"))];
    assert SameLedger(v.base, learned);
    ClearStays(v, learned, news);
    PlayHonours(OnBase(v, learned), slot, m, d);
    var r := Play(OnBase(v, learned), slot, m, d);
    if r.GoesOn? {
      HonoursTwice(v, news, OnBase(v, learned), r.log, r.state);
    }
  }

  lemma FollowHonours(v: Variant, slot: nat, m: Mask, legal: seq<Direction>, a: Action)
    requires slot < |v.base.worms| && legal != []
    ensures var r := Follow(v, slot, m, legal, a); r.GoesOn? ==> Honours(v, r.log, r.state)
  {
    hide Play, Choose, Honours;
    if a.Go? { PlayHonours(v, slot, m, a.dir); }
    PlayHonours(v, slot, m, Choose(v, slot, legal));
  }

  lemma TurnHonours(v: Variant, slot: nat, n: nat)
    requires slot < |v.base.worms|
    ensures var r := ServeTurn(v, slot, n); !r.Fails? ==> Honours(v, r.log, r.state)
  {
    hide Moves, PlayAutomatic, Follow, MaskAt, Honours;
    var w := v.base.worms[slot];
    var legal, m := Moves(v, w.id), MaskAt(v.base, w.position);
    ClearStays(v, v.base, []);
    assert OnBase(v, v.base) == v;
    if w.alive {
      FallFuel(v.base, slot);
      ClearStays(v, Fall(v.base, slot), [Emit(v.base, WormBlocked(w.id, w.position))]);
      ClearStays(v, Fall(v.base, slot), [Emit(v.base, WormDied(w.id, w.position))]);
      if legal != [] {
        AutomaticHonours(v, slot, m, legal);
        FollowHonours(v, slot, m, legal, RuleAt(w, m));
        var s := AwaitDecision(v.base, slot, m, n);
        assert SameLedger(v.base, s.core);
        ClearStays(v, s.core, s.log);
      }
    }
  }

  lemma {:induction false} RoundHonours(v: Variant, slot: nat, n: nat)
    requires ServeFrom(v, slot, n).Ok?
    ensures Honours(v, ServeFrom(v, slot, n).value.log, ServeFrom(v, slot, n).value.state)
    decreases |v.base.worms| - slot
  {
    hide ServeTurn, Honours;
    if slot >= |v.base.worms| {
      var f := Finish(v.base);
      assert SameLedger(v.base, f.core);
      ClearStays(v, f.core, f.log);
    } else {
      var at := v.base.(activeSlot := slot);
      assert SameLedger(v.base, at);
      ClearStays(v, at, []);
      var w := OnBase(v, at);
      TurnHonours(w, slot, n);
      var r := ServeTurn(w, slot, n);
      HonoursTwice(v, [], w, r.log, r.state);
      assert [] + r.log == r.log;
      if r.GoesOn? {
        RoundHonours(r.state, slot + 1, n + |r.log|);
        var f := ServeFrom(r.state, slot + 1, n + |r.log|).value;
        HonoursTwice(v, r.log, r.state, f.log, f.state);
      }
    }
  }

  lemma CallHonours(v: Variant, n: nat, call: Call)
    requires Exec(v, n, call).Ok?
    ensures Honours(v, Exec(v, n, call).value.log, Exec(v, n, call).value.state)
  {
    hide ServeFrom, Honours, Moves, Apply;
    match call
    case CallAdvance => RoundHonours(v, if v.base.activeSlot >= 0 then v.base.activeSlot else 0, n);
    case CallSubmit(h) =>
      var p := v.base.pending.value;
      var w := v.base.worms[p.slot];
      var taught := Taught(v.base, h.value);
      var news := [Emit(v.base, RuleLearned(w.id, p.slot, p.mask, Go(h.value), "new")),
                   UseEvent(taught, p.slot, p.mask, Go(h.value))];
      assert SameLedger(v.base, taught);
      ClearStays(v, taught, news);
      ApplyHonours(OnBase(v, taught), w.id, h);
      var a := Apply(OnBase(v, taught), w.id, h);
      HonoursTwice(v, news, OnBase(v, taught), a.result.value, a.after);
      var f := Resolve(v, h.value).value;
      RoundHonours(f.state, p.slot + 1, n + |f.log|);
      var g := ServeFrom(f.state, p.slot + 1, n + |f.log|).value;
      HonoursTwice(v, f.log, f.state, g.log, g.state);
  }

  /** Along every run nobody steps on an obstacle or into a hole, or goes the wrong way along a one-way edge. */
  lemma {:induction false} RunHonours(v: Variant, n: nat, calls: seq<Call>)
    requires Run(v, n, calls).Ok?
    ensures Honours(v, Run(v, n, calls).value.log, Run(v, n, calls).value.state)
    decreases |calls|
  {
    hide Exec, Honours;
    if calls == [] {
      ClearStays(v, v.base, []);
      assert OnBase(v, v.base) == v;
    } else {
      CallHonours(v, n, calls[0]);
      var f := Exec(v, n, calls[0]).value;
      RunHonours(f.state, n + |f.log|, calls[1..]);
      var g := Run(f.state, n + |f.log|, calls[1..]).value;
      HonoursTwice(v, f.log, f.state, g.log, g.state);
    }
  }
}
