/** What turns, rounds and submitted decisions keep, and the measure that each of them lowers. */
module Rounds {
  import opened Geometry
  import opened HalfEdges
  import opened Engine
  import opened Ledger
  import opened Wrappers

  /** Free edges and live worms: a worm's turn uses up at least one of them. */
  ghost function Work(c: Core): int {
    3 * (c.board.width * c.board.height) - |c.trails| + |AliveSlots(c.worms)|
  }

  /** c' is a later state of the same game, whatever the start; what it has kept depends on what the start had. */
  ghost predicate Later(c: Core, c': Core) {
    && c'.board == c.board
    && SameWorms(c.worms, c'.worms)
    && c.trails.Keys <= c'.trails.Keys
    && c'.tick - c.tick == |c'.trails| - |c.trails| >= 0
    && Work(c') <= Work(c)
    && LedgerKept(c, c')
  }

  ghost predicate LedgerKept(c: Core, c': Core) {
    && (Grounded(c) ==> Grounded(c'))
    && (Sound(c) ==> Sound(c') && OwnersKept(c.territories, c'.territories))
  }

  /** Trails and live worms are on a regular board: all that the bounds on a game need. */
  ghost predicate Grounded(c: Core) {
    && Regular(c.board) && AllOnBoard(c.board, c.trails.Keys)
    && forall i :: 0 <= i < |c.worms| && c.worms[i].alive ==> InBounds(c.board, c.worms[i].position)
  }

  lemma SoundIsGrounded(c: Core)
    requires Sound(c)
    ensures Grounded(c)
  {
  }

  ghost predicate SameWorms(ws: seq<Worm>, ws': seq<Worm>) {
    && |ws'| == |ws|
    && forall i :: 0 <= i < |ws| ==>
         ws'[i].id == ws[i].id && ws'[i].frozen == ws[i].frozen && (ws'[i].alive ==> ws[i].alive)
  }

  ghost predicate OwnersKept(cells: map<Point, Territory>, cells': map<Point, Territory>) {
    forall p :: p in cells && cells[p].owner != NOBODY ==> p in cells' && cells'[p] == cells[p]
  }

  /** Everything but the worms' rules, uses and lives, and the controller fields, is as before. */
  ghost predicate SameLedger(c: Core, c': Core) {
    && c'.board == c.board && c'.trails == c.trails && c'.territories == c.territories && c'.tick == c.tick
    && SameWorms(c.worms, c'.worms)
    && forall i :: 0 <= i < |c.worms| ==>
         c'.worms[i].score == c.worms[i].score && c'.worms[i].position == c.worms[i].position
  }

  lemma FrameIsLater(c: Core, c': Core)
    requires SameLedger(c, c')
    ensures Later(c, c')
  {
    hide Regular, MasksInSync;
    SameIds(c.worms, c'.worms);
    SubsetSize(AliveSlots(c'.worms), AliveSlots(c.worms));
    if Sound(c) { SoundFrame(c, c'); }
  }

  lemma SoundFrame(c: Core, c': Core)
    requires Sound(c) && SameLedger(c, c')
    ensures Sound(c') && OwnersKept(c.territories, c'.territories)
  {
    SameIds(c.worms, c'.worms);
  }

  lemma LaterTransitive(a: Core, b: Core, c: Core)
    requires Later(a, b) && Later(b, c)
    ensures Later(a, c)
  {
    hide Sound, Grounded, Work;
  }

  lemma StepIsLater(c: Core, id: Id, h: Heading)
    requires Step(c, id, h).Ok?
    ensures var c' := Step(c, id, h).value.core;
      && Later(c, c') && Work(c') < Work(c) && AddsOneTrail(c, c')
      && c'.pending == c.pending && c'.over == c.over && c'.round == c.round && c'.activeSlot == c.activeSlot
  {
    hide Move, LedgerKept;
    var i := WormIndex(c.worms, id);
    MoveKeepsControl(c, i, h.value);
    MoveAddsTrail(c, i, h.value);
    SubsetSize(AliveSlots(Step(c, id, h).value.core.worms), AliveSlots(c.worms));
    StepKeepsLedger(c, id, h);
  }

  lemma StepKeepsLedger(c: Core, id: Id, h: Heading)
    requires Step(c, id, h).Ok?
    ensures LedgerKept(c, Step(c, id, h).value.core)
  {
    hide Step, Sound, Grounded;
    if Grounded(c) { StepStaysGrounded(c, id, h); }
    if Sound(c) {
      StepKeepsSound(c, id, h);
      StepIsPermanent(c, id, h);
    }
  }

  /** One new trail and one more tick. */
  ghost predicate AddsOneTrail(c: Core, c': Core) {
    c'.tick == c.tick + 1 && |c'.trails| == |c.trails| + 1 && c.trails.Keys < c'.trails.Keys
  }

  lemma MoveAddsTrail(c: Core, i: nat, d: Direction)
    requires i < |c.worms| && EdgeFrom(c.board, c.worms[i].position, d) !in c.trails
    ensures AddsOneTrail(c, Move(c, i, d).core)
  {
    hide Neighbor, Settle, Refreshed, SettleNews;
    NewKey(c.trails, EdgeFrom(c.board, c.worms[i].position, d), c.worms[i].id);
  }

  lemma StepStaysGrounded(c: Core, id: Id, h: Heading)
    requires Grounded(c) && Step(c, id, h).Ok?
    ensures Grounded(Step(c, id, h).value.core)
  {
    hide Neighbor, Settle, Refreshed, SettleNews, Spokes, Regular, OnBoard;
    EdgeFromOnBoard(c.board, c.worms[WormIndex(c.worms, id)].position, h.value);
  }

  lemma MoveKeepsControl(c: Core, i: nat, d: Direction)
    requires i < |c.worms|
    ensures var c' := Move(c, i, d).core;
      && SameWorms(c.worms, c'.worms)
      && (forall j :: 0 <= j < |c.worms| ==> c'.worms[j].rules == c.worms[j].rules)
      && c'.pending == c.pending && c'.over == c.over && c'.round == c.round && c'.activeSlot == c.activeSlot
  {
  }

  lemma ActKeeps(c: Core, slot: nat, m: Mask, a: Action)
    requires slot < |c.worms| && Act(c, slot, m, a).Continue?
    ensures var c' := Act(c, slot, m, a).core;
      && Later(c, c') && Work(c') < Work(c)
      && c'.pending == c.pending && c'.over == c.over && c'.round == c.round && c'.activeSlot == c.activeSlot
  {
    hide Step, Later;
    var counted := Count(c, slot, m);
    FrameIsLater(c, counted);
    assert Work(counted) == Work(c) by { assert AliveSlots(counted.worms) == AliveSlots(c.worms); }
    StepIsLater(counted, c.worms[slot].id, Some(a.dir));
    LaterTransitive(c, counted, Act(c, slot, m, a).core);
  }

  lemma FallKeeps(c: Core, slot: nat)
    requires slot < |c.worms| && c.worms[slot].alive
    ensures var c' := Fall(c, slot); Later(c, c') && Work(c') < Work(c)
  {
    hide Later;
    FrameIsLater(c, Fall(c, slot));
    assert AliveSlots(Fall(c, slot).worms) == AliveSlots(c.worms) - {slot};
  }

  /** The decision a stalled turn leaves behind, before its request number. */
  ghost predicate PendingMatches(c: Core) {
    && c.pending.Some?
    && var p := c.pending.value;
    && 0 <= p.slot < |c.worms|
    && var w := c.worms[p.slot];
    && w.alive && p.worm == w.id && p.frozen == w.frozen && p.mask == MaskAt(c, w.position)
    && p.reason == UNKNOWN_PATTERN
    && LegalMoves(c, w.id) != []
    && c.activeSlot == p.slot
  }

  /** A turn either goes on, having used up work, or stalls on an unknown mask. */
  ghost predicate TurnResult(c: Core, slot: nat, m: Mask, r: Turn)
    requires slot < |c.worms|
  {
    && (r.Continue? ==>
          && Later(c, r.core) && Work(r.core) < Work(c)
          && r.core.pending == c.pending && r.core.over == c.over && r.core.round == c.round)
    && (r.Stall? ==>
          && r.core == c.(pending := r.core.pending) && r.core.pending.Some? && PendingMatches(r.core)
          && r.core.pending.value.slot == slot && r.core.pending.value.mask == m)
  }

  lemma ActTurn(c: Core, slot: nat, m: Mask, a: Action)
    requires slot < |c.worms|
    ensures TurnResult(c, slot, m, Act(c, slot, m, a))
  {
    if Act(c, slot, m, a).Continue? {
      ActKeeps(c, slot, m, a);
    }
  }

  lemma AutomaticTurn(c: Core, slot: nat, m: Mask, a: Action)
    requires slot < |c.worms|
    ensures TurnResult(c, slot, m, Automatic(c, slot, m, a))
  {
    hide Act, Later;
    if c.worms[slot].frozen {
      ActTurn(c, slot, m, a);
    } else {
      var learned := Learn(c, slot, m, a);
      FrameIsLater(c, learned);
      assert Work(learned) == Work(c) by { assert AliveSlots(learned.worms) == AliveSlots(c.worms); }
      ActTurn(learned, slot, m, a);
      if Act(learned, slot, m, a).Continue? {
        LaterTransitive(c, learned, Act(learned, slot, m, a).core);
      }
    }
  }

  lemma ObeyTurn(c: Core, slot: nat, m: Mask, a: Action, n: nat)
    requires slot < |c.worms| && c.activeSlot == slot
    requires c.worms[slot].alive && LegalMoves(c, c.worms[slot].id) != [] && m == MaskAt(c, c.worms[slot].position)
    ensures TurnResult(c, slot, m, Obey(c, slot, m, a, n))
    ensures Obey(c, slot, m, a, n).Stall? <==> a == GetNew
  {
    match a
    case GetNew => StallMatches(c, slot, n);
    case DoAI => AutomaticTurn(c, slot, m, ActionOf(ChooseAuto(c, slot)));
    case Die => FallKeeps(c, slot);
    case _ => ActTurn(c, slot, m, a);
  }

  lemma StallMatches(c: Core, slot: nat, n: nat)
    requires slot < |c.worms| && c.activeSlot == slot && c.worms[slot].alive && LegalMoves(c, c.worms[slot].id) != []
    ensures PendingMatches(AwaitDecision(c, slot, MaskAt(c, c.worms[slot].position), n).core)
  {
    var c' := AwaitDecision(c, slot, MaskAt(c, c.worms[slot].position), n).core;
    PendingIsNotRead(c, c'.pending, c.worms[slot].id);
  }

  lemma TurnKeeps(c: Core, slot: nat, n: nat)
    requires slot < |c.worms| && c.activeSlot == slot
    ensures var r := TakeTurn(c, slot, n);
      if c.worms[slot].alive then TurnResult(c, slot, MaskAt(c, c.worms[slot].position), r)
      else r == Continue(c, [])
  {
    var w := c.worms[slot];
    if w.alive {
      if LegalMoves(c, w.id) == [] {
        FallKeeps(c, slot);
      } else {
        ObeyTurn(c, slot, MaskAt(c, w.position), RuleAt(w, MaskAt(c, w.position)), n);
      }
    }
  }

  lemma {:induction false} PendingIsNotRead(c: Core, p: Option<Decision>, id: Id)
    ensures LegalMoves(c.(pending := p), id) == LegalMoves(c, id)
  {
    var i := WormIndex(c.worms, id);
    if i >= 0 {
      LegalReads(c, c.(pending := p), c.worms[i].position, DIRECTIONS);
    }
  }

  /** Legality reads the board, the trails, the territories and where the live worms are. */
  lemma {:induction false} LegalReads(c: Core, c': Core, from: Point, dirs: seq<Direction>)
    requires c'.board == c.board && c'.trails == c.trails && c'.territories == c.territories
    requires forall p :: HasWorm(c', p) == HasWorm(c, p)
    ensures LegalAmong(c', from, dirs) == LegalAmong(c, from, dirs)
    decreases |dirs|
  {
    if dirs == [] {
    } else {
      LegalReads(c, c', from, dirs[1..]);
      assert IsLegal(c', from, dirs[0]) == IsLegal(c, from, dirs[0]);
    }
  }

  /** The live worms a round from this slot on still has to serve. */
  ghost predicate AliveFrom(c: Core, slot: nat) {
    exists i :: slot <= i < |c.worms| && c.worms[i].alive
  }

  /** How the rest of a round ends: stalled with the round open, or closed with every live worm served. */
  ghost predicate RoundResult(c: Core, slot: nat, c': Core) {
    && Later(c, c')
    && (c'.pending.Some? ==> PendingMatches(c') && c'.round == c.round && c'.over == c.over)
    && (c'.pending.None? ==>
          && c'.activeSlot == -1 && c'.round == c.round + 1
          && (c'.over <==> c.over || AliveSlots(c'.worms) == {})
          && (AliveFrom(c, slot) ==> Work(c') < Work(c)))
  }

  lemma {:induction false} SlotsKeep(c: Core, slot: nat, n: nat)
    requires c.pending.None? && Slots(c, slot, n).Ok?
    ensures RoundResult(c, slot, Slots(c, slot, n).value.core)
    decreases |c.worms| - slot
  {
    hide Later, TakeTurn, PendingMatches, RoundResult, TurnResult;
    if slot >= |c.worms| {
      RoundEnds(c, slot);
    } else {
      var at := c.(activeSlot := slot);
      TurnKeeps(at, slot, n);
      var r := TakeTurn(at, slot, n);
      if r.Stall? {
        RoundStalls(c, slot, r);
      } else {
        TurnGoesOn(c, slot, r);
        SlotsKeep(r.core, slot + 1, n + |r.log|);
        RestOfRound(c, slot, r.core, Slots(r.core, slot + 1, n + |r.log|).value.core);
      }
    }
  }

  lemma RoundEnds(c: Core, slot: nat)
    requires c.pending.None? && slot >= |c.worms|
    ensures RoundResult(c, slot, Finish(c).core)
  {
    hide Later;
    FrameIsLater(c, Finish(c).core);
  }

  lemma RoundStalls(c: Core, slot: nat, r: Turn)
    requires slot < |c.worms| && r.Stall?
    requires TurnResult(c.(activeSlot := slot), slot, MaskAt(c, c.worms[slot].position), r)
    ensures RoundResult(c, slot, r.core)
  {
    hide Later, PendingMatches;
    FrameIsLater(c, r.core);
  }

  lemma TurnGoesOn(c: Core, slot: nat, r: Turn)
    requires slot < |c.worms| && c.pending.None? && r.Continue?
    requires var at := c.(activeSlot := slot);
      if c.worms[slot].alive then TurnResult(at, slot, MaskAt(c, c.worms[slot].position), r) else r == Continue(at, [])
    ensures r.core.pending.None? && r.core.over == c.over && r.core.round == c.round
    ensures if c.worms[slot].alive then Later(c, r.core) && Work(r.core) < Work(c) else r.core == c.(activeSlot := slot)
  {
    hide Later, Work;
    var at := c.(activeSlot := slot);
    FrameIsLater(c, at);
    assert Work(at) == Work(c) by { SameWork(c, at); }
    if c.worms[slot].alive {
      LaterTransitive(c, at, r.core);
    }
  }

  lemma SameWork(c: Core, c': Core)
    requires c'.board == c.board && c'.trails == c.trails && AliveSlots(c'.worms) == AliveSlots(c.worms)
    ensures Work(c') == Work(c)
  {
  }

  lemma RestOfRound(c: Core, slot: nat, mid: Core, end: Core)
    requires slot < |c.worms| && mid.over == c.over && mid.round == c.round
    requires if c.worms[slot].alive then Later(c, mid) && Work(mid) < Work(c) else mid == c.(activeSlot := slot)
    requires RoundResult(mid, slot + 1, end)
    ensures RoundResult(c, slot, end)
  {
    hide Later, PendingMatches, AliveSlots, Work;
    if c.worms[slot].alive {
      LaterTransitive(c, mid, end);
      LaterWorks(mid, end);
    } else {
      FrameIsLater(c, mid);
      LaterTransitive(c, mid, end);
      assert Work(mid) == Work(c) by { SameWork(c, mid); }
    }
    if AliveFrom(c, slot) && !c.worms[slot].alive {
      var i :| slot <= i < |c.worms| && c.worms[i].alive;
      assert mid.worms[i].alive;
    }
  }

  lemma LaterWorks(c: Core, c': Core)
    requires Later(c, c')
    ensures Work(c') <= Work(c)
  {
  }

  // ----- pending decisions, whatever the ledger

  /** A pending decision names the worm in its slot. */
  ghost predicate PendingNamed(c: Core) {
    c.pending.Some? ==> PendingInRange(c) && c.pending.value.worm == c.worms[c.pending.value.slot].id
  }

  lemma ActPending(c: Core, slot: nat, m: Mask, a: Action)
    requires slot < |c.worms| && Act(c, slot, m, a).Continue?
    ensures Act(c, slot, m, a).core.pending == c.pending
  {
    hide Move;
    var counted := Count(c, slot, m);
    MoveKeepsControl(counted, WormIndex(counted.worms, c.worms[slot].id), a.dir);
  }

  /** A turn that goes on leaves the pending decision alone; a stall names its worm. */
  lemma TurnPending(c: Core, slot: nat, n: nat)
    requires slot < |c.worms|
    ensures var r := TakeTurn(c, slot, n);
      (r.Continue? ==> r.core.pending == c.pending) && (r.Stall? ==> PendingNamed(r.core))
  {
    hide Act, LegalMoves, ChooseAuto, MaskAt;
    var w := c.worms[slot];
    var m := MaskAt(c, w.position);
    var a := if RuleAt(w, m) == DoAI then ActionOf(ChooseAuto(c, slot)) else RuleAt(w, m);
    if Act(c, slot, m, a).Continue? { ActPending(c, slot, m, a); }
    if Act(Learn(c, slot, m, a), slot, m, a).Continue? { ActPending(Learn(c, slot, m, a), slot, m, a); }
  }
}
