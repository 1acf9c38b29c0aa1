/**
 * The engine's mutable state. Every method performs, in place, the operation that module Engine specifies on values.
 */
module GameState {
  import opened Geometry
  import opened Engine
  import opened EventLog
  import opened Wrappers

  class State {
    const board: Board
    var tick: nat
    var round: nat
    var worms: seq<Worm>
    var trails: map<Edge, Id>
    var territories: map<Point, Territory>
    var events: seq<Event>
    var activeSlot: int
    var pending: Option<Decision>
    var gameOver: bool

    ghost function Value(): Core
      reads this
    {
      Core(board, tick, round, worms, trails, territories, activeSlot, pending, gameOver)
    }

    ghost function Whole(): Game
      reads this
    {
      Game(Value(), events)
    }

    constructor (g: Game)
      ensures Whole() == g
    {
      board, tick, round, worms := g.core.board, g.core.tick, g.core.round, g.core.worms;
      trails, territories, events := g.core.trails, g.core.territories, g.events;
      activeSlot, pending, gameOver := g.core.activeSlot, g.core.pending, g.core.over;
    }

    /** A detached copy. */
    method Snapshot() returns (copy: State)
      ensures fresh(copy) && copy.Whole() == Whole()
    {
      copy := new State(Game(
          Core(board, tick, round, worms, trails, territories, activeSlot, pending, gameOver), events));
    }

    /** Put back an earlier copy, as a failed round does. */
    method Restore(before: State)
      requires before.board == board
      modifies this
      ensures Whole() == old(before.Whole())
    {
      tick, round, worms, trails := before.tick, before.round, before.worms, before.trails;
      territories, events := before.territories, before.events;
      activeSlot, pending, gameOver := before.activeSlot, before.pending, before.gameOver;
    }

    method TrailMask(p: Point) returns (m: Mask)
      ensures m == Spokes(board, trails, p)
    {
      m := {};
      for k := 0 to 6
        invariant m == set d | d in DIRECTIONS[..k] && EdgeFrom(board, p, d) in trails
      {
        var d := DIRECTIONS[k];
        assert DIRECTIONS[..k + 1] == DIRECTIONS[..k] + [d];
        if NewEdge(p, Neighbor(board, p, d)) in trails {
          m := m + {d};
        }
      }
      assert DIRECTIONS[..6] == DIRECTIONS;
      forall d: Direction ensures d in DIRECTIONS <==> d in FULL { EveryDirection(d); }
    }

    method CellMask(p: Point) returns (m: Mask)
      ensures m == MaskAt(Value(), p)
    {
      m := TrailMask(p);
      if p in territories && territories[p].mask != {} {
        m := m + territories[p].mask;
      }
    }

    method IndexOf(id: Id) returns (i: int)
      ensures i == WormIndex(worms, id)
    {
      for k := 0 to |worms|
        invariant forall j :: 0 <= j < k ==> worms[j].id != id
      {
        if worms[k].id == id {
          return k;
        }
      }
      return -1;
    }

    method Occupied(p: Point) returns (b: bool)
      ensures b == HasWorm(Value(), p)
    {
      for k := 0 to |worms|
        invariant forall j :: 0 <= j < k ==> !(worms[j].alive && worms[j].position == p)
      {
        if worms[k].alive && worms[k].position == p {
          return true;
        }
      }
      return false;
    }

    /** One direction's test in `LegalMoves`, given the mask of the worm's cell. */
    method Open(from: Point, m: Mask, d: Direction) returns (open: bool)
      requires m == MaskAt(Value(), from)
      ensures open == IsLegal(Value(), from, d)
    {
      if d in m {
        return false;
      }
      var to := Neighbor(board, from, d);
      if !InBounds(board, to) {
        return false;
      }
      if board.mode == ModernRules {
        var taken := Occupied(to);
        return !taken;
      }
      return true;
    }

    method Moves(id: Id) returns (out: seq<Direction>)
      ensures out == LegalMoves(Value(), id)
    {
      hide IsLegal, MaskAt, LegalAmong;
      out := [];
      var i := IndexOf(id);
      if i < 0 || !worms[i].alive {
        return;
      }
      var from := worms[i].position;
      var m := CellMask(from);
      LegalNone(Value(), from);
      for k := 0 to 6
        invariant out == LegalAmong(Value(), from, DIRECTIONS[..k])
      {
        var d := DIRECTIONS[k];
        assert DIRECTIONS[..k + 1] == DIRECTIONS[..k] + [d];
        LegalSnoc(Value(), from, DIRECTIONS[..k], d);
        var open := Open(from, m, d);
        if open {
          out := out + [d];
        }
      }
      assert DIRECTIONS[..6] == DIRECTIONS;
    }

    method Append(body: Body) returns (e: Event)
      modifies this`events
      ensures e == Event(EVENT_VERSION, |old(events)| + 1, tick, round, body)
      ensures events == old(events) + [e]
    {
      e := Event(EVENT_VERSION, |events| + 1, tick, round, body);
      events := events + [e];
    }

    /** The events that a list of bodies becomes when emitted now. */
    ghost function Emitting(bodies: seq<Body>): seq<Event>
      reads this
    {
      Stamp(|events|, EmitAll(tick, round, bodies))
    }

    method RecolorCapture(i: nat, p: Point, color: Color)
      requires i < |worms|
      modifies this`territories, this`worms, this`events
      ensures var t := CellAt(old(territories), p); var m := Refreshed(board, trails, old(territories), p);
        && territories == old(territories)[p := Settle(t, m, old(worms[i].id), color)]
        && worms == old(worms)[i := old(worms[i]).(score := old(worms[i].score) + Points(t, m))]
        && events == old(events) + old(Emitting(SettleNews(t, m, worms[i].id, color, p)))
    {
      hide Spokes;
      ghost var news := SettleNews(CellAt(territories, p),
          Refreshed(board, trails, territories, p), worms[i].id, color, p);
      SameSlot(worms, i);
      var t := if p in territories then territories[p] else Territory({}, NOBODY, NOBODY);
      var spokes := TrailMask(p);
      t := t.(mask := t.mask + spokes);
      if t.mask == FULL {
        if t.owner == NOBODY {
          t := t.(owner := worms[i].id, color := color);
          worms := worms[i := worms[i].(score := worms[i].score + 1)];
          territories := territories[p := t];
          var e := Append(TerritoryCaptured(worms[i].id, p, color, 1, FULL));
          OneEmitted(old(events), tick, round, news, e);
          return;
        }
        territories := territories[p := t];
        return;
      }
      if t.owner == NOBODY {
        t := t.(color := color);
        var e := Append(TerritoryColorChanged(worms[i].id, p, color, t.mask));
        OneEmitted(old(events), tick, round, news, e);
      }
      territories := territories[p := t];
    }

    /** What an operation on values says about this object: its state, and the events appended to its log. */
    twostate predicate Became(new r: Done)
      reads this
    {
      Value() == r.core && events == old(events) + Stamp(|old(events)|, r.log)
    }

    /** A new tick, and in it the trail of the move. */
    method DrawTrail(i: nat, d: Direction)
      requires i < |worms|
      modifies this`tick, this`trails, this`events
      ensures var c := old(Value()); var p := Parts(c, i, d); var w := c.worms[i];
        && tick == c.tick + 1 && trails == c.trails[EdgeFrom(board, w.position, d) := w.id]
        && events == old(events) + Stamp(|old(events)|, EmitAll(tick, round, [ClaimBody(c, i, d)]))
    {
      hide Neighbor, Spokes, Settle, NewEdge;
      ghost var c, before := Value(), events;
      ghost var parts := Parts(c, i, d);
      var id := worms[i].id;
      var color := if worms[i].color == NOBODY then id else worms[i].color;
      var from := worms[i].position;
      var to := Neighbor(board, from, d);
      var edge := NewEdge(from, to);
      tick := tick + 1;
      trails := trails[edge := id];
      var m := CellMask(from);
      assert m == parts.sourceMask by { assert m == Spokes(board, trails, from) + CellAt(c.territories, from).mask; }
      var _ := Append(TrailClaimed(id, from, to, edge, color, m));
      EmittedOne(before, tick, round, TrailClaimed(id, from, to, edge, color, m));
    }

    /** The first half of a move: the trail is drawn and the source cell settled. */
    method LeaveCell(i: nat, d: Direction)
      requires i < |worms|
      modifies this`tick, this`trails, this`territories, this`worms, this`events
      ensures var c := old(Value()); var p := Parts(c, i, d); var w := c.worms[i];
        && tick == c.tick + 1 && trails == c.trails[EdgeFrom(board, w.position, d) := w.id] && territories == p.cells
        && worms == c.worms[i := w.(score := w.score + Points(p.source, p.sourceMask))]
        && events == old(events) + Stamp(|old(events)|, EmitAll(tick, round, LeaveBodies(c, i, d)))
    {
      hide Neighbor, Spokes, Settle, SettleNews, Points, NewEdge;
      ghost var c, before := Value(), events;
      ghost var parts := Parts(c, i, d);
      var id := worms[i].id;
      var color := if worms[i].color == NOBODY then id else worms[i].color;
      var from := worms[i].position;
      DrawTrail(i, d);
      RecolorCapture(i, from, color);
      EmittedMore(before, tick, round, [ClaimBody(c, i, d)],
                  SettleNews(parts.source, parts.sourceMask, id, color, from));
    }

    /** The second half: the worm is moved and the target cell settled. */
    method EnterCell(i: nat, d: Direction, ghost c: Core, ghost before: seq<Event>)
      requires i < |c.worms| == |worms| && board == c.board
      requires var p := Parts(c, i, d); var w := c.worms[i];
        && tick == c.tick + 1 && trails == c.trails[EdgeFrom(board, w.position, d) := w.id] && territories == p.cells
        && worms == c.worms[i := w.(score := w.score + Points(p.source, p.sourceMask))]
        && events == before + Stamp(|before|, EmitAll(tick, round, LeaveBodies(c, i, d)))
      modifies this`territories, this`worms, this`events
      ensures var p := Parts(c, i, d); var w := c.worms[i]; var to := Neighbor(board, w.position, d);
        && worms == c.worms[i := EnteredWorm(c, i, d)]
        && territories == p.cells[to := Settle(p.target, p.targetMask, w.id, TrailColor(w))]
        && events == before + Stamp(|before|, EmitAll(tick, round, EnterBodies(c, i, d)))
    {
      hide Neighbor, Spokes, Settle, SettleNews, Points, LeaveBodies, NewEdge;
      ghost var parts := Parts(c, i, d);
      ghost var bodies := LeaveBodies(c, i, d);
      var id := worms[i].id;
      var color := if worms[i].color == NOBODY then id else worms[i].color;
      var from := worms[i].position;
      var to := Neighbor(board, from, d);
      worms := worms[i := worms[i].(position := to, previous := Some(d), crix := Some(Opposite(d)))];
      RecolorCapture(i, to, color);
      ghost var news := SettleNews(parts.target, parts.targetMask, id, color, to);
      EmittedMore(before, tick, round, bodies, news);
      var _ := Append(WormMoved(id, from, to, NewEdge(from, to), color));
      EmittedSnoc(before, tick, round, bodies + news, WormMoved(id, from, to, NewEdge(from, to), color));
    }

    /** A worm that has arrived in a completed cell dies there. */
    method Perish(i: nat)
      requires i < |worms|
      modifies this`worms, this`events
      ensures var w := old(worms[i]);
        if MaskAt(old(Value()), w.position) == FULL
        then worms == old(worms)[i := w.(alive := false, crix := None)]
             && events == old(events)
                          + [Event(EVENT_VERSION, |old(events)| + 1, tick, round, WormDied(w.id, w.position))]
        else worms == old(worms) && events == old(events)
    {
      var full := CellMask(worms[i].position);
      if full == FULL {
        worms := worms[i := worms[i].(alive := false, crix := None)];
        var _ := Append(WormDied(worms[i].id, worms[i].position));
      }
    }

    method DoMove(i: nat, d: Direction)
      requires i < |worms| && worms[i].alive
      modifies this
      ensures Became(Move(old(Value()), i, d))
    {
      hide Neighbor, Settle, Points, Move, Parts, LeaveBodies, EnterBodies, MaskAt;
      ghost var c, before := Value(), events;
      ghost var to := Neighbor(board, worms[i].position, d);
      LeaveCell(i, d);
      EnterCell(i, d, c, before);
      TargetMaskCovers(c, i, d);
      SettledMask(Value(), to, Parts(c, i, d).target, Parts(c, i, d).targetMask, c.worms[i].id, TrailColor(c.worms[i]));
      Perish(i);
      EmittedSnoc(before, tick, round, EnterBodies(c, i, d), WormDied(c.worms[i].id, to));
      assert worms == c.worms[i := PartsWorm(c, i, d)];
      MoveAssembled(c, i, d, Value());
      MoveLogByParts(c, i, d);
    }

    /** `Step`: every rejection leaves the state as it was. */
    method Step(id: Id, h: Heading) returns (r: Outcome<Event>)
      modifies this
      ensures match Engine.Step(old(Value()), id, h)
        case Err(e) => r == Err(e) && Whole() == old(Whole())
        case Ok(d) =>
          && Became(d)
          && 0 <= ReturnedAt(d.log) < |d.log|
          && r == Ok(Stamp(|old(events)|, d.log)[ReturnedAt(d.log)])
    {
      hide Move, MaskAt, Neighbor;
      if gameOver {
        return Err(Rejected(GameOver));
      }
      var i := IndexOf(id);
      if i < 0 {
        return Err(Rejected(UnknownWorm));
      }
      if !worms[i].alive {
        return Err(Rejected(DeadWorm));
      }
      if h.None? {
        return Err(Rejected(InvalidDirection));
      }
      var from := worms[i].position;
      var m := CellMask(from);
      if h.value in m {
        return Err(Rejected(OccupiedSpoke));
      }
      var to := Neighbor(board, from, h.value);
      if !InBounds(board, to) {
        return Err(Rejected(OutOfBounds));
      }
      if board.mode == ModernRules {
        var taken := Occupied(to);
        if taken {
          return Err(Rejected(OccupiedDestination));
        }
      }
      if NewEdge(from, to) in trails {
        return Err(Rejected(ExistingTrail));
      }
      ghost var c, n := Value(), |events|;
      DoMove(i, h.value);
      MoveReturns(c, i, h.value);
      var last := |events| - 1;
      return Ok(events[if events[last].body.WormDied? then last - 1 else last]);
    }

    /** `kill`: a worm that cannot or will not move dies where it is. */
    method Kill(slot: nat, body: Body)
      requires slot < |worms|
      modifies this`worms, this`events
      ensures Value() == Fall(old(Value()), slot)
      ensures events == old(events) + Stamp(|old(events)|, [Emit(old(Value()), body)])
    {
      worms := worms[slot := worms[slot].(alive := false, crix := None)];
      var _ := Append(body);
    }

    method CountColliders(slot: nat, to: Point) returns (n: nat)
      ensures n == |Colliders(Value(), slot, to)|
    {
      n := 0;
      ghost var seen: set<nat> := {};
      for k := 0 to |worms|
        invariant seen == set i: nat | i < k && i != slot && worms[i].alive && worms[i].position == to
        invariant n == |seen|
      {
        if k != slot && worms[k].alive && worms[k].position == to {
          n := n + 1;
          seen := seen + {k};
        }
      }
      assert seen == Colliders(Value(), slot, to);
    }

    /** `chooseAuto`: try every legal move on a copy, keep the best, and break ties by the seeded draw. */
    method Choose(slot: nat) returns (h: Heading)
      requires slot < |worms|
      ensures h == ChooseAuto(Value(), slot)
    {
      hide Engine.Step, Rate, LegalMoves, Better, XorShift;
      var moves := Moves(worms[slot].id);
      if |moves| == 0 {
        return None;
      }
      ghost var c := Value();
      var best := WORST;
      var ties: seq<Direction> := [];
      for k := 0 to |moves|
        invariant Weigh(c, slot, moves[k..], best, ties) == Weigh(c, slot, moves, WORST, [])
      {
        var d := moves[k];
        assert moves[k..][0] == d && moves[k..][1..] == moves[k + 1..];
        var score := Trial(slot, d);
        if score.Some? {
          if Better(score.value, best) {
            best := score.value;
            ties := [d];
          } else if score.value == best {
            ties := ties + [d];
          }
        }
      }
      if |ties| == 0 {
        return Some(moves[0]);
      }
      if |ties| == 1 {
        return Some(ties[0]);
      }
      h := Some(ties[DrawAt(worms[slot].seed, round, tick, slot, |ties|)]);
    }

    /** The rating of one trial move, unless `Step` rejects it. */
    method Trial(slot: nat, d: Direction) returns (score: Option<AutoScore>)
      requires slot < |worms|
      ensures var r := Engine.Step(Value(), worms[slot].id, Some(d));
        score == if r.Ok? then Some(Rate(Value(), slot, d)) else None
    {
      hide Engine.Step, LegalMoves;
      var trial := Snapshot();
      var before := trial.worms[slot].score;
      var r := trial.Step(worms[slot].id, Some(d));
      if r.Err? {
        return None;
      }
      var collision := CountColliders(slot, Neighbor(board, worms[slot].position, d));
      var onward := trial.Moves(worms[slot].id);
      score := Some(AutoScore(trial.worms[slot].score - before, collision, |onward|));
    }

    /** Count the use of a remembered direction and play it. */
    method Play(slot: nat, m: Mask, a: Action) returns (r: Outcome<()>)
      requires slot < |worms|
      modifies this
      ensures match Act(old(Value()), slot, m, a)
        case Continue(c, log) => r == Ok(()) && Became(Done(c, log))
        case Fail(e) => r == Err(e)
        case Stall(_, _) => false
    {
      hide Engine.Step;
      var id := worms[slot].id;
      if !a.Go? || a.dir in m {
        return Err(IllegalRule(id, m, a));
      }
      ghost var c, before := Value(), events;
      CountUse(slot, m, a);
      ghost var counted := Value();
      var step := Step(id, Some(a.dir));
      if step.Err? {
        return Err(step.error);
      }
      ghost var d := Engine.Step(counted, id, Some(a.dir)).value;
      StampMore(before, [UseEvent(counted, slot, m, a)], d.log);
      return Ok(());
    }

    method CountUse(slot: nat, m: Mask, a: Action)
      requires slot < |worms|
      modifies this`worms, this`events
      ensures Became(Done(Count(old(Value()), slot, m), [UseEvent(Count(old(Value()), slot, m), slot, m, a)]))
    {
      var w := worms[slot];
      var uses := (UsesAt(w, m) + 1) % USE_COUNT_MODULUS;
      worms := worms[slot := w.(uses := w.uses[m := uses])];
      var _ := Append(RuleUsed(w.id, slot, m, a, uses));
    }

    method LearnRule(slot: nat, m: Mask, a: Action, provenance: string)
      requires slot < |worms|
      modifies this`worms, this`events
      ensures Became(Done(Learn(old(Value()), slot, m, a),
                          [Emit(old(Value()), RuleLearned(old(worms[slot].id), slot, m, a, provenance))]))
    {
      var w := worms[slot];
      worms := worms[slot := w.(rules := w.rules[m := a])];
      var _ := Append(RuleLearned(w.id, slot, m, a, provenance));
    }

    method PlayAutomatic(slot: nat, m: Mask) returns (r: Outcome<()>)
      requires slot < |worms|
      modifies this
      ensures match Automatic(old(Value()), slot, m, ActionOf(ChooseAuto(old(Value()), slot)))
        case Continue(c, log) => r == Ok(()) && Became(Done(c, log))
        case Fail(e) => r == Err(e)
        case Stall(_, _) => false
    {
      hide Act, ChooseAuto;
      var h := Choose(slot);
      var a := ActionOf(h);
      if worms[slot].frozen {
        r := Play(slot, m, a);
        return;
      }
      ghost var c, before := Value(), events;
      LearnRule(slot, m, a, "auto");
      ghost var learned := Value();
      r := Play(slot, m, a);
      if r.Ok? {
        StampMore(before, [Emit(c, RuleLearned(c.worms[slot].id, slot, m, a, "auto"))], Act(learned, slot, m, a).log);
      }
    }

    method Await(slot: nat, m: Mask)
      requires slot < |worms|
      modifies this`pending, this`events
      ensures var r := AwaitDecision(old(Value()), slot, m, |old(events)|); Became(Done(r.core, r.log))
    {
      var w := worms[slot];
      var request := |events| + 1;
      pending := Some(Decision(w.id, m, slot, request, UNKNOWN_PATTERN, w.frozen));
      var _ := Append(DecisionPending(w.id, m, slot, request, UNKNOWN_PATTERN));
    }

    /** The body of the slot loop; `stalled` tells the loop to leave the round open. */
    method ServeSlot(slot: nat) returns (r: Outcome<()>, stalled: bool)
      requires slot < |worms|
      modifies this
      ensures match TakeTurn(old(Value()), slot, |old(events)|)
        case Continue(c, log) => r == Ok(()) && !stalled && Became(Done(c, log))
        case Stall(c, log) => r == Ok(()) && stalled && Became(Done(c, log))
        case Fail(e) => r == Err(e)
    {
      hide Act, Automatic, LegalMoves, ChooseAuto, MaskAt;
      r, stalled := Ok(()), false;
      var w := worms[slot];
      if !w.alive {
        StampNothing(events);
        return;
      }
      var m := CellMask(w.position);
      var moves := Moves(w.id);
      if |moves| == 0 {
        Kill(slot, WormBlocked(w.id, w.position));
        return;
      }
      match RuleAt(w, m) {
        case GetNew =>
          Await(slot, m);
          stalled := true;
        case DoAI =>
          r := PlayAutomatic(slot, m);
        case Die =>
          Kill(slot, WormDied(w.id, w.position));
        case a =>
          r := Play(slot, m, a);
      }
    }

    method CountAlive() returns (n: nat)
      ensures n == |AliveSlots(worms)|
    {
      n := 0;
      ghost var seen: set<nat> := {};
      for k := 0 to |worms|
        invariant seen == set i: nat | i < k && worms[i].alive
        invariant n == |seen|
      {
        if worms[k].alive {
          n := n + 1;
          seen := seen + {k};
        }
      }
      assert seen == AliveSlots(worms);
    }

    method CloseRound()
      modifies this
      ensures Became(Finish(old(Value())))
    {
      ghost var c, before := Value(), events;
      activeSlot := -1;
      round := round + 1;
      ghost var c' := Value();
      var _ := Append(RoundCompleted);
      var n := CountAlive();
      if n == 0 {
        gameOver := true;
        var _ := Append(GameEnded);
        StampMore(before, [Emit(c', RoundCompleted)], [Emit(c', GameEnded)]);
      }
    }

    /** The slot loop of `AdvanceRound`, which `advanceAfterSubmit` repeats from the slot after the answered one. */
    method RunSlots(start: nat) returns (r: Outcome<()>)
      modifies this
      ensures match Slots(old(Value()), start, |old(events)|)
        case Ok(d) => r == Ok(()) && Became(d)
        case Err(e) => r == Err(e)
    {
      hide TakeTurn, Finish;
      ghost var c0, before := Value(), events;
      ghost var log: seq<Draft> := [];
      StampNothing(events);
      AfterNothing(Slots(c0, start, |before|));
      var slot: nat := start;
      while slot < |worms|
        invariant events == before + Stamp(|before|, log)
        invariant Slots(c0, start, |before|) == After(log, Slots(Value(), slot, |events|))
      {
        activeSlot := slot;
        ghost var at, n := Value(), |events|;
        var turn, stalled := ServeSlot(slot);
        ghost var t := TakeTurn(at, slot, n);
        if turn.Err? {
          return Err(turn.error);
        }
        StampMore(before, log, t.log);
        if stalled {
          return Ok(());
        }
        AfterTwice(log, t.log, Slots(Value(), slot + 1, |events|));
        log := log + t.log;
        slot := slot + 1;
      }
      ghost var last := Value();
      CloseRound();
      StampMore(before, log, Finish(last).log);
      return Ok(());
    }

    method AdvanceRound() returns (r: Outcome<seq<Event>>)
      modifies this
      ensures match Engine.AdvanceRound(old(Value()), |old(events)|)
        case Ok(d) => Became(d) && r == Ok(Stamp(|old(events)|, d.log))
        case Err(e) => r == Err(e) && Whole() == old(Whole())
    {
      hide Slots;
      if pending.Some? {
        return Err(Rejected(PendingDecision));
      }
      if gameOver {
        return Err(Rejected(GameOver));
      }
      var before := Snapshot();
      var start := if activeSlot >= 0 then activeSlot else 0;
      var n := |events|;
      var done := RunSlots(start);
      if done.Err? {
        Restore(before);
        return Err(done.error);
      }
      return Ok(events[n..]);
    }

    method Submit(h: Heading) returns (r: Outcome<seq<Event>>)
      modifies this
      ensures match Engine.Submit(old(Value()), |old(events)|, h)
        case Ok(d) => Became(d) && r == Ok(Stamp(|old(events)|, d.log))
        case Err(e) => r == Err(e) && Whole() == old(Whole())
    {
      hide Slots, LegalMoves, Answer;
      if pending.None? {
        return Err(Rejected(PendingDecision));
      }
      var p := pending.value;
      if p.slot < 0 || p.slot >= |worms| {
        return Err(Crash);
      }
      var w := worms[p.slot];
      if p.frozen || w.frozen {
        return Err(Rejected(FrozenUnknown));
      }
      if h.None? {
        return Err(Rejected(InvalidDirection));
      }
      var moves := Moves(w.id);
      if h.value !in moves {
        return Err(Rejected(OccupiedSpoke));
      }
      var before := Snapshot();
      var n := |events|;
      ghost var c, log := Value(), events;
      var answered := AnswerPending(h.value);
      if answered.Err? {
        Restore(before);
        return Err(answered.error);
      }
      ghost var a := Answer(c, h.value).value;
      var done := RunSlots(p.slot + 1);
      if done.Err? {
        Restore(before);
        return Err(done.error);
      }
      StampMore(log, a.log, Slots(a.core, p.slot + 1, |log| + |a.log|).value.log);
      return Ok(events[n..]);
    }

    /** Teach the submitted direction, resolve the decision and make the move. */
    method AnswerPending(d: Direction) returns (r: Outcome<()>)
      requires pending.Some? && PendingInRange(Value())
      modifies this
      ensures match Answer(old(Value()), d)
        case Ok(done) => r == Ok(()) && Became(done)
        case Err(e) => r == Err(e)
    {
      hide Engine.Step, Taught;
      ghost var c, before := Value(), events;
      var id := worms[pending.value.slot].id;
      Teach(d);
      var step := Step(id, Some(d));
      if step.Err? {
        return Err(step.error);
      }
      StampMore(before, TeachingNews(c, d), Engine.Step(Taught(c, d), id, Some(d)).value.log);
      return Ok(());
    }

    /** The pending worm learns the direction, its decision is resolved and the use counted. */
    method Teach(d: Direction)
      requires pending.Some? && PendingInRange(Value())
      modifies this`worms, this`pending, this`activeSlot, this`events
      ensures Became(Done(Taught(old(Value()), d), TeachingNews(old(Value()), d)))
    {
      var p := pending.value;
      ghost var c, before := Value(), events;
      ghost var learned := Emit(c, RuleLearned(worms[p.slot].id, p.slot, p.mask, Go(d), "new"));
      LearnRule(p.slot, p.mask, Go(d), "new");
      pending := None;
      activeSlot := p.slot + 1;
      CountUse(p.slot, p.mask, Go(d));
      assert Value() == Taught(c, d);
      StampMore(before, [learned], [UseEvent(Taught(c, d), p.slot, p.mask, Go(d))]);
    }

    // ----- replay

    method DirectionTo(from: Point, to: Point) returns (h: Heading)
      ensures h == FirstDirection(board, from, to, DIRECTIONS)
    {
      hide Neighbor;
      for k := 0 to 6
        invariant FirstDirection(board, from, to, DIRECTIONS[k..]) == FirstDirection(board, from, to, DIRECTIONS)
      {
        assert DIRECTIONS[k..][0] == DIRECTIONS[k] && DIRECTIONS[k..][1..] == DIRECTIONS[k + 1..];
        if Neighbor(board, from, DIRECTIONS[k]) == to {
          return Some(DIRECTIONS[k]);
        }
      }
      return None;
    }

    method DirectionOf(worm: Id, from: Point, to: Point, edge: Edge) returns (r: Outcome<Direction>)
      ensures r == RecordedDirection(Value(), worm, from, to, edge)
    {
      hide FirstDirection;
      var i := IndexOf(worm);
      if i < 0 {
        return Err(BadReplay("unknown worm"));
      }
      if worms[i].position != from {
        return Err(BadReplay("origin"));
      }
      if edge != NewEdge(from, to) {
        return Err(BadReplay("edge"));
      }
      var h := DirectionTo(from, to);
      return if h.Some? then Ok(h.value) else Err(BadReplay("not neighbours"));
    }

    /** `applyReplayEvent`: one recorded event, applied in place. */
    method ApplyEvent(e: Event) returns (r: Outcome<()>)
      modifies this
      ensures match Apply(old(Value()), DraftOf(e))
        case Ok(c) => r == Ok(()) && Value() == c && events == old(events)
        case Err(error) => r == Err(error)
    {
      if e.body.TrailClaimed? {
        var edge := e.body.edge;
        if edge != NewEdge(e.body.from, e.body.to) {
          return Err(BadReplay("edge"));
        }
        if e.tick != tick + 1 {
          return Err(BadReplay("tick"));
        }
        tick := tick + 1;
        if edge in trails {
          return Err(BadReplay("existing edge"));
        }
        trails := trails[edge := e.body.worm];
        return Ok(());
      }
      if e.tick != tick {
        return Err(BadReplay("tick"));
      }
      r := ApplySwitch(e);
    }

    method ApplySwitch(e: Event) returns (r: Outcome<()>)
      modifies this
      ensures match ApplyBody(old(Value()), DraftOf(e))
        case Ok(c) => r == Ok(()) && Value() == c && events == old(events)
        case Err(error) => r == Err(error)
    {
      hide ApplyColor, ApplyCapture, ApplyMove, ApplyDeath, ApplyLearned;
      match e.body {
        case TerritoryColorChanged(_, p, color, mask) =>
          Recolor(p, color, mask);
          r := Ok(());
        case TerritoryCaptured(worm, p, color, delta, mask) => r := ApplyCaptured(worm, p, color, delta, mask);
        case WormMoved(worm, from, to, edge, _) => r := ApplyMoved(worm, from, to, edge);
        case WormDied(worm, to) => r := ApplyFall(worm, to);
        case WormBlocked(worm, to) => r := ApplyFall(worm, to);
        case RuleLearned(worm, _, mask, action, _) => r := ApplyRule(worm, mask, action);
        case RuleUsed(worm, _, mask, _, count) =>
          var i := IndexOf(worm);
          if i < 0 {
            return Err(BadReplay("unknown worm"));
          }
          worms := worms[i := worms[i].(uses := worms[i].uses[mask := count])];
          r := Ok(());
        case DecisionPending(worm, mask, slot, request, reason) =>
          var i := IndexOf(worm);
          if i < 0 || slot != i {
            return Err(BadReplay("slot"));
          }
          pending := Some(Decision(worm, mask, slot, request, reason, worms[i].frozen));
          activeSlot := slot;
          r := Ok(());
        case RoundCompleted =>
          if e.round != round + 1 {
            return Err(BadReplay("round"));
          }
          round := e.round;
          activeSlot := -1;
          if pending.Some? {
            return Err(BadReplay("pending"));
          }
          r := Ok(());
        case GameEnded =>
          gameOver := true;
          r := Ok(());
        case TrailClaimed(_, _, _, _, _, _) => r := Err(BadReplay("tick"));
        case Unsupported(_) => r := Err(BadReplay("unsupported"));
      }
    }

    method Recolor(p: Point, color: Color, mask: Mask)
      modifies this`territories
      ensures Value() == ApplyColor(old(Value()), p, color, mask)
    {
      var t := if p in territories then territories[p] else Territory({}, NOBODY, NOBODY);
      t := t.(mask := mask);
      if t.owner == NOBODY {
        t := t.(color := color);
      }
      territories := territories[p := t];
    }

    method ApplyCaptured(worm: Id, p: Point, color: Color, delta: int, mask: Mask) returns (r: Outcome<()>)
      modifies this`territories, this`worms
      ensures match ApplyCapture(old(Value()), worm, p, color, delta, mask)
        case Ok(c) => r == Ok(()) && Value() == c
        case Err(error) => r == Err(error)
    {
      var i := IndexOf(worm);
      if i < 0 {
        return Err(BadReplay("unknown worm"));
      }
      territories := territories[p := Territory(mask, color, worm)];
      worms := worms[i := worms[i].(score := worms[i].score + delta)];
      r := Ok(());
    }

    method ApplyMoved(worm: Id, from: Point, to: Point, edge: Edge) returns (r: Outcome<()>)
      modifies this`worms
      ensures match ApplyMove(old(Value()), worm, from, to, edge)
        case Ok(c) => r == Ok(()) && Value() == c
        case Err(error) => r == Err(error)
    {
      hide RecordedDirection;
      var i := IndexOf(worm);
      if i < 0 || !worms[i].alive {
        return Err(BadReplay("not alive"));
      }
      var d := DirectionOf(worm, from, to, edge);
      if d.Err? {
        return Err(d.error);
      }
      worms := worms[i := worms[i].(position := to, previous := Some(d.value), crix := Some(Opposite(d.value)))];
      r := Ok(());
    }

    method ApplyFall(worm: Id, to: Point) returns (r: Outcome<()>)
      modifies this`worms
      ensures match ApplyDeath(old(Value()), worm, to)
        case Ok(c) => r == Ok(()) && Value() == c
        case Err(error) => r == Err(error)
    {
      var i := IndexOf(worm);
      if i < 0 {
        return Err(BadReplay("unknown worm"));
      }
      if to != worms[i].position {
        return Err(BadReplay("origin"));
      }
      worms := worms[i := worms[i].(alive := false, crix := None)];
      r := Ok(());
    }

    method ApplyRule(worm: Id, mask: Mask, action: Action) returns (r: Outcome<()>)
      modifies this`worms, this`pending, this`activeSlot
      ensures match ApplyLearned(old(Value()), worm, mask, action)
        case Ok(c) => r == Ok(()) && Value() == c
        case Err(error) => r == Err(error)
    {
      var i := IndexOf(worm);
      if i < 0 {
        return Err(BadReplay("unknown worm"));
      }
      worms := worms[i := worms[i].(rules := worms[i].rules[mask := action])];
      if pending.Some? && pending.value.worm == worm && pending.value.mask == mask {
        activeSlot := pending.value.slot + 1;
        pending := None;
      }
      r := Ok(());
    }

    /** Re-execute a recorded move. */
    method Reexecute(e: Event) returns (r: Outcome<Event>)
      requires e.body.WormMoved?
      modifies this
      ensures match StepRecorded(old(Whole()), e)
        case Ok(d) =>
          && Whole() == EventLog.Append(old(Whole()), d)
          && 0 <= ReturnedAt(d.log) && r.Ok? && r.value.number == |old(events)| + ReturnedAt(d.log) + 1
        case Err(error) => r == Err(error) && Whole() == old(Whole())
    {
      hide Engine.Step, RecordedDirection, ReturnedAt;
      var d := DirectionOf(e.body.worm, e.body.from, e.body.to, e.body.edge);
      if d.Err? {
        return Err(d.error);
      }
      r := Step(e.body.worm, Some(d.value));
    }

    /** The metadata loop of `Replay`, which in the legacy form re-executes each move on a probe. */
    method CheckMetadata(recorded: seq<Event>, legacy: bool) returns (ok: bool)
      requires legacy == Legacy(recorded)
      ensures ok == if legacy then ProbeAccepts(Whole(), |events|, recorded) else InSequence(|events|, recorded)
    {
      hide StepRecorded, ReturnedAt;
      var probe := Snapshot();
      var n := |events|;
      for k := 0 to |recorded|
        invariant fresh(probe) && probe.board == board
        invariant legacy ==> ProbeAccepts(probe.Whole(), n + k, recorded[k..]) == ProbeAccepts(Whole(), n, recorded)
        invariant !legacy ==> InSequence(n, recorded[..k])
      {
        var e := recorded[k];
        assert recorded[k..][0] == e && recorded[k..][1..] == recorded[k + 1..];
        if e.version != 0 && e.version != EVENT_VERSION {
          return false;
        }
        if legacy {
          var generated := probe.Reexecute(e);
          if generated.Ok? {
            if e.number != n + k + 1 && e.number != generated.value.number {
              return false;
            }
            continue;
          }
        }
        if e.number != n + k + 1 {
          return false;
        }
      }
      assert recorded[..|recorded|] == recorded;
      return true;
    }

    /** `Replay`: the receiver is the initial state, which stays as it is; the result is a new state. */
    method ReplayOnto(recorded: seq<Event>) returns (r: Outcome<()>, s: State)
      ensures fresh(s)
      ensures match Replay(Whole(), recorded)
        case Ok(g) => r == Ok(()) && s.Whole() == g
        case Err(e) => r == Err(e)
    {
      hide Apply, StepRecorded, ProbeAccepts, InSequence;
      s := Snapshot();
      if |recorded| == 0 {
        return Ok(()), s;
      }
      var legacy := true;
      for k := 0 to |recorded|
        invariant legacy && forall j :: 0 <= j < k ==> recorded[j].body.WormMoved?
      {
        if !recorded[k].body.WormMoved? {
          legacy := false;
          break;
        }
      }
      assert legacy == Legacy(recorded);
      var ok := CheckMetadata(recorded, legacy);
      if !ok {
        return Err(BadReplay("metadata")), s;
      }
      if legacy {
        r := s.ReexecuteAll(recorded);
      } else {
        r := s.ApplyEvents(recorded);
      }
    }

    method ReexecuteAll(recorded: seq<Event>) returns (r: Outcome<()>)
      requires Legacy(recorded)
      modifies this
      ensures match ReplayMoves(old(Whole()), recorded)
        case Ok(g) => r == Ok(()) && Whole() == g
        case Err(e) => r == Err(e)
    {
      hide StepRecorded, ReturnedAt;
      ghost var start := Whole();
      for k := 0 to |recorded|
        invariant ReplayMoves(Whole(), recorded[k..]) == ReplayMoves(start, recorded)
      {
        assert recorded[k..][0] == recorded[k] && recorded[k..][1..] == recorded[k + 1..];
        var step := Reexecute(recorded[k]);
        if step.Err? {
          return Err(step.error);
        }
      }
      return Ok(());
    }

    method ApplyEvents(recorded: seq<Event>) returns (r: Outcome<()>)
      modifies this
      ensures match ApplyAll(old(Value()), Drafts(recorded))
        case Ok(c) => r == Ok(()) && Value() == c && events == old(events) + recorded
        case Err(e) => r == Err(e)
    {
      hide Apply;
      ghost var start, before := Value(), events;
      ghost var log := Drafts(recorded);
      for k := 0 to |recorded|
        invariant ApplyAll(Value(), log[k..]) == ApplyAll(start, log)
        invariant events == before + recorded[..k]
      {
        assert log[k..][0] == DraftOf(recorded[k]) && log[k..][1..] == log[k + 1..];
        var one := ApplyEvent(recorded[k]);
        if one.Err? {
          return Err(one.error);
        }
        events := events + [recorded[k]];
        assert recorded[..k + 1] == recorded[..k] + [recorded[k]];
      }
      assert recorded[..|recorded|] == recorded;
      return Ok(());
    }
  }

  lemma LegalNone(c: Core, from: Point)
    ensures LegalAmong(c, from, []) == []
  {
  }

  lemma {:induction false} LegalSnoc(c: Core, from: Point, dirs: seq<Direction>, d: Direction)
    ensures LegalAmong(c, from, dirs + [d]) == LegalAmong(c, from, dirs) + if IsLegal(c, from, d) then [d] else []
    decreases |dirs|
  {
    hide IsLegal;
    if dirs == [] {
      assert (dirs + [d])[1..] == [];
      LegalNone(c, from);
    } else {
      assert (dirs + [d])[1..] == dirs[1..] + [d];
      LegalSnoc(c, from, dirs[1..], d);
    }
  }

  lemma SameSlot(ws: seq<Worm>, i: nat)
    requires i < |ws|
    ensures ws[i := ws[i].(score := ws[i].score + 0)] == ws
  {
  }

  lemma OneEmitted(before: seq<Event>, tick: nat, round: nat, bodies: seq<Body>, e: Event)
    requires |bodies| == 1 && e == Event(EVENT_VERSION, |before| + 1, tick, round, bodies[0])
    ensures Stamp(|before|, EmitAll(tick, round, bodies)) == [e]
  {
  }

  /** The two cells of a move and the masks they are settled with. */
  datatype MoveParts = MoveParts(source: Territory, sourceMask: Mask, cells: map<Point, Territory>, target: Territory,
                                 targetMask: Mask)

  ghost function Parts(c: Core, i: nat, d: Direction): MoveParts
    requires i < |c.worms|
  {
    var w := c.worms[i];
    var from, to := w.position, Neighbor(c.board, w.position, d);
    var trails := c.trails[NewEdge(from, to) := w.id];
    var source := CellAt(c.territories, from);
    var sourceMask := Refreshed(c.board, trails, c.territories, from);
    var cells := c.territories[from := Settle(source, sourceMask, w.id, TrailColor(w))];
    MoveParts(source, sourceMask, cells, CellAt(cells, to), Refreshed(c.board, trails, cells, to))
  }

  /** The two events of a submitted decision. */
  ghost function TeachingNews(c: Core, d: Direction): seq<Draft>
    requires c.pending.Some? && PendingInRange(c)
  {
    var p := c.pending.value;
    [Emit(c, RuleLearned(c.worms[p.slot].id, p.slot, p.mask, Go(d), "new")),
     UseEvent(Taught(c, d), p.slot, p.mask, Go(d))]
  }

  ghost function ClaimBody(c: Core, i: nat, d: Direction): Body
    requires i < |c.worms|
  {
    var w := c.worms[i];
    var from, to := w.position, Neighbor(c.board, w.position, d);
    TrailClaimed(w.id, from, to, NewEdge(from, to), TrailColor(w), Parts(c, i, d).sourceMask)
  }

  ghost function LeaveBodies(c: Core, i: nat, d: Direction): seq<Body>
    requires i < |c.worms|
  {
    var w := c.worms[i];
    var p := Parts(c, i, d);
    [ClaimBody(c, i, d)] + SettleNews(p.source, p.sourceMask, w.id, TrailColor(w), w.position)
  }

  ghost function EnterBodies(c: Core, i: nat, d: Direction): seq<Body>
    requires i < |c.worms|
  {
    var w := c.worms[i];
    var from, to := w.position, Neighbor(c.board, w.position, d);
    var p := Parts(c, i, d);
    LeaveBodies(c, i, d)
    + SettleNews(p.target, p.targetMask, w.id, TrailColor(w), to)
    + [WormMoved(w.id, from, to, NewEdge(from, to), TrailColor(w))]
  }

  ghost function MoveBodies(c: Core, i: nat, d: Direction): seq<Body>
    requires i < |c.worms|
  {
    var w := c.worms[i];
    if Parts(c, i, d).targetMask == FULL
    then EnterBodies(c, i, d) + [WormDied(w.id, Neighbor(c.board, w.position, d))] else EnterBodies(c, i, d)
  }

  ghost function EnteredWorm(c: Core, i: nat, d: Direction): Worm
    requires i < |c.worms|
  {
    var w := c.worms[i];
    var p := Parts(c, i, d);
    w.(position := Neighbor(c.board, w.position, d), previous := Some(d), crix := Some(Opposite(d)),
       score := w.score + Points(p.source, p.sourceMask) + Points(p.target, p.targetMask))
  }

  ghost function PartsWorm(c: Core, i: nat, d: Direction): Worm
    requires i < |c.worms|
  {
    var w := EnteredWorm(c, i, d);
    if Parts(c, i, d).targetMask == FULL then w.(alive := false, crix := None) else w
  }

  lemma MoveAssembled(c: Core, i: nat, d: Direction, v: Core)
    requires i < |c.worms| && c.worms[i].alive
    requires var w := c.worms[i]; var p := Parts(c, i, d); var to := Neighbor(c.board, w.position, d);
      v == c.(tick := c.tick + 1, trails := c.trails[EdgeFrom(c.board, w.position, d) := w.id],
              worms := c.worms[i := PartsWorm(c, i, d)],
              territories := p.cells[to := Settle(p.target, p.targetMask, w.id, TrailColor(w))])
    ensures v == Move(c, i, d).core
  {
    hide Neighbor, Settle, Points, SettleNews, Refreshed;
  }

  lemma MoveLogByParts(c: Core, i: nat, d: Direction)
    requires i < |c.worms|
    ensures Move(c, i, d).log == EmitAll(c.tick + 1, c.round, MoveBodies(c, i, d))
  {
    hide Neighbor, Settle, Points, SettleNews, Refreshed;
  }

  lemma EmittedOne(before: seq<Event>, tick: nat, round: nat, body: Body)
    ensures before + [Event(EVENT_VERSION, |before| + 1, tick, round, body)]
            == before + Stamp(|before|, EmitAll(tick, round, [body]))
  {
  }

  lemma EmittedMore(before: seq<Event>, tick: nat, round: nat, a: seq<Body>, b: seq<Body>)
    ensures before + Stamp(|before|, EmitAll(tick, round, a)) + Stamp(|before| + |a|, EmitAll(tick, round, b))
            == before + Stamp(|before|, EmitAll(tick, round, a + b))
  {
  }

  lemma EmittedSnoc(before: seq<Event>, tick: nat, round: nat, a: seq<Body>, body: Body)
    ensures before + Stamp(|before|, EmitAll(tick, round, a)) +
            [Event(EVENT_VERSION, |before| + |a| + 1, tick, round, body)]
            == before + Stamp(|before|, EmitAll(tick, round, a + [body]))
  {
  }

  lemma TargetMaskCovers(c: Core, i: nat, d: Direction)
    requires i < |c.worms|
    ensures var w := c.worms[i]; var to := Neighbor(c.board, w.position, d);
      Spokes(c.board, c.trails[EdgeFrom(c.board, w.position, d) := w.id], to) <= Parts(c, i, d).targetMask
  {
  }

  /** The mask of a cell that has just been settled is the mask it was settled with. */
  lemma SettledMask(c: Core, p: Point, t: Territory, m: Mask, id: Id, color: Color)
    requires p in c.territories && c.territories[p] == Settle(t, m, id, color) && SpokeMask(c, p) <= m
    ensures MaskAt(c, p) == m
  {
  }

  lemma MoveReturns(c: Core, i: nat, d: Direction)
    requires i < |c.worms|
    ensures var log := Move(c, i, d).log;
      && |log| >= 2 && (log[|log| - 1].body.WormDied? || log[|log| - 1].body.WormMoved?)
  {
    MoveLogByParts(c, i, d);
    var bodies := EnterBodies(c, i, d);
    assert |LeaveBodies(c, i, d)| >= 1;
    assert bodies[|bodies| - 1].WormMoved?;
  }

  lemma StampMore(before: seq<Event>, a: seq<Draft>, b: seq<Draft>)
    ensures before + Stamp(|before|, a) + Stamp(|before| + |a|, b) == before + Stamp(|before|, a + b)
  {
  }

  lemma AfterNothing(r: Outcome<Done>)
    ensures After([], r) == r
  {
    if r.Ok? {
      assert [] + r.value.log == r.value.log;
    }
  }

  lemma AfterTwice(a: seq<Draft>, b: seq<Draft>, r: Outcome<Done>)
    ensures After(a, After(b, r)) == After(a + b, r)
  {
    if r.Ok? {
      assert a + (b + r.value.log) == a + b + r.value.log;
    }
  }

  lemma StampNothing(before: seq<Event>)
    ensures before + Stamp(|before|, []) == before
  {
  }
}
