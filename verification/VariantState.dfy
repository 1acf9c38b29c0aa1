/** The extension's mutable state: an engine state and the variant's own maps, updated in place. */
module VariantState {
  import opened Geometry
  import opened Engine
  import opened EventLog
  import opened GameState
  import opened Variants
  import opened VariantMoves
  import opened VariantRounds
  import opened Wrappers

  class World {
    const setup: Setup
    const base: State
    var temporary: map<Edge, nat>
    var energy: map<Id, int>
    var scores: map<Id, int>
    var teamScores: map<Name, int>

    ghost function Value(): Variant
      reads this, base
    {
      Variant(setup, base.Value(), temporary, energy, scores, teamScores)
    }

    constructor (v: Variant, events: seq<Event>)
      ensures Value() == v && base.events == events && fresh(base)
    {
      setup := v.setup;
      base := new State(Game(v.base, events));
      temporary, energy, scores, teamScores := v.temporary, v.energy, v.scores, v.teamScores;
    }

    // ----- reading

    method HasEnergyLeft(id: Id) returns (b: bool)
      ensures b == HasEnergy(Value(), id)
    {
      return setup.limit == 0 || ValueAt(energy, id) > 0;
    }

    method CanPass(from: Point, d: Direction) returns (b: bool)
      ensures b == Passable(Value(), from, d)
    {
      var to := Neighbor(base.board, from, d);
      var m := base.CellMask(from);
      if !InBounds(base.board, to) || to in setup.terrain.obstacles || to in setup.terrain.holes || East in m {
        return false;
      }
      if base.board.mode == ModernRules {
        var taken := base.Occupied(to);
        if taken {
          return false;
        }
      }
      var e := NewEdge(from, to);
      if e in base.trails || e in temporary {
        return false;
      }
      return !(e in setup.terrain.oneWay && setup.terrain.oneWay[e] != d);
    }

    method IsLegal(id: Id, h: Heading) returns (b: bool)
      ensures b == Legal(Value(), id, h)
    {
      hide Passable;
      var i := base.IndexOf(id);
      if i < 0 || !base.worms[i].alive || h.None? {
        return false;
      }
      var able := HasEnergyLeft(id);
      if !able {
        return false;
      }
      b := CanPass(base.worms[i].position, h.value);
    }

    method LegalMoves(id: Id) returns (out: seq<Direction>)
      ensures out == Moves(Value(), id)
    {
      hide Legal, LegalFrom;
      out := [];
      LegalAfter(Value(), id, 6);
      for k := 0 to 6
        invariant LegalFrom(Value(), id, DIRECTIONS) == out + LegalFrom(Value(), id, DIRECTIONS[k..])
      {
        LegalAfter(Value(), id, k);
        var legal := IsLegal(id, Some(DIRECTIONS[k]));
        if legal {
          out := out + [DIRECTIONS[k]];
        }
      }
    }

    // ----- expiry

    method HeadingBetween(p: Point, q: Point) returns (d: Direction)
      ensures d == HeadingTo(base.board, p, q)
    {
      var h := base.DirectionTo(p, q);
      return if h.Some? then h.value else East;
    }

    /** A completed cell less on the owner's count. */
    method Deduct(owner: Id)
      modifies base`worms
      ensures base.worms == Deducted(old(base.worms), owner)
    {
      var i := base.IndexOf(owner);
      if i >= 0 && base.worms[i].score > 0 {
        base.worms := base.worms[i := base.worms[i].(score := base.worms[i].score - 1)];
      }
    }

    /** The count, the weighted score and the team's score of an owner who loses cell p. */
    method Debit(owner: Id, p: Point)
      modifies this`scores, this`teamScores, base`worms
      ensures Value() == Debited(old(Value()), owner, p)
    {
      hide Deducted, WeightOf;
      var weight := WeightOf(setup.terrain, p);
      Deduct(owner);
      scores := scores[owner := ValueAt(scores, owner) - weight];
      var team := TeamOf(setup, owner);
      if team != NOBODY {
        teamScores := teamScores[team := ValueAt(teamScores, team) - weight];
      }
    }

    /** One end of an expired trail. */
    method FadeEnd(p: Point, d: Direction)
      modifies this`scores, this`teamScores, base`worms, base`territories
      ensures Value() == FadeAt(old(Value()), p, d)
    {
      hide Debited;
      var t := if p in base.territories then base.territories[p] else Territory({}, NOBODY, NOBODY);
      t := t.(mask := t.mask - {d});
      if t.mask != FULL && t.owner != NOBODY {
        Debit(t.owner, p);
        t := t.(owner := NOBODY, color := NOBODY);
      }
      base.territories := base.territories[p := t];
    }

    method ExpireOne(e: Edge)
      modifies this`temporary, this`scores, this`teamScores, base`worms, base`territories, base`trails
      ensures Value() == Unlay(old(Value()), e)
    {
      hide FadeAt, HeadingTo;
      temporary := temporary - {e};
      base.trails := base.trails - {e};
      var d := HeadingBetween(e.a, e.b);
      FadeEnd(e.a, d);
      var d' := HeadingBetween(e.b, e.a);
      FadeEnd(e.b, d');
    }

    /** `expire`: the due trails go one by one, in an order the map does not determine. */
    method Expire()
      modifies this`temporary, this`scores, this`teamScores, base`worms, base`territories, base`trails
      ensures Value() == Expired(old(Value()))
    {
      hide Unlay, Without;
      ghost var v0 := Value();
      ghost var gone: set<Edge> := {};
      var left := temporary.Keys;
      WithoutNone(v0);
      while left != {}
        invariant left <= v0.temporary.Keys && gone <= Due(v0) && gone !! left
        invariant forall e :: e in Due(v0) ==> e in gone || e in left
        invariant Value() == Without(v0, gone) && base.tick == v0.base.tick
        decreases |left|
      {
        var e :| e in left;
        left := left - {e};
        StillWaiting(v0, gone, e);
        if temporary[e] <= base.tick {
          WithoutMore(v0, gone, e);
          ExpireOne(e);
          WithoutFrame(v0, gone + {e});
          gone := gone + {e};
        }
      }
      assert gone == Due(v0);
    }

    // ----- one move

    /**
     * Credit a worm with the weights of the captures among the events since `start`; `extra` is what they add to a
     * plain count.
     */
    method CreditCaptures(start: nat, id: Id, ghost log: seq<Draft>) returns (extra: int)
      requires start + |log| == |base.events| && base.events[start..] == Stamp(start, log)
      modifies this`scores
      ensures scores == if Captured(log) == 0 then old(scores)
                        else old(scores)[id := ValueAt(old(scores), id) + CaptureWeight(setup.terrain, log)]
      ensures extra == CaptureWeight(setup.terrain, log) - Captured(log)
    {
      extra := 0;
      assert log[..0] == [];
      for k := start to |base.events|
        invariant Captured(log[..k - start]) >= 0
        invariant scores == if Captured(log[..k - start]) == 0 then old(scores)
                            else old(scores)[id := ValueAt(old(scores), id) +
                                CaptureWeight(setup.terrain, log[..k - start])]
        invariant extra == CaptureWeight(setup.terrain, log[..k - start]) - Captured(log[..k - start])
      {
        assert log[..k - start + 1] == log[..k - start] + [log[k - start]];
        CapturesConcat(setup.terrain, log[..k - start], [log[k - start]]);
        CapturesOfOne(setup.terrain, log[k - start]);
        var e := base.events[k];
        assert e == base.events[start..][k - start];
        if e.body.TerritoryCaptured? {
          var weight := WeightOf(setup.terrain, e.body.territory);
          NothingCaptured(setup.terrain, log[..k - start]);
          scores := scores[id := ValueAt(scores, id) + weight];
          extra := extra + weight - 1;
        }
      }
      assert log[..|log|] == log;
    }

    method AllDead() returns (b: bool)
      ensures b == (AliveSlots(base.worms) == {})
    {
      for k := 0 to |base.worms|
        invariant forall j :: 0 <= j < k ==> !base.worms[j].alive
      {
        if base.worms[k].alive {
          assert k in AliveSlots(base.worms);
          return false;
        }
      }
      return true;
    }

    /** Take one unit of energy from the mover. */
    method Drain(i: nat, id: Id)
      requires i < |base.worms|
      modifies this`energy, base`worms, base`gameOver
      ensures Value() == Drained(old(Value()), i, id)
    {
      if setup.limit > 0 {
        energy := energy[id := ValueAt(energy, id) - 1];
        if energy[id] < 0 {
          energy := energy[id := 0];
        }
        if energy[id] == 0 {
          base.worms := base.worms[i := base.worms[i].(alive := false, crix := None)];
          var dead := AllDead();
          if dead {
            base.gameOver := true;
          }
        }
      }
    }

    /** The middle of `Apply`: the engine's step on a legal move, the weighted score, the energy and the new expiry. */
    method PlayLegal(id: Id, h: Heading) returns (r: Reply<Event>, delta: int)
      requires Legal(Value(), id, h)
      modifies this`scores, this`energy, this`temporary, base
      ensures var v := old(Value()); var i := WormIndex(v.base.worms, id); var n := |old(base.events)|;
        match Step(v.base, id, h)
        case Err(e) => r == Err(ByEngine(e)) && Value() == v && base.events == old(base.events)
        case Ok(d) =>
          && Value() == Played(v, i, h.value, d) && delta == Delta(v, i, d)
          && base.events == old(base.events) + Stamp(n, d.log)
          && 0 <= ReturnedAt(d.log) < |d.log| && r == Ok(Stamp(n, d.log)[ReturnedAt(d.log)])
    {
      hide Legal, Move, Neighbor, CaptureWeight, Captured, MaskAt, ReturnedAt, NewEdge, Drained, Step;
      ghost var v := Value();
      LegalCanMove(v, id, h);
      var i := base.IndexOf(id);
      var before := base.worms[i].score;
      var start := |base.events|;
      var step := base.Step(id, h);
      if step.Err? {
        return Err(ByEngine(step.error)), 0;
      }
      ghost var d := Move(v.base, i, h.value);
      ReturnedMove(v, i, h.value);
      var plain := base.worms[i].score - before;
      MoverNamed(v, id);
      var extra := CreditCaptures(start, id, d.log);
      Pay(i, id, step.value.body.edge);
      return Ok(step.value), plain + extra;
    }

    /** The mover's energy, and the date at which its new trail expires. */
    method Pay(i: nat, id: Id, e: Edge)
      requires i < |base.worms|
      modifies this`energy, this`temporary, base`worms, base`gameOver
      ensures Value() == Dated(Drained(old(Value()), i, id), e)
    {
      hide Drained;
      DrainedFrame(Value(), i, id);
      Drain(i, id);
      if setup.ttl > 0 {
        temporary := temporary[e := base.tick + setup.ttl];
      }
    }

    /** `Apply`: expiry and legality, the move, expiry again, and the credit to the mover's team. */
    method Apply(id: Id, h: Heading) returns (r: Reply<Event>)
      modifies this, base
      ensures var a := VariantMoves.Apply(old(Value()), id, h);
        && Value() == a.after
        && match a.result
           case Err(why) => r == Err(why) && base.events == old(base.events)
           case Ok(log) =>
             && base.events == old(base.events) + Stamp(|old(base.events)|, log)
             && 0 <= ReturnedAt(log) < |log| && r == Ok(Stamp(|old(base.events)|, log)[ReturnedAt(log)])
    {
      hide Expired, Legal, Played, Delta, ReturnedAt, Move, Neighbor, MaskAt, Step, Credited;
      Expire();
      ghost var v1 := Value();
      var legal := IsLegal(id, h);
      if !legal {
        return Err(InvalidAction);
      }
      var delta;
      r, delta := PlayLegal(id, h);
      LegalCanMove(v1, id, h);
      if r.Ok? {
        Expire();
        CreditTeam(id, delta);
      }
    }

    method CreditTeam(id: Id, delta: int)
      modifies this`teamScores
      ensures Value() == Credited(old(Value()), id, delta)
    {
      var team := TeamOf(setup, id);
      if team != NOBODY {
        teamScores := teamScores[team := ValueAt(teamScores, team) + delta];
      }
    }

    // ----- the automatic choice

    method Snapshot() returns (copy: World)
      ensures fresh(copy) && fresh(copy.base) && copy.Value() == Value() && copy.base.events == base.events
    {
      copy := new World(
        Variant(setup,
                Core(base.board, base.tick, base.round, base.worms, base.trails, base.territories,
                     base.activeSlot, base.pending, base.gameOver),
                temporary, energy, scores, teamScores),
        base.events);
    }

    method Restore(before: World)
      requires before.setup == setup && before.base.board == base.board
      modifies this, base
      ensures Value() == old(before.Value()) && base.events == old(before.base.events)
    {
      temporary, energy, scores, teamScores := before.temporary, before.energy, before.scores, before.teamScores;
      base.Restore(before.base);
    }

    /** What a trial move on a copy is worth, unless it is refused. */
    method Trial(id: Id, d: Direction) returns (worth: Option<int>)
      ensures worth == if Playable(Value(), id, d) then Some(Worth(Value(), id, d)) else None
    {
      hide VariantMoves.Apply, Moves;
      var trial := Snapshot();
      var r := trial.Apply(id, Some(d));
      if r.Err? {
        return None;
      }
      var onward := trial.LegalMoves(id);
      return Some((ValueAt(trial.scores, id) - ValueAt(scores, id)) * 100 + |onward|);
    }

    method ChooseAuto(slot: nat, legal: seq<Direction>) returns (d: Direction)
      requires slot < |base.worms| && legal != []
      ensures d == Choose(Value(), slot, legal)
    {
      hide Playable, Worth, Pick64, Compare;
      if |legal| == 1 {
        return legal[0];
      }
      var id := base.worms[slot].id;
      var best := LOWEST;
      var ties: seq<Direction> := [];
      for k := 0 to |legal|
        invariant Compare(Value(), id, legal[k..], best, ties) == Compare(Value(), id, legal, LOWEST, [])
      {
        CompareStep(Value(), id, legal, k, best, ties);
        var worth := Trial(id, legal[k]);
        if worth.Some? {
          if worth.value > best {
            best := worth.value;
            ties := [];
          }
          if worth.value == best {
            ties := ties + [legal[k]];
          }
        }
      }
      assert legal[|legal|..] == [];
      CompareEnd(Value(), id, best, ties);
      if |ties| == 0 {
        return legal[0];
      }
      return ties[Pick64(base.worms[slot].seed, base.round, base.tick, slot, |ties|)];
    }

    // ----- turns and rounds

    /** The object's state is the given one, and its log has grown by the given events. */
    twostate predicate Became(v: Variant, log: seq<Draft>)
      reads this, base
    {
      Value() == v && base.events == old(base.events) + Stamp(|old(base.events)|, log)
    }

    method PlayTurn(slot: nat, m: Mask, d: Direction) returns (r: Reply<()>)
      requires slot < |base.worms|
      modifies this, base
      ensures match Play(old(Value()), slot, m, d)
        case GoesOn(v, log) => r == Ok(()) && Became(v, log)
        case Fails(why) => r == Err(why)
        case Stalls(_, _) => false
    {
      hide VariantMoves.Apply;
      ghost var v, before := Value(), base.events;
      var id := base.worms[slot].id;
      base.CountUse(slot, m, Go(d));
      ghost var counted := Value();
      var e := Apply(id, Some(d));
      if e.Err? {
        return Err(e.error);
      }
      StampMore(before, [UseEvent(counted.base, slot, m, Go(d))],
          VariantMoves.Apply(counted, id, Some(d)).result.value);
      return Ok(());
    }

    method PlayChosen(slot: nat, m: Mask, legal: seq<Direction>) returns (r: Reply<()>)
      requires slot < |base.worms| && legal != []
      modifies this, base
      ensures match PlayAutomatic(old(Value()), slot, m, legal)
        case GoesOn(v, log) => r == Ok(()) && Became(v, log)
        case Fails(why) => r == Err(why)
        case Stalls(_, _) => false
    {
      hide Play, Choose;
      ghost var v, before := Value(), base.events;
      var d := ChooseAuto(slot, legal);
      if base.worms[slot].frozen {
        r := PlayTurn(slot, m, d);
        return;
      }
      base.LearnRule(slot, m, Go(d), "auto");
      ghost var learned := Value();
      r := PlayTurn(slot, m, d);
      if r.Ok? {
        StampMore(before, [Emit(v.base, RuleLearned(v.base.worms[slot].id, slot, m, Go(d), "auto"))],
            Play(learned, slot, m, d).log);
      }
    }

    method FollowRule(slot: nat, m: Mask, legal: seq<Direction>, a: Action) returns (r: Reply<()>)
      requires slot < |base.worms| && legal != []
      modifies this, base
      ensures match Follow(old(Value()), slot, m, legal, a)
        case GoesOn(v, log) => r == Ok(()) && Became(v, log)
        case Fails(why) => r == Err(why)
        case Stalls(_, _) => false
    {
      hide Play, Choose;
      if a.Go? && a.dir in legal {
        r := PlayTurn(slot, m, a.dir);
      } else if base.worms[slot].controller == KindWild {
        var d := ChooseAuto(slot, legal);
        r := PlayTurn(slot, m, d);
      } else {
        return Err(ByEngine(IllegalRule(base.worms[slot].id, m, a)));
      }
    }

    /** The body of `advanceSlots`; `stalled` leaves the round open. */
    method ServeSlot(slot: nat) returns (r: Reply<()>, stalled: bool)
      requires slot < |base.worms|
      modifies this, base
      ensures match ServeTurn(old(Value()), slot, |old(base.events)|)
        case GoesOn(v, log) => r == Ok(()) && !stalled && Became(v, log)
        case Stalls(v, log) => r == Ok(()) && stalled && Became(v, log)
        case Fails(why) => r == Err(why)
    {
      hide PlayAutomatic, Follow, Moves, MaskAt;
      r, stalled := Ok(()), false;
      var w := base.worms[slot];
      if !w.alive {
        StampNothing(base.events);
        return;
      }
      var m := base.CellMask(w.position);
      var legal := LegalMoves(w.id);
      if |legal| == 0 {
        base.Kill(slot, WormBlocked(w.id, w.position));
        return;
      }
      match RuleAt(w, m) {
        case GetNew =>
          base.Await(slot, m);
          stalled := true;
        case DoAI =>
          r := PlayChosen(slot, m, legal);
        case Die =>
          base.Kill(slot, WormDied(w.id, w.position));
        case a =>
          r := FollowRule(slot, m, legal, a);
      }
    }

    /** `advanceSlots` and the end of the round. */
    method RunSlots(start: nat) returns (r: Reply<()>)
      modifies this, base
      ensures match ServeFrom(old(Value()), start, |old(base.events)|)
        case Ok(f) => r == Ok(()) && Became(f.state, f.log)
        case Err(why) => r == Err(why)
    {
      hide ServeTurn, Finish;
      ghost var v0, before := Value(), base.events;
      ghost var log: seq<Draft> := [];
      StampNothing(base.events);
      PrefixedNothing(ServeFrom(v0, start, |before|));
      var slot: nat := start;
      while slot < |base.worms|
        invariant base.events == before + Stamp(|before|, log)
        invariant ServeFrom(v0, start, |before|) == Prefixed(log, ServeFrom(Value(), slot, |base.events|))
        decreases |base.worms| - slot
      {
          base.activeSlot := slot;
        ghost var at, n := Value(), |base.events|;
          var turn, stalled := ServeSlot(slot);
        if turn.Err? {
          return Err(turn.error);
        }
        ghost var t := ServeTurn(at, slot, n);
        StampMore(before, log, t.log);
        if stalled {
          return Ok(());
        }
        PrefixedTwice(log, t.log, ServeFrom(Value(), slot + 1, |base.events|));
        log := log + t.log;
        slot := slot + 1;
      }
      ghost var last := Value();
      base.CloseRound();
      StampMore(before, log, Finish(last.base).log);
      return Ok(());
    }

    /** `AdvanceRound`: a failed round leaves everything as it was. */
    method AdvanceRound() returns (r: Reply<seq<Event>>)
      modifies this, base
      ensures match Advance(old(Value()), |old(base.events)|)
        case Ok(f) => Became(f.state, f.log) && r == Ok(Stamp(|old(base.events)|, f.log))
        case Err(why) => r == Err(why) && Value() == old(Value()) && base.events == old(base.events)
    {
      hide ServeFrom;
      if base.pending.Some? {
        return Err(ByEngine(Rejected(PendingDecision)));
      }
      if base.gameOver {
        return Err(ByEngine(Rejected(GameOver)));
      }
      var before := Snapshot();
      var n := |base.events|;
      var done := RunSlots(if base.activeSlot >= 0 then base.activeSlot else 0);
      if done.Err? {
        Restore(before);
        return Err(done.error);
      }
      return Ok(base.events[n..]);
    }

    /** Teach the submitted direction, resolve the decision and apply the move. */
    method AnswerPending(d: Direction) returns (r: Reply<()>)
      requires base.pending.Some? && PendingInRange(base.Value())
      modifies this, base
      ensures match Resolve(old(Value()), d)
        case Ok(f) => r == Ok(()) && Became(f.state, f.log)
        case Err(why) => r == Err(why)
    {
      hide VariantMoves.Apply, Taught;
      var p := base.pending.value;
      var id := base.worms[p.slot].id;
      ghost var v, before := Value(), base.events;
      base.Teach(d);
      ghost var taught := Taught(v.base, d);
      assert Value() == OnBase(v, taught);
      var e := Apply(id, Some(d));
      if e.Err? {
        return Err(e.error);
      }
      StampMore(before, TeachingNews(v.base, d), VariantMoves.Apply(OnBase(v, taught), id, Some(d)).result.value);
      return Ok(());
    }

    /** `Submit`: unlike the engine's it looks only at the decision's own frozen flag. */
    method Submit(h: Heading) returns (r: Reply<seq<Event>>)
      modifies this, base
      ensures match Decide(old(Value()), |old(base.events)|, h)
        case Ok(f) => Became(f.state, f.log) && r == Ok(Stamp(|old(base.events)|, f.log))
        case Err(why) => r == Err(why) && Value() == old(Value()) && base.events == old(base.events)
    {
      hide ServeFrom, Resolve, Moves;
      if base.pending.None? {
        return Err(ByEngine(Rejected(PendingDecision)));
      }
      var p := base.pending.value;
      if p.frozen || p.slot < 0 || p.slot >= |base.worms| {
        return Err(ByEngine(Rejected(FrozenUnknown)));
      }
      if h.None? {
        return Err(ByEngine(Rejected(OccupiedSpoke)));
      }
      var legal := LegalMoves(p.worm);
      if h.value !in legal {
        return Err(ByEngine(Rejected(OccupiedSpoke)));
      }
      var before := Snapshot();
      ghost var v, log := Value(), base.events;
      var n := |base.events|;
      var answered := AnswerPending(h.value);
      if answered.Err? {
        Restore(before);
        return Err(answered.error);
      }
      ghost var f := Resolve(v, h.value).value;
      var done := RunSlots(p.slot + 1);
      if done.Err? {
        Restore(before);
        return Err(done.error);
      }
      StampMore(log, f.log, ServeFrom(f.state, p.slot + 1, |log| + |f.log|).value.log);
      return Ok(base.events[n..]);
    }
  }

  lemma PrefixedNothing(r: Reply<Finished>)
    ensures Prefixed([], r) == r
  {
    if r.Ok? {
      assert [] + r.value.log == r.value.log;
    }
  }

  lemma PrefixedTwice(a: seq<Draft>, b: seq<Draft>, r: Reply<Finished>)
    ensures Prefixed(a, Prefixed(b, r)) == Prefixed(a + b, r)
  {
    if r.Ok? {
      assert a + (b + r.value.log) == a + b + r.value.log;
    }
  }

  lemma CompareStep(v: Variant, id: Id, legal: seq<Direction>, k: nat, best: int, ties: seq<Direction>)
    requires k < |legal|
    ensures var d := legal[k];
      Compare(v, id, legal[k..], best, ties) ==
      if !Playable(v, id, d) then Compare(v, id, legal[k + 1..], best, ties)
      else if Worth(v, id, d) > best then Compare(v, id, legal[k + 1..], Worth(v, id, d), [] + [d])
      else if Worth(v, id, d) == best then Compare(v, id, legal[k + 1..], best, ties + [d])
      else Compare(v, id, legal[k + 1..], best, ties)
  {
    hide VariantMoves.Apply, Worth;
    assert legal[k..][0] == legal[k] && legal[k..][1..] == legal[k + 1..];
    assert [] + [legal[k]] == [legal[k]];
  }

  lemma CompareEnd(v: Variant, id: Id, best: int, ties: seq<Direction>)
    ensures Compare(v, id, [], best, ties) == (best, ties)
  {
  }

  lemma MoverNamed(v: Variant, id: Id)
    ensures WormIndex(v.base.worms, id) >= 0 ==> v.base.worms[WormIndex(v.base.worms, id)].id == id
  {
  }

  lemma LegalAfter(v: Variant, id: Id, k: nat)
    requires k <= 6
    ensures k == 6 ==> LegalFrom(v, id, DIRECTIONS[k..]) == []
    ensures k < 6 ==> forall out: seq<Direction> ::
              out + LegalFrom(v, id, DIRECTIONS[k..]) ==
              (if Legal(v, id, Some(DIRECTIONS[k])) then out + [DIRECTIONS[k]] else out) +
                  LegalFrom(v, id, DIRECTIONS[k + 1..])
  {
    hide Legal;
    if k < 6 {
      assert DIRECTIONS[k..][0] == DIRECTIONS[k] && DIRECTIONS[k..][1..] == DIRECTIONS[k + 1..];
    }
  }

  lemma WithoutNone(v: Variant)
    ensures Without(v, {}) == v
  {
  }

  /** A trail that has not expired is still there, with its expiry. */
  lemma StillWaiting(v: Variant, gone: set<Edge>, e: Edge)
    requires e in v.temporary && e !in gone
    ensures var w := Without(v, gone);
      e in w.temporary && w.temporary[e] == v.temporary[e] && (e in Due(v) <==> v.temporary[e] <= v.base.tick)
  {
    hide Without;
    WithoutFrame(v, gone);
  }

  /** `Step` returns the record of the move, with the edge drawn. */
  lemma ReturnedMove(v: Variant, i: nat, d: Direction)
    requires i < |v.base.worms|
    ensures var log := Move(v.base, i, d).log;
      && 0 <= ReturnedAt(log) < |log| && log[ReturnedAt(log)].body.WormMoved?
      && log[ReturnedAt(log)].body.edge == EdgeFrom(v.base.board, v.base.worms[i].position, d)
  {
    hide Neighbor, Settle, SettleNews, Refreshed, Points, NewEdge;
  }
}
