/** What turns, choices and expiry of the variant do, read off the states, the tables and the log. */
module VariantLaws {
  import opened Geometry
  import opened Engine
  import opened Rounds
  import opened Frames
  import opened TurnLaws
  import opened Variants
  import opened VariantMoves
  import opened VariantRounds
  import opened VariantRuns
  import opened VariantEnergy
  import opened VariantFrames
  import opened Wrappers

  // ----- the automatic choice

  /**
   * Among several legal directions the choice is one that can be played, no other that can be played gains more weight,
   * and none that gains as much leaves more onward moves; the only legal direction is taken without a trial.
   */
  lemma VariantChoiceInPlainTerms(v: Variant, slot: nat, legal: seq<Direction>, e: Direction)
    requires slot < |v.base.worms| && legal != [] && e in legal
    ensures var id := v.base.worms[slot].id; var d := Choose(v, slot, legal);
      && d in legal
      && (|legal| == 1 ==> d == legal[0])
      && (|legal| > 1 && VariantMoves.Apply(v, id, Some(e)).result.Ok? && Worthwhile(v, id, e) ==>
            && VariantMoves.Apply(v, id, Some(d)).result.Ok?
            && var mine := VariantMoves.Apply(v, id, Some(d)).after;
            && var other := VariantMoves.Apply(v, id, Some(e)).after;
            && ValueAt(other.scores, id) <= ValueAt(mine.scores, id)
            && (ValueAt(other.scores, id) == ValueAt(mine.scores, id) ==> |Moves(other, id)| <= |Moves(mine, id)|))
  {
    hide VariantMoves.Apply, Choose, Moves;
    var id := v.base.worms[slot].id;
    var d := Choose(v, slot, legal);
    ChoiceIsBest(v, slot, legal);
    if |legal| > 1 && Playable(v, id, e) && Worthwhile(v, id, e) {
      SixMovesAtMost(VariantMoves.Apply(v, id, Some(d)).after, id);
      SixMovesAtMost(VariantMoves.Apply(v, id, Some(e)).after, id);
    }
    if |legal| == 1 { OnlyChoice(v, slot, legal); }
  }

  /** The gain is not below the value the comparison starts from. */
  ghost predicate Worthwhile(v: Variant, id: Id, e: Direction) {
    (ValueAt(VariantMoves.Apply(v, id, Some(e)).after.scores, id) - ValueAt(v.scores, id)) * 100 >= -1073741824
  }

  lemma SixMovesAtMost(v: Variant, id: Id)
    ensures |Moves(v, id)| <= 6
  {
  }

  lemma OnlyChoice(v: Variant, slot: nat, legal: seq<Direction>)
    requires slot < |v.base.worms| && |legal| == 1
    ensures Choose(v, slot, legal) == legal[0]
  {
  }

  // ----- who learns, and who is blocked

  /** The worm's table and uses after one played action: an automatic choice is learned unless the worm is frozen. */
  ghost predicate LearnsAndUses(w: Worm, m: Mask, a: Action, d: Direction, w': Worm) {
    var learns := a == DoAI && !w.frozen;
    && w'.rules == (if learns then w.rules[m := Go(d)] else w.rules)
    && w'.uses == w.uses[m := ((if m in w.uses then w.uses[m] else 0) + 1) % 4294967296]
  }

  /** The same variant, but for the tables of the slot's worm. */
  ghost predicate Prepared(v: Variant, slot: nat, u: Variant)
    requires slot < |v.base.worms|
  {
    && u == OnBase(v, u.base) && |u.base.worms| == |v.base.worms|
    && u.base == v.base.(worms := v.base.worms[slot := u.base.worms[slot]])
    && Alike(v.base.worms[slot], u.base.worms[slot])
  }

  /** The turn was one call of `Apply` in direction d, after the reports of what was learned and used. */
  ghost predicate PlayedOne(v: Variant, slot: nat, m: Mask, a: Action, d: Direction, v': Variant, log: seq<Draft>)
    requires slot < |v.base.worms|
  {
    var w := v.base.worms[slot];
    var learns := a == DoAI && !w.frozen;
    var count := ((if m in w.uses then w.uses[m] else 0) + 1) % 4294967296;
    var k := if learns then 1 else 0;
    && slot < |v'.base.worms| && LearnsAndUses(w, m, a, d, v'.base.worms[slot])
    && |log| > k
    && (learns ==> log[0] == Draft(v.base.tick, v.base.round, RuleLearned(w.id, slot, m, Go(d), "auto")))
    && log[k] == Draft(v.base.tick, v.base.round, RuleUsed(w.id, slot, m, Go(d), count))
    && exists u: Variant ::
         && Prepared(v, slot, u) && VariantMoves.Apply(u, w.id, Some(d)).after == v'
         && VariantMoves.Apply(u, w.id, Some(d)).result == Ok(log[k + 1..])
  }

  lemma PlayPlaysOne(v: Variant, slot: nat, m: Mask, d: Direction)
    requires slot < |v.base.worms| && Play(v, slot, m, d).GoesOn?
    ensures PlayedOne(v, slot, m, Go(d), d, Play(v, slot, m, d).state, Play(v, slot, m, d).log)
  {
    hide VariantMoves.Apply;
    var counted := Count(v.base, slot, m);
    var u := OnBase(v, counted);
    var id := v.base.worms[slot].id;
    assert Prepared(v, slot, u);
    LooksSame(u);
    ApplyLooks(u, u, id, Some(d));
    var log := Play(v, slot, m, d).log;
    assert log[1..] == VariantMoves.Apply(u, id, Some(d)).result.value;
  }

  lemma AutomaticPlaysOne(v: Variant, slot: nat, m: Mask, legal: seq<Direction>)
    requires slot < |v.base.worms| && legal != [] && PlayAutomatic(v, slot, m, legal).GoesOn?
    ensures var r := PlayAutomatic(v, slot, m, legal);
      PlayedOne(v, slot, m, DoAI, Choose(v, slot, legal), r.state, r.log)
  {
    hide Play, Choose, VariantMoves.Apply;
    var d := Choose(v, slot, legal);
    if v.base.worms[slot].frozen {
      PlayPlaysOne(v, slot, m, d);
    } else {
      var learned := Learn(v.base, slot, m, Go(d));
      var r := Play(OnBase(v, learned), slot, m, d);
      PlayPlaysOne(OnBase(v, learned), slot, m, d);
      LearnedOne(v, slot, m, d, r.state, r.log);
    }
  }

  lemma LearnedOne(v: Variant, slot: nat, m: Mask, d: Direction, v': Variant, log: seq<Draft>)
    requires slot < |v.base.worms| && !v.base.worms[slot].frozen
    requires PlayedOne(OnBase(v, Learn(v.base, slot, m, Go(d))), slot, m, Go(d), d, v', log)
    ensures PlayedOne(v, slot, m, DoAI, d, v',
            [Emit(v.base, RuleLearned(v.base.worms[slot].id, slot, m, Go(d), "auto"))] + log)
  {
    hide VariantMoves.Apply;
    var w := OnBase(v, Learn(v.base, slot, m, Go(d)));
    var id := v.base.worms[slot].id;
    var u: Variant :| Prepared(w, slot, u) && VariantMoves.Apply(u, id, Some(d)).after == v'
                      && VariantMoves.Apply(u, id, Some(d)).result == Ok(log[1..]);
    assert Prepared(v, slot, u);
    var news := [Emit(v.base, RuleLearned(id, slot, m, Go(d), "auto"))] + log;
    assert news[2..] == log[1..];
  }

  /**
   * A turn, case by case, as in the engine but for two things: legality is the variant's, and a remembered direction
   * that is not legal is replaced by a choice for a wild worm and an error for any other.
   */
  lemma VariantTurnByCases(v: Variant, slot: nat, n: nat)
    requires slot < |v.base.worms|
    ensures var w := v.base.worms[slot]; var m := MaskAt(v.base, w.position); var a := Remembered(w, m);
      var legal := Moves(v, w.id); var r := ServeTurn(v, slot, n);
      if !w.alive then r == GoesOn(v, [])
      else if legal == [] then
        r.GoesOn? && r.state == OnBase(v, r.state.base) && Fallen(v.base, slot, r.state.base)
        && r.log == [Draft(v.base.tick, v.base.round, WormBlocked(w.id, w.position))]
      else if a == Die then
        r.GoesOn? && r.state == OnBase(v, r.state.base) && Fallen(v.base, slot, r.state.base)
        && r.log == [Draft(v.base.tick, v.base.round, WormDied(w.id, w.position))]
      else if a == GetNew then
        && r.Stalls?
        && r.state == OnBase(v, v.base.(pending := Some(Decision(w.id, m, slot, n + 1, "unknown_pattern", w.frozen))))
        && r.log == [Draft(v.base.tick, v.base.round, DecisionPending(w.id, m, slot, n + 1, "unknown_pattern"))]
      else if a == DoAI then
        !r.Stalls? && (r.GoesOn? ==> PlayedOne(v, slot, m, a, Choose(v, slot, legal), r.state, r.log))
      else if a.Go? && a.dir in legal then
        !r.Stalls? && (r.GoesOn? ==> PlayedOne(v, slot, m, a, a.dir, r.state, r.log))
      else if w.controller == KindWild then
        !r.Stalls? &&
            (r.GoesOn? ==> PlayedOne(v, slot, m, Go(Choose(v, slot, legal)), Choose(v, slot, legal), r.state, r.log))
      else r == Fails(ByEngine(IllegalRule(w.id, m, a)))
  {
    hide Play, PlayAutomatic, Choose, Moves, MaskAt, PlayedOne;
    var w := v.base.worms[slot];
    var m := MaskAt(v.base, w.position);
    var a := Remembered(w, m);
    var legal := Moves(v, w.id);
    if w.alive && legal != [] {
      var d := Choose(v, slot, legal);
      if PlayAutomatic(v, slot, m, legal).GoesOn? { AutomaticPlaysOne(v, slot, m, legal); }
      if Play(v, slot, m, d).GoesOn? { PlayPlaysOne(v, slot, m, d); }
      if a.Go? && Play(v, slot, m, a.dir).GoesOn? { PlayPlaysOne(v, slot, m, a.dir); }
    }
  }

  // ----- frozen worms

  lemma ApplyKeepsFrozen(v: Variant, id: Id, h: Heading)
    ensures FrozenKept(v.base, VariantMoves.Apply(v, id, h).after.base)
  {
    hide VariantMoves.Apply;
    LooksSame(v);
    ApplyLooks(v, v, id, h);
    ApplyKeepsFlags(v, id, h);
    var c := VariantMoves.Apply(v, id, h).after.base;
    forall i | 0 <= i < |v.base.worms| ensures c.worms[i].rules == v.base.worms[i].rules {
      assert SameTables(v.base.worms[i], c.worms[i]);
    }
  }

  lemma ApplyKeepsFlags(v: Variant, id: Id, h: Heading)
    ensures var c := VariantMoves.Apply(v, id, h).after.base;
      forall i :: 0 <= i < |v.base.worms| ==> c.worms[i].frozen == v.base.worms[i].frozen
  {
    hide VariantMoves.Apply, Expired, Completed, Move;
    var v1 := Expired(v);
    ExpiredFrame(v);
    ApplyUnfolds(v, id, h);
    if VariantMoves.Apply(v, id, h).result.Ok? {
      FlagsAfter(v1, WormIndex(v1.base.worms, id), h.value);
    }
  }

  lemma FlagsAfter(v: Variant, i: nat, d: Direction)
    requires i < |v.base.worms|
    ensures var c := Completed(v, i, d, Move(v.base, i, d)).base;
      forall j :: 0 <= j < |v.base.worms| ==> c.worms[j].frozen == v.base.worms[j].frozen
  {
    hide Move, Drained, Neighbor, NewEdge, Expired, Delta, CaptureWeight, Captured;
    var r := Move(v.base, i, d);
    var id := v.base.worms[i].id;
    MoveKeepsControl(v.base, i, d);
    DrainedFrame(Scored(v, r.core, id, r.log), i, id);
    ExpiredFrame(VariantMoves.Played(v, i, d, r));
  }

  lemma PlayKeepsFrozen(v: Variant, slot: nat, m: Mask, d: Direction)
    requires slot < |v.base.worms|
    ensures var r := Play(v, slot, m, d); r.GoesOn? ==> FrozenKept(v.base, r.state.base)
  {
    hide VariantMoves.Apply;
    ApplyKeepsFrozen(OnBase(v, Count(v.base, slot, m)), v.base.worms[slot].id, Some(d));
  }

  lemma AutomaticPlayKeepsFrozen(v: Variant, slot: nat, m: Mask, legal: seq<Direction>)
    requires slot < |v.base.worms| && legal != []
    ensures var r := PlayAutomatic(v, slot, m, legal); r.GoesOn? ==> FrozenKept(v.base, r.state.base)
  {
    hide Play, Choose;
    var d := Choose(v, slot, legal);
    PlayKeepsFrozen(v, slot, m, d);
    PlayKeepsFrozen(OnBase(v, Learn(v.base, slot, m, Go(d))), slot, m, d);
  }

  lemma FollowKeepsFrozen(v: Variant, slot: nat, m: Mask, legal: seq<Direction>, a: Action)
    requires slot < |v.base.worms| && legal != []
    ensures var r := Follow(v, slot, m, legal, a); r.GoesOn? ==> FrozenKept(v.base, r.state.base)
  {
    hide Play, Choose, FrozenKept;
    PlayKeepsFrozen(v, slot, m, Choose(v, slot, legal));
    if a.Go? { PlayKeepsFrozen(v, slot, m, a.dir); }
  }

  lemma OthersKeepFrozen(c: Core, slot: nat, m: Mask, n: nat)
    requires slot < |c.worms|
    ensures FrozenKept(c, c) && FrozenKept(c, Fall(c, slot)) && FrozenKept(c, AwaitDecision(c, slot, m, n).core)
  {
  }

  lemma VariantTurnKeepsFrozen(v: Variant, slot: nat, n: nat)
    requires slot < |v.base.worms|
    ensures var r := ServeTurn(v, slot, n); !r.Fails? ==> FrozenKept(v.base, r.state.base)
  {
    hide Moves, MaskAt, PlayAutomatic, Follow, FrozenKept, Fall;
    var w := v.base.worms[slot];
    var legal, m := Moves(v, w.id), MaskAt(v.base, w.position);
    OthersKeepFrozen(v.base, slot, m, n);
    if w.alive && legal != [] {
      AutomaticPlayKeepsFrozen(v, slot, m, legal);
      FollowKeepsFrozen(v, slot, m, legal, RuleAt(w, m));
    }
  }

  lemma {:induction false} VariantRoundKeepsFrozen(v: Variant, slot: nat, n: nat)
    requires ServeFrom(v, slot, n).Ok?
    ensures FrozenKept(v.base, ServeFrom(v, slot, n).value.state.base)
    decreases |v.base.worms| - slot
  {
    hide ServeTurn;
    if slot >= |v.base.worms| {
    } else {
      var at := OnBase(v, v.base.(activeSlot := slot));
      VariantTurnKeepsFrozen(at, slot, n);
      var r := ServeTurn(at, slot, n);
      if r.GoesOn? {
        VariantRoundKeepsFrozen(r.state, slot + 1, n + |r.log|);
      }
    }
  }

  /** The extension looks at the flag of the decision: with that of the worm agreeing, frozen worms never learn. */
  ghost predicate FlagsAgree(v: Variant) {
    v.base.pending.Some? ==>
      PendingInRange(v.base) && v.base.pending.value.frozen == v.base.worms[v.base.pending.value.slot].frozen
  }

  lemma VariantCallKeepsFrozen(v: Variant, n: nat, call: Call)
    requires FlagsAgree(v) && Exec(v, n, call).Ok?
    ensures FrozenKept(v.base, Exec(v, n, call).value.state.base)
  {
    hide ServeFrom, Moves, VariantMoves.Apply;
    match call
    case CallAdvance => VariantRoundKeepsFrozen(v, if v.base.activeSlot >= 0 then v.base.activeSlot else 0, n);
    case CallSubmit(h) =>
      var p := v.base.pending.value;
      var taught := Taught(v.base, h.value);
      ApplyKeepsFrozen(OnBase(v, taught), v.base.worms[p.slot].id, h);
      var f := Resolve(v, h.value).value;
      VariantRoundKeepsFrozen(f.state, p.slot + 1, n + |f.log|);
  }

  /** Turns leave no decision behind but the one they stall on, which carries its worm's flag. */
  lemma TurnFlags(v: Variant, slot: nat, n: nat)
    requires slot < |v.base.worms| && v.base.pending.None?
    ensures var r := ServeTurn(v, slot, n);
      && (r.GoesOn? ==> r.state.base.pending.None?)
      && (r.Stalls? ==> FlagsAgree(r.state))
  {
    hide Spends, Follows, Moves, PlayAutomatic, Follow, MaskAt;
    TurnSpends(v, slot, n);
    var r := ServeTurn(v, slot, n);
    if r.GoesOn? && v.base.worms[slot].alive { SpendsKeepsPending(v, r.log, r.state); }
  }

  lemma SpendsKeepsPending(v: Variant, log: seq<Draft>, v': Variant)
    requires Spends(v, log, v')
    ensures v'.base.pending == v.base.pending
  {
    hide Follows, Fuel;
  }

  lemma {:induction false} RoundFlags(v: Variant, slot: nat, n: nat)
    requires v.base.pending.None? && ServeFrom(v, slot, n).Ok?
    ensures FlagsAgree(ServeFrom(v, slot, n).value.state)
    decreases |v.base.worms| - slot
  {
    hide ServeTurn;
    if slot >= |v.base.worms| {
    } else {
      var at := OnBase(v, v.base.(activeSlot := slot));
      TurnFlags(at, slot, n);
      var r := ServeTurn(at, slot, n);
      if r.GoesOn? {
        RoundFlags(r.state, slot + 1, n + |r.log|);
      }
    }
  }

  lemma CallFlags(v: Variant, n: nat, call: Call)
    requires Exec(v, n, call).Ok?
    ensures FlagsAgree(Exec(v, n, call).value.state)
  {
    hide ServeFrom, Moves, Resolve, FlagsAgree, Follows, Fuel;
    match call
    case CallAdvance => RoundFlags(v, if v.base.activeSlot >= 0 then v.base.activeSlot else 0, n);
    case CallSubmit(h) =>
      ResolveSpends(v, h.value);
      var f := Resolve(v, h.value).value;
      RoundFlags(f.state, v.base.pending.value.slot + 1, n + |f.log|);
  }

  /**
   * Along every run of a variant game the table of a frozen worm never changes, provided that a decision pending at the
   * start carries its worm's flag; all later ones do.
   */
  lemma {:induction false} VariantFrozenNeverLearns(v: Variant, n: nat, calls: seq<Call>)
    requires FlagsAgree(v) && Run(v, n, calls).Ok?
    ensures FrozenKept(v.base, Run(v, n, calls).value.state.base)
    decreases |calls|
  {
    hide Exec, FlagsAgree;
    if calls == [] {
    } else {
      VariantCallKeepsFrozen(v, n, calls[0]);
      CallFlags(v, n, calls[0]);
      var f := Exec(v, n, calls[0]).value;
      VariantFrozenNeverLearns(f.state, n + |f.log|, calls[1..]);
    }
  }

  // ----- who is served in a round

  /** Only the slot's own worm changes, but for points that other worms lose with a trail that expires. */
  ghost predicate OthersScoreOnly(c: Core, slot: nat, c': Core) {
    && |c'.worms| == |c.worms|
    && forall j :: 0 <= j < |c.worms| && j != slot ==> c'.worms[j] == c.worms[j].(score := c'.worms[j].score)
  }

  lemma ApplyTouchesOne(v: Variant, slot: nat, d: Direction)
    requires slot < |v.base.worms| && UniqueIds(v.base.worms)
    requires VariantMoves.Apply(v, v.base.worms[slot].id, Some(d)).result.Ok?
    ensures var a := VariantMoves.Apply(v, v.base.worms[slot].id, Some(d));
      && OthersScoreOnly(v.base, slot, a.after.base) && a.after.base.pending == v.base.pending
      && a.after.base.worms[slot].id == v.base.worms[slot].id
      && a.after.base.round == v.base.round && a.after.base.tick == v.base.tick + 1
      && forall k :: 0 <= k < |a.result.value| ==> !a.result.value[k].body.RuleUsed?
  {
    hide VariantMoves.Apply, Expired, Completed, Move, AliveSlots, Due, SameClock, DatedWith, LaterOf;
    var id := v.base.worms[slot].id;
    var v1 := Expired(v);
    ExpiredFrame(v);
    AliveIgnoresScores(v.base.worms, v1.base.worms);
    IndexOfSlot(v.base.worms, slot);
    ApplyUnfolds(v, id, Some(d));
    ApplyEffect(v, id, Some(d));
    assert v1.base.tick == v.base.tick && v1.base.round == v.base.round && v1.base.pending == v.base.pending by {
      ClockIs(v.base, v1.base);
    }
    OthersAfter(v1, slot, d);
    MoveReports(v1.base, slot, d);
  }

  lemma ClockIs(c: Core, c': Core)
    requires SameClock(c, c')
    ensures c'.tick == c.tick && c'.round == c.round && c'.pending == c.pending
  {
  }

  lemma OthersAfter(v: Variant, i: nat, d: Direction)
    requires i < |v.base.worms| && HasEnergy(v, v.base.worms[i].id)
    ensures OthersScoreOnly(v.base, i, Completed(v, i, d, Move(v.base, i, d)).base)
  {
    hide Move, Drained, Neighbor, NewEdge, Expired, Delta, CaptureWeight, Captured, AliveSlots;
    var r := Move(v.base, i, d);
    var id := v.base.worms[i].id;
    MoveOthers(v.base, i, d);
    DrainedEffect(Scored(v, r.core, id, r.log), i, id);
    ExpiredFrame(VariantMoves.Played(v, i, d, r));
  }

  lemma PlayedTouchesOne(v: Variant, slot: nat, m: Mask, a: Action, d: Direction, v': Variant, log: seq<Draft>)
    requires slot < |v.base.worms| && UniqueIds(v.base.worms) && PlayedOne(v, slot, m, a, d, v', log)
    ensures OthersScoreOnly(v.base, slot, v'.base) && v'.base.pending == v.base.pending
    ensures v'.base.worms[slot].id == v.base.worms[slot].id && v'.base.round == v.base.round
    ensures v'.base.tick == v.base.tick + 1
    ensures forall j: nat :: UsesOf(log, j) == if j == slot then 1 else 0
  {
    hide VariantMoves.Apply, UsesOf, LearnsAndUses, Prepared, OthersScoreOnly;
    var id := v.base.worms[slot].id;
    var k := if a == DoAI && !v.base.worms[slot].frozen then 1 else 0;
    var u: Variant :| Prepared(v, slot, u) && VariantMoves.Apply(u, id, Some(d)).after == v'
                      && VariantMoves.Apply(u, id, Some(d)).result == Ok(log[k + 1..]);
    PreparedNames(v, slot, u);
    ApplyTouchesOne(u, slot, d);
    PreparedOthers(v, slot, u, v');
    forall i | 0 <= i < |log| && i != k ensures !log[i].body.RuleUsed? {
      if i > k { assert log[i] == log[k + 1..][i - k - 1]; }
    }
    forall j: nat ensures UsesOf(log, j) == if j == slot then 1 else 0 { OneUse(log, k, slot, j); }
  }

  lemma PreparedNames(v: Variant, slot: nat, u: Variant)
    requires slot < |v.base.worms| && UniqueIds(v.base.worms) && Prepared(v, slot, u)
    ensures UniqueIds(u.base.worms) && u.base.worms[slot].id == v.base.worms[slot].id
  {
    assert forall j :: 0 <= j < |v.base.worms| ==> u.base.worms[j].id == v.base.worms[j].id;
  }

  lemma PreparedOthers(v: Variant, slot: nat, u: Variant, v': Variant)
    requires slot < |v.base.worms| && Prepared(v, slot, u) && OthersScoreOnly(u.base, slot, v'.base)
    ensures OthersScoreOnly(v.base, slot, v'.base)
    ensures u.base.pending == v.base.pending && u.base.round == v.base.round && u.base.tick == v.base.tick
  {
  }

  /** A turn touches no other worm but for its score, and reports a use exactly if the worm moves. */
  lemma VariantTurnServesItsSlot(v: Variant, slot: nat, n: nat)
    requires slot < |v.base.worms| && UniqueIds(v.base.worms) && !ServeTurn(v, slot, n).Fails?
    ensures var r := ServeTurn(v, slot, n);
      && OthersScoreOnly(v.base, slot, r.state.base) && r.state.base.worms[slot].id == v.base.worms[slot].id
      && (forall j: nat :: j != slot ==> UsesOf(r.log, j) == 0)
      && UsesOf(r.log, slot) <= 1
      && (!v.base.worms[slot].alive ==> UsesOf(r.log, slot) == 0 && r.state == v)
      && (r.Stalls? ==> UsesOf(r.log, slot) == 0 && r.state.base.worms == v.base.worms && r.state.base.pending.Some?
                        && r.state.base.pending.value.slot == slot)
      && (r.GoesOn? ==> r.state.base.pending == v.base.pending)
      && (r.GoesOn? && r.state.base.worms[slot].alive ==>
          UsesOf(r.log, slot) == if v.base.worms[slot].alive then 1 else 0)
      && (UsesOf(r.log, slot) == 1 <==> r.state.base.tick == v.base.tick + 1)
      && (UsesOf(r.log, slot) == 0 <==> r.state.base.tick == v.base.tick)
  {
    hide ServeTurn, Moves, MaskAt, Choose, Remembered, UsesOf, PlayedOne;
    VariantTurnByCases(v, slot, n);
    var r := ServeTurn(v, slot, n);
    var w := v.base.worms[slot];
    var m := MaskAt(v.base, w.position);
    var a := Remembered(w, m);
    var legal := Moves(v, w.id);
    if w.alive && legal != [] && a != Die && a != GetNew {
      var d := if a.Go? && a.dir in legal then a.dir else Choose(v, slot, legal);
      var b := if a == DoAI then a else Go(d);
      PlayedTouchesOne(v, slot, m, b, d, r.state, r.log);
    } else {
      forall j: nat ensures UsesOf(r.log, j) == 0 { NoUses(r.log, j); }
    }
  }

  ghost predicate VariantRoundServed(c: Core, slot: nat, c': Core, log: seq<Draft>) {
    && |c'.worms| == |c.worms| && (slot <= |c.worms| ==> slot <= ServedTo(c') <= |c.worms|)
    && (forall j: nat :: j < slot || j >= ServedTo(c') ==>
          UsesOf(log, j) == 0 && (j < |c.worms| ==> c'.worms[j] == c.worms[j].(score := c'.worms[j].score)))
    && forall j: nat :: slot <= j < ServedTo(c') && j < |c.worms| ==>
         && UsesOf(log, j) <= 1
         && (!c.worms[j].alive ==> UsesOf(log, j) == 0 && c'.worms[j] == c.worms[j].(score := c'.worms[j].score))
         && (c'.worms[j].alive ==> UsesOf(log, j) == if c.worms[j].alive then 1 else 0)
  }

  /**
   * A variant round too serves every worm once from the slot where it begins: who is alive at the end has moved exactly
   * once, and dead worms, earlier slots and the slots from a stall on lose at most points.
   */
  lemma {:induction false} VariantRoundServesEveryone(v: Variant, slot: nat, n: nat)
    requires UniqueIds(v.base.worms) && v.base.pending.None? && slot <= |v.base.worms| && ServeFrom(v, slot, n).Ok?
    ensures var f := ServeFrom(v, slot, n).value; VariantRoundServed(v.base, slot, f.state.base, f.log)
    decreases |v.base.worms| - slot
  {
    hide ServeTurn, UsesOf, VariantRoundServed;
    if slot == |v.base.worms| {
      VariantFinishServes(v.base);
    } else {
      var at := OnBase(v, v.base.(activeSlot := slot));
      VariantTurnServesItsSlot(at, slot, n);
      var r := ServeTurn(at, slot, n);
      if r.Stalls? {
        VariantStallServes(v.base, slot, r.state.base, r.log);
      } else {
        NamesStay(v.base, slot, r.state.base);
        VariantRoundServesEveryone(r.state, slot + 1, n + |r.log|);
        var rest := ServeFrom(r.state, slot + 1, n + |r.log|).value;
        VariantServedNext(v.base, slot, r.state.base, r.log, rest.state.base, rest.log);
      }
    }
  }

  lemma NamesStay(c: Core, slot: nat, c': Core)
    requires slot < |c.worms| && UniqueIds(c.worms) && OthersScoreOnly(c, slot, c')
    requires c'.worms[slot].id == c.worms[slot].id
    ensures UniqueIds(c'.worms)
  {
    assert forall j :: 0 <= j < |c.worms| ==> c'.worms[j].id == c.worms[j].id;
  }

  lemma VariantFinishServes(c: Core)
    requires c.pending.None?
    ensures VariantRoundServed(c, |c.worms|, Finish(c).core, Finish(c).log)
  {
    forall j: nat ensures UsesOf(Finish(c).log, j) == 0 { NoUses(Finish(c).log, j); }
  }

  lemma VariantStallServes(c: Core, slot: nat, c': Core, log: seq<Draft>)
    requires slot < |c.worms| && c'.worms == c.worms
    requires c'.pending.Some? && c'.pending.value.slot == slot
    requires forall j: nat :: UsesOf(log, j) == 0
    ensures VariantRoundServed(c, slot, c', log)
  {
  }

  lemma VariantServedNext(c: Core, slot: nat, mid: Core, a: seq<Draft>, c': Core, log: seq<Draft>)
    requires slot < |c.worms| && OthersScoreOnly(c, slot, mid)
    requires forall j: nat :: j != slot ==> UsesOf(a, j) == 0
    requires UsesOf(a, slot) <= 1
    requires !c.worms[slot].alive ==> UsesOf(a, slot) == 0 && mid.worms == c.worms
    requires mid.worms[slot].alive ==> UsesOf(a, slot) == if c.worms[slot].alive then 1 else 0
    requires VariantRoundServed(mid, slot + 1, c', log)
    ensures VariantRoundServed(c, slot, c', a + log)
  {
    hide UsesOf;
    forall j: nat ensures UsesOf(a + log, j) == UsesOf(a, j) + UsesOf(log, j) { UsesConcat(a, log, j); }
  }

  // ----- decisions

  /**
   * A decision is refused when there is none, when it was frozen or names no slot, and when the direction is not
   * legal for the worm it names; an accepted one is reported as learned and used before its worm moves, and the worm
   * of its slot remembers it.
   */
  lemma VariantDecisionsArePlayed(v: Variant, n: nat, h: Heading)
    requires UniqueIds(v.base.worms)
    ensures var r := Decide(v, n, h);
      if v.base.pending.None? then r == Err(ByEngine(Rejected(PendingDecision)))
      else
        var p := v.base.pending.value;
        if p.frozen || p.slot < 0 || p.slot >= |v.base.worms| then r == Err(ByEngine(Rejected(FrozenUnknown)))
        else if h.None? || h.value !in Moves(v, p.worm) then r == Err(ByEngine(Rejected(OccupiedSpoke)))
        else r.Ok? ==>
          var w := v.base.worms[p.slot];
          var count := ((if p.mask in w.uses then w.uses[p.mask] else 0) + 1) % 4294967296;
          && |r.value.log| > 2 && |r.value.state.base.worms| == |v.base.worms|
          && r.value.log[0] == Draft(v.base.tick, v.base.round, RuleLearned(w.id, p.slot, p.mask, Go(h.value), "new"))
          && r.value.log[1] == Draft(v.base.tick, v.base.round, RuleUsed(w.id, p.slot, p.mask, Go(h.value), count))
          && var w' := r.value.state.base.worms[p.slot];
          && w'.rules == w.rules[p.mask := Go(h.value)] && w'.uses == w.uses[p.mask := count]
          && (forall j :: 0 <= j < p.slot ==>
                r.value.state.base.worms[j] == v.base.worms[j].(score := r.value.state.base.worms[j].score))
          && UsesOf(r.value.log, p.slot) == 1
  {
    hide ServeFrom, Moves, UsesOf, VariantMoves.Apply, Taught, VariantRoundServed;
    if Decide(v, n, h).Ok? {
      var p := v.base.pending.value;
      var taught := Taught(v.base, h.value);
      var u := OnBase(v, taught);
      TaughtShape(v.base, h.value);
      ApplyTouchesOne(u, p.slot, h.value);
      LooksSame(u);
      ApplyLooks(u, u, v.base.worms[p.slot].id, h);
      var f := Resolve(v, h.value).value;
      NamesStay(v.base, p.slot, f.state.base);
      AnswerUses(v.base, h.value, VariantMoves.Apply(u, v.base.worms[p.slot].id, h).result.value);
      VariantRoundServesEveryone(f.state, p.slot + 1, n + |f.log|);
      var rest := ServeFrom(f.state, p.slot + 1, n + |f.log|).value;
      VariantLaterSlotsOnly(f.state.base, p.slot + 1, rest.state.base, rest.log);
      UsesConcat(f.log, rest.log, p.slot);
      MoveIsReported(u, v.base.worms[p.slot].id, h);
    }
  }

  lemma MoveIsReported(v: Variant, id: Id, h: Heading)
    requires VariantMoves.Apply(v, id, h).result.Ok?
    ensures |VariantMoves.Apply(v, id, h).result.value| > 0
  {
    hide VariantMoves.Apply, Expired, Completed, Move;
    ApplyUnfolds(v, id, h);
    MoveReports(Expired(v).base, WormIndex(Expired(v).base.worms, id), h.value);
  }

  lemma VariantLaterSlotsOnly(c: Core, slot: nat, c': Core, log: seq<Draft>)
    requires VariantRoundServed(c, slot, c', log)
    ensures |c'.worms| == |c.worms| && forall j: nat :: j < slot && j < |c.worms| ==>
              c'.worms[j] == c.worms[j].(score := c'.worms[j].score) && UsesOf(log, j) == 0
  {
    hide UsesOf;
  }
}
