/** What a slot's turn and a round do, read off the states, the tables and the log. */
module TurnLaws {
  import opened Geometry
  import opened Engine
  import opened Rounds
  import opened Progress
  import opened AutoChoice
  import opened MoveLaws
  import opened Wrappers

  // ----- a turn

  /** Only the slot's own worm changes. */
  ghost predicate OnlySlot(c: Core, slot: nat, c': Core) {
    |c'.worms| == |c.worms| && forall j :: 0 <= j < |c.worms| && j != slot ==> c'.worms[j] == c.worms[j]
  }

  /** The slot's worm has died where it was, and nothing else is different. */
  ghost predicate Fallen(c: Core, slot: nat, c': Core)
    requires slot < |c.worms|
  {
    c' == c.(worms := c.worms[slot := c.worms[slot].(alive := false, crix := None)])
  }

  /**
   * The slot's worm has gone one free step in direction d, under its remembered action a for the mask m: the use is
   * counted, an automatic choice is remembered unless the worm is frozen, and both are reported before the move.
   */
  ghost predicate Played(c: Core, slot: nat, m: Mask, a: Action, d: Direction, c': Core, log: seq<Draft>)
    requires slot < |c.worms|
  {
    var w := c.worms[slot];
    var learns := a == DoAI && !w.frozen;
    var count := ((if m in w.uses then w.uses[m] else 0) + 1) % 4294967296;
    var k := if learns then 1 else 0;
    && OnlySlot(c, slot, c') && c'.tick == c.tick + 1 && c'.round == c.round && c'.pending == c.pending
    && var w' := c'.worms[slot];
    && w'.previous == Some(d) && w'.position == Neighbor(c.board, w.position, d) && w'.frozen == w.frozen
    && w'.rules == (if learns then w.rules[m := Go(d)] else w.rules)
    && w'.uses == w.uses[m := count]
    && |log| > k + 1
    && (learns ==> log[0] == Draft(c.tick, c.round, RuleLearned(w.id, slot, m, Go(d), "auto")))
    && log[k] == Draft(c.tick, c.round, RuleUsed(w.id, slot, m, Go(d), count))
    && forall j :: k < j < |log| ==> log[j].tick == c.tick + 1 && !log[j].body.RuleUsed? && !log[j].body.RuleLearned?
  }

  lemma ActPlays(c: Core, slot: nat, m: Mask, d: Direction)
    requires slot < |c.worms| && WormIndex(c.worms, c.worms[slot].id) == slot
    requires Act(c, slot, m, Go(d)).Continue?
    ensures var r := Act(c, slot, m, Go(d)); d !in m && Played(c, slot, m, Go(d), d, r.core, r.log)
  {
    hide Move, MaskAt, Neighbor, NewEdge, InBounds, HasWorm;
    var counted := Count(c, slot, m);
    assert WormIndex(counted.worms, c.worms[slot].id) == slot by { CountKeepsNames(c, slot, m); }
    MoveDisplaces(counted, slot, d);
    MoveReports(counted, slot, d);
  }

  lemma CountKeepsNames(c: Core, slot: nat, m: Mask)
    requires slot < |c.worms| && WormIndex(c.worms, c.worms[slot].id) == slot
    ensures WormIndex(Count(c, slot, m).worms, c.worms[slot].id) == slot
  {
    var ws := Count(c, slot, m).worms;
    assert forall j :: 0 <= j < |ws| ==> ws[j].id == c.worms[j].id;
  }

  lemma MoveReports(c: Core, i: nat, d: Direction)
    requires i < |c.worms|
    ensures var log := Move(c, i, d).log;
      && |log| > 0
      && forall j :: 0 <= j < |log| ==> log[j].tick == c.tick + 1 && !log[j].body.RuleUsed? && !log[j].body.RuleLearned?
  {
    hide Neighbor, NewEdge, Refreshed, Points, Settle;
  }

  lemma AutomaticPlays(c: Core, slot: nat, m: Mask, d: Direction)
    requires slot < |c.worms| && WormIndex(c.worms, c.worms[slot].id) == slot
    requires Automatic(c, slot, m, Go(d)).Continue?
    ensures var r := Automatic(c, slot, m, Go(d)); d !in m && Played(c, slot, m, DoAI, d, r.core, r.log)
  {
    hide Act, Played;
    if c.worms[slot].frozen {
      ActPlays(c, slot, m, d);
      FrozenPlays(c, slot, m, d, Act(c, slot, m, Go(d)).core, Act(c, slot, m, Go(d)).log);
    } else {
      var learned := Learn(c, slot, m, Go(d));
      assert WormIndex(learned.worms, c.worms[slot].id) == slot by { LearnKeepsNames(c, slot, m, d); }
      ActPlays(learned, slot, m, d);
      LearnedPlays(c, slot, m, d, Act(learned, slot, m, Go(d)).core, Act(learned, slot, m, Go(d)).log);
    }
  }

  lemma FrozenPlays(c: Core, slot: nat, m: Mask, d: Direction, c': Core, log: seq<Draft>)
    requires slot < |c.worms| && c.worms[slot].frozen && Played(c, slot, m, Go(d), d, c', log)
    ensures Played(c, slot, m, DoAI, d, c', log)
  {
  }

  lemma LearnedPlays(c: Core, slot: nat, m: Mask, d: Direction, c': Core, log: seq<Draft>)
    requires slot < |c.worms| && !c.worms[slot].frozen && Played(Learn(c, slot, m, Go(d)), slot, m, Go(d), d, c', log)
    ensures Played(c, slot, m, DoAI, d, c', [Emit(c, RuleLearned(c.worms[slot].id, slot, m, Go(d), "auto"))] + log)
  {
    hide Neighbor;
    var news := [Emit(c, RuleLearned(c.worms[slot].id, slot, m, Go(d), "auto"))] + log;
    assert forall j :: 0 < j < |news| ==> news[j] == log[j - 1];
  }

  lemma LearnKeepsNames(c: Core, slot: nat, m: Mask, d: Direction)
    requires slot < |c.worms| && WormIndex(c.worms, c.worms[slot].id) == slot
    ensures WormIndex(Learn(c, slot, m, Go(d)).worms, c.worms[slot].id) == slot
  {
    var ws := Learn(c, slot, m, Go(d)).worms;
    assert forall j :: 0 <= j < |ws| ==> ws[j].id == c.worms[j].id;
  }

  /** The action a worm remembers for a mask; a table that says nothing says East. */
  ghost function Remembered(w: Worm, m: Mask): Action {
    if m in w.rules then w.rules[m] else Go(East)
  }

  /**
   * A turn, case by case. A dead worm does nothing. A worm without a legal move is blocked, and one that remembers
   * death dies. One that must ask waits, under the number its question gets in the log. A remembered direction that
   * is taken, or no direction at all, is an error. Any other turn that goes on is one move: in the remembered
   * direction, or, for an automatic worm, in the direction that `ChoiceInPlainTerms` describes.
   */
  lemma TurnByCases(c: Core, slot: nat, n: nat)
    requires slot < |c.worms| && WormIndex(c.worms, c.worms[slot].id) == slot
    ensures var w := c.worms[slot]; var m := MaskAt(c, w.position); var a := Remembered(w, m);
      var r := TakeTurn(c, slot, n);
      if !w.alive then r == Continue(c, [])
      else if LegalMoves(c, w.id) == [] then
        r.Continue? && Fallen(c, slot, r.core) && r.log == [Draft(c.tick, c.round, WormBlocked(w.id, w.position))]
      else if a == Die then
        r.Continue? && Fallen(c, slot, r.core) && r.log == [Draft(c.tick, c.round, WormDied(w.id, w.position))]
      else if a == GetNew then
        && r.Stall?
        && r.core == c.(pending := Some(Decision(w.id, m, slot, n + 1, "unknown_pattern", w.frozen)))
        && r.log == [Draft(c.tick, c.round, DecisionPending(w.id, m, slot, n + 1, "unknown_pattern"))]
      else if a == DoAI then
        && !r.Stall?
        && (r.Continue? ==> exists d :: ChooseAuto(c, slot) == Some(d) && Played(c, slot, m, a, d, r.core, r.log))
      else if a.Malformed? || a.dir in m then r == Fail(IllegalRule(w.id, m, a))
      else !r.Stall? && (r.Continue? ==> Played(c, slot, m, a, a.dir, r.core, r.log))
  {
    hide Act, Automatic, ChooseAuto, LegalMoves, MaskAt, Played;
    var w := c.worms[slot];
    var m := MaskAt(c, w.position);
    var a := Remembered(w, m);
    if w.alive && LegalMoves(c, w.id) != [] {
      match a
      case DoAI =>
        var h := ChooseAuto(c, slot);
        if h.Some? && Automatic(c, slot, m, ActionOf(h)).Continue? {
          AutomaticPlays(c, slot, m, h.value);
        } else if h.None? {
          NoDirectionFails(c, slot, m);
        }
      case Go(d) =>
        if d in m { TakenFails(c, slot, m, a); }
        else if Act(c, slot, m, a).Continue? { ActPlays(c, slot, m, d); }
      case Malformed(_) => TakenFails(c, slot, m, a);
      case GetNew =>
      case Die =>
    }
  }

  lemma TakenFails(c: Core, slot: nat, m: Mask, a: Action)
    requires slot < |c.worms| && (!a.Go? || a.dir in m)
    ensures Act(c, slot, m, a) == Fail(IllegalRule(c.worms[slot].id, m, a))
  {
  }

  lemma NoDirectionFails(c: Core, slot: nat, m: Mask)
    requires slot < |c.worms|
    ensures Automatic(c, slot, m, ActionOf(None)).Fail?
  {
  }

  // ----- frozen worms

  /** The tables of frozen worms are as they were. */
  ghost predicate FrozenKept(c: Core, c': Core) {
    && |c'.worms| == |c.worms|
    && forall i :: 0 <= i < |c.worms| ==>
         c'.worms[i].frozen == c.worms[i].frozen && (c.worms[i].frozen ==> c'.worms[i].rules == c.worms[i].rules)
  }

  lemma StepKeepsFrozen(c: Core, id: Id, h: Heading)
    requires Step(c, id, h).Ok?
    ensures FrozenKept(c, Step(c, id, h).value.core)
  {
    hide Move;
    MoveKeepsControl(c, WormIndex(c.worms, id), h.value);
  }

  lemma ActKeepsFrozen(c: Core, slot: nat, m: Mask, a: Action)
    requires slot < |c.worms| && Act(c, slot, m, a).Continue?
    ensures FrozenKept(c, Act(c, slot, m, a).core)
  {
    hide Step;
    StepKeepsFrozen(Count(c, slot, m), c.worms[slot].id, Some(a.dir));
  }

  lemma TurnKeepsFrozen(c: Core, slot: nat, n: nat)
    requires slot < |c.worms| && !TakeTurn(c, slot, n).Fail?
    ensures FrozenKept(c, TakeTurn(c, slot, n).core)
  {
    hide Act, Automatic, ChooseAuto, LegalMoves, MaskAt;
    var w := c.worms[slot];
    var m := MaskAt(c, w.position);
    var a := RuleAt(w, m);
    if Act(c, slot, m, a).Continue? { ActKeepsFrozen(c, slot, m, a); }
    AutomaticKeepsFrozen(c, slot, m, ActionOf(ChooseAuto(c, slot)));
  }

  lemma AutomaticKeepsFrozen(c: Core, slot: nat, m: Mask, a: Action)
    requires slot < |c.worms|
    ensures var r := Automatic(c, slot, m, a); r.Continue? ==> FrozenKept(c, r.core)
  {
    hide Act;
    var learned := Learn(c, slot, m, a);
    if Act(c, slot, m, a).Continue? { ActKeepsFrozen(c, slot, m, a); }
    if Act(learned, slot, m, a).Continue? { ActKeepsFrozen(learned, slot, m, a); }
  }

  lemma {:induction false} SlotsKeepFrozen(c: Core, slot: nat, n: nat)
    requires Slots(c, slot, n).Ok?
    ensures FrozenKept(c, Slots(c, slot, n).value.core)
    decreases |c.worms| - slot
  {
    hide TakeTurn;
    if slot >= |c.worms| {
    } else {
      var at := c.(activeSlot := slot);
      TurnKeepsFrozen(at, slot, n);
      var r := TakeTurn(at, slot, n);
      if r.Continue? {
        SlotsKeepFrozen(r.core, slot + 1, n + |r.log|);
      }
    }
  }

  lemma SubmitKeepsFrozen(c: Core, n: nat, h: Heading)
    requires Submit(c, n, h).Ok?
    ensures FrozenKept(c, Submit(c, n, h).value.core)
  {
    hide Slots, Step, LegalMoves;
    var p := c.pending.value;
    var taught := Taught(c, h.value);
    StepKeepsFrozen(taught, c.worms[p.slot].id, h);
    var a := Answer(c, h.value).value;
    SlotsKeepFrozen(a.core, p.slot + 1, n + |a.log|);
  }

  lemma PerformKeepsFrozen(c: Core, n: nat, op: Op)
    requires Perform(c, n, op).Ok?
    ensures FrozenKept(c, Perform(c, n, op).value.core)
  {
    hide Step, Slots, Submit;
    match op
    case OpStep(id, h) => StepKeepsFrozen(c, id, h);
    case OpCall(CallAdvance) => SlotsKeepFrozen(c, if c.activeSlot >= 0 then c.activeSlot else 0, n);
    case OpCall(CallSubmit(h)) => SubmitKeepsFrozen(c, n, h);
  }

  /** Along every run that mixes moves, rounds and decisions the table of a frozen worm never changes. */
  lemma {:induction false} FrozenNeverLearns(c: Core, n: nat, ops: seq<Op>)
    requires Play(c, n, ops).Ok?
    ensures FrozenKept(c, Play(c, n, ops).value.core)
    decreases |ops|
  {
    hide Perform;
    if ops == [] {
    } else {
      PerformKeepsFrozen(c, n, ops[0]);
      var r := Perform(c, n, ops[0]).value;
      FrozenNeverLearns(r.core, n + |r.log|, ops[1..]);
    }
  }

  // ----- who is served in a round

  /** How often a list of events says that the worm in slot j used a rule. */
  function UsesOf(log: seq<Draft>, j: nat): nat {
    if log == [] then 0
    else UsesOf(log[1..], j) + if log[0].body.RuleUsed? && log[0].body.slot == j then 1 else 0
  }

  lemma {:induction false} UsesConcat(a: seq<Draft>, b: seq<Draft>, j: nat)
    ensures UsesOf(a + b, j) == UsesOf(a, j) + UsesOf(b, j)
    decreases |a|
  {
    if a == [] {
      assert a + b == b;
    } else {
      assert (a + b)[0] == a[0] && (a + b)[1..] == a[1..] + b;
      UsesConcat(a[1..], b, j);
    }
  }

  lemma {:induction false} NoUses(log: seq<Draft>, j: nat)
    requires forall k :: 0 <= k < |log| ==> !log[k].body.RuleUsed?
    ensures UsesOf(log, j) == 0
    decreases |log|
  {
    if log == [] {
    } else {
      NoUses(log[1..], j);
    }
  }

  /** One report of a use, at k. */
  lemma OneUse(log: seq<Draft>, k: nat, slot: nat, j: nat)
    requires k < |log| && log[k].body.RuleUsed? && log[k].body.slot == slot
    requires forall i :: 0 <= i < |log| && i != k ==> !log[i].body.RuleUsed?
    ensures UsesOf(log, j) == if j == slot then 1 else 0
  {
    assert log == log[..k] + ([log[k]] + log[k + 1..]);
    UsesConcat(log[..k], [log[k]] + log[k + 1..], j);
    NoUses(log[..k], j);
    NoUses(log[k + 1..], j);
  }

  /** A turn touches no other worm, and reports a use exactly if the worm moves. */
  lemma TurnServesItsSlot(c: Core, slot: nat, n: nat)
    requires slot < |c.worms| && WormIndex(c.worms, c.worms[slot].id) == slot && !TakeTurn(c, slot, n).Fail?
    ensures var r := TakeTurn(c, slot, n);
      && OnlySlot(c, slot, r.core)
      && (forall j: nat :: j != slot ==> UsesOf(r.log, j) == 0)
      && UsesOf(r.log, slot) <= 1
      && (!c.worms[slot].alive ==> UsesOf(r.log, slot) == 0 && r.core.worms == c.worms)
      && (r.Stall? ==> UsesOf(r.log, slot) == 0 && r.core.worms == c.worms && r.core.pending.Some?
                       && r.core.pending.value.slot == slot)
      && (r.Continue? ==> r.core.pending == c.pending)
      && (r.Continue? && r.core.worms[slot].alive ==> UsesOf(r.log, slot) == if c.worms[slot].alive then 1 else 0)
      && (UsesOf(r.log, slot) == 1 <==> r.core.tick == c.tick + 1)
      && (UsesOf(r.log, slot) == 0 <==> r.core.tick == c.tick)
  {
    hide TakeTurn, LegalMoves, MaskAt, ChooseAuto, Remembered, UsesOf;
    TurnByCases(c, slot, n);
    var r := TakeTurn(c, slot, n);
    var w := c.worms[slot];
    if forall k :: 0 <= k < |r.log| ==> !r.log[k].body.RuleUsed? {
      forall j: nat ensures UsesOf(r.log, j) == 0 { NoUses(r.log, j); }
    } else {
      var k :| 0 <= k < |r.log| && r.log[k].body.RuleUsed?;
      forall j: nat ensures UsesOf(r.log, j) == if j == slot then 1 else 0 { OneUse(r.log, k, slot, j); }
    }
  }

  /** The slots served are those from `slot` to the one that stalls, or to the last. */
  ghost function ServedTo(c: Core): int {
    if c.pending.Some? then c.pending.value.slot else |c.worms|
  }

  ghost predicate RoundServed(c: Core, slot: nat, c': Core, log: seq<Draft>) {
    && |c'.worms| == |c.worms| && (slot <= |c.worms| ==> slot <= ServedTo(c') <= |c.worms|)
    && (forall j: nat :: j < slot || j >= ServedTo(c') ==>
          UsesOf(log, j) == 0 && (j < |c.worms| ==> c'.worms[j] == c.worms[j]))
    && forall j: nat :: slot <= j < ServedTo(c') && j < |c.worms| ==>
         && UsesOf(log, j) <= 1
         && (!c.worms[j].alive ==> UsesOf(log, j) == 0 && c'.worms[j] == c.worms[j])
         && (c'.worms[j].alive ==> UsesOf(log, j) == if c.worms[j].alive then 1 else 0)
  }

  /**
   * From the slot where it begins a round serves every worm once: who is alive at the end has moved exactly once, and
   * dead worms, earlier slots and the slots from a stall on have not been touched.
   */
  lemma {:induction false} RoundServesEveryone(c: Core, slot: nat, n: nat)
    requires UniqueIds(c.worms) && c.pending.None? && slot <= |c.worms| && Slots(c, slot, n).Ok?
    ensures RoundServed(c, slot, Slots(c, slot, n).value.core, Slots(c, slot, n).value.log)
    decreases |c.worms| - slot
  {
    hide TakeTurn, UsesOf, RoundServed;
    if slot == |c.worms| {
      FinishServes(c);
    } else {
      var at := c.(activeSlot := slot);
      IndexOfSlot(c.worms, slot);
      TurnServesItsSlot(at, slot, n);
      var r := TakeTurn(at, slot, n);
      if r.Stall? {
        StallServes(c, slot, r);
      } else {
        assert UniqueIds(r.core.worms) && r.core.pending.None? by { TurnKeepsNames(at, slot, n); }
        RoundServesEveryone(r.core, slot + 1, n + |r.log|);
        var rest := Slots(r.core, slot + 1, n + |r.log|).value;
        ServedNext(c, slot, r, rest.core, rest.log);
      }
    }
  }

  lemma FinishServes(c: Core)
    requires c.pending.None?
    ensures RoundServed(c, |c.worms|, Finish(c).core, Finish(c).log)
  {
    forall j: nat ensures UsesOf(Finish(c).log, j) == 0 { NoUses(Finish(c).log, j); }
  }

  lemma StallServes(c: Core, slot: nat, r: Turn)
    requires slot < |c.worms| && r.Stall? && r.core.worms == c.worms
    requires r.core.pending.Some? && r.core.pending.value.slot == slot
    requires forall j: nat :: UsesOf(r.log, j) == 0
    ensures RoundServed(c, slot, r.core, r.log)
  {
  }

  lemma TurnKeepsNames(c: Core, slot: nat, n: nat)
    requires slot < |c.worms| && UniqueIds(c.worms) && TakeTurn(c, slot, n).Continue?
    ensures UniqueIds(TakeTurn(c, slot, n).core.worms) && TakeTurn(c, slot, n).core.pending == c.pending
  {
    hide TakeTurn, LedgerKept, Work;
    var at := c.(activeSlot := slot);
    TurnPending(c, slot, n);
    TurnKeepsIds(c, slot, n);
  }

  lemma TurnKeepsIds(c: Core, slot: nat, n: nat)
    requires slot < |c.worms| && !TakeTurn(c, slot, n).Fail?
    ensures var c' := TakeTurn(c, slot, n).core;
      |c'.worms| == |c.worms| && forall j :: 0 <= j < |c.worms| ==> c'.worms[j].id == c.worms[j].id
  {
    hide Act, Automatic, ChooseAuto, LegalMoves, MaskAt;
    var w := c.worms[slot];
    var m := MaskAt(c, w.position);
    ActKeepsIds(c, slot, m, RuleAt(w, m));
    AutomaticKeepsIds(c, slot, m, ActionOf(ChooseAuto(c, slot)));
  }

  lemma ActKeepsIds(c: Core, slot: nat, m: Mask, a: Action)
    requires slot < |c.worms|
    ensures var r := Act(c, slot, m, a);
      r.Continue? ==> forall j :: 0 <= j < |c.worms| ==> r.core.worms[j].id == c.worms[j].id
  {
    hide Move;
    var counted := Count(c, slot, m);
    var i := WormIndex(counted.worms, c.worms[slot].id);
    if a.Go? && i >= 0 { MoveKeepsControl(counted, i, a.dir); }
  }

  lemma AutomaticKeepsIds(c: Core, slot: nat, m: Mask, a: Action)
    requires slot < |c.worms|
    ensures var r := Automatic(c, slot, m, a);
      r.Continue? ==> forall j :: 0 <= j < |c.worms| ==> r.core.worms[j].id == c.worms[j].id
  {
    hide Act;
    ActKeepsIds(c, slot, m, a);
    ActKeepsIds(Learn(c, slot, m, a), slot, m, a);
  }

  lemma ServedNext(c: Core, slot: nat, r: Turn, c': Core, log: seq<Draft>)
    requires slot < |c.worms| && r.Continue? && OnlySlot(c, slot, r.core)
    requires forall j: nat :: j != slot ==> UsesOf(r.log, j) == 0
    requires UsesOf(r.log, slot) <= 1
    requires !c.worms[slot].alive ==> UsesOf(r.log, slot) == 0 && r.core.worms == c.worms
    requires r.core.worms[slot].alive ==> UsesOf(r.log, slot) == if c.worms[slot].alive then 1 else 0
    requires RoundServed(r.core, slot + 1, c', log)
    ensures RoundServed(c, slot, c', r.log + log)
  {
    hide UsesOf;
    forall j: nat ensures UsesOf(r.log + log, j) == UsesOf(r.log, j) + UsesOf(log, j) { UsesConcat(r.log, log, j); }
  }

  // ----- how rounds and decisions begin and end

  /** A closed round reports its end, and the end of the game if nobody is left; a stalled one reports its question. */
  ghost predicate RoundReported(c: Core, c': Core, log: seq<Draft>) {
    && |log| > 0
    && if c'.pending.Some? then log[|log| - 1].body.DecisionPending?
       else if forall i :: 0 <= i < |c'.worms| ==> !c'.worms[i].alive then
         |log| > 1 && log[|log| - 2] == Draft(c'.tick, c.round + 1, RoundCompleted)
         && log[|log| - 1] == Draft(c'.tick, c.round + 1, GameEnded)
       else log[|log| - 1] == Draft(c'.tick, c.round + 1, RoundCompleted)
  }

  lemma {:induction false} RoundsAreReported(c: Core, slot: nat, n: nat)
    requires c.pending.None? && Slots(c, slot, n).Ok?
    ensures RoundReported(c, Slots(c, slot, n).value.core, Slots(c, slot, n).value.log)
    decreases |c.worms| - slot
  {
    hide TakeTurn, RoundReported;
    if slot >= |c.worms| {
      FinishReports(c);
    } else {
      var at := c.(activeSlot := slot);
      var r := TakeTurn(at, slot, n);
      TurnPending(at, slot, n);
      TurnKeepsRound(at, slot, n);
      SameReport(at, c, r.core, r.log);
      if r.Continue? {
        RoundsAreReported(r.core, slot + 1, n + |r.log|);
        var rest := Slots(r.core, slot + 1, n + |r.log|).value;
        ReportedLater(c, r.core, rest.core, r.log, rest.log);
      }
    }
  }

  lemma SameReport(a: Core, b: Core, c': Core, log: seq<Draft>)
    requires a.round == b.round
    ensures RoundReported(a, c', log) ==> RoundReported(b, c', log)
  {
  }

  lemma FinishReports(c: Core)
    requires c.pending.None?
    ensures RoundReported(c, Finish(c).core, Finish(c).log)
  {
    var alive := AliveSlots(c.worms);
    if i: nat :| i < |c.worms| && c.worms[i].alive {
      assert i in alive;
    } else {
      assert alive == {};
    }
  }

  lemma TurnKeepsRound(c: Core, slot: nat, n: nat)
    requires slot < |c.worms|
    ensures var r := TakeTurn(c, slot, n);
      && (r.Continue? ==> r.core.round == c.round)
      && (r.Stall? ==> RoundReported(c, r.core, r.log))
  {
    hide Act, Automatic, ChooseAuto, LegalMoves, MaskAt;
    var w := c.worms[slot];
    var m := MaskAt(c, w.position);
    ActKeepsRound(c, slot, m, RuleAt(w, m));
    AutomaticKeepsRound(c, slot, m, ActionOf(ChooseAuto(c, slot)));
  }

  lemma ActKeepsRound(c: Core, slot: nat, m: Mask, a: Action)
    requires slot < |c.worms|
    ensures var r := Act(c, slot, m, a); r.Continue? ==> r.core.round == c.round
  {
    hide Move;
    var counted := Count(c, slot, m);
    var i := WormIndex(counted.worms, c.worms[slot].id);
    if a.Go? && i >= 0 { MoveKeepsControl(counted, i, a.dir); }
  }

  lemma AutomaticKeepsRound(c: Core, slot: nat, m: Mask, a: Action)
    requires slot < |c.worms|
    ensures var r := Automatic(c, slot, m, a); r.Continue? ==> r.core.round == c.round
  {
    hide Act;
    ActKeepsRound(c, slot, m, a);
    ActKeepsRound(Learn(c, slot, m, a), slot, m, a);
  }

  lemma ReportedLater(c: Core, mid: Core, c': Core, a: seq<Draft>, b: seq<Draft>)
    requires mid.round == c.round && RoundReported(mid, c', b)
    ensures RoundReported(c, c', a + b)
  {
    var log := a + b;
    assert log[|log| - 1] == b[|b| - 1];
    assert |b| > 1 ==> log[|log| - 2] == b[|b| - 2];
  }

  /**
   * `AdvanceRound` refuses to begin while a decision is pending, and then if the game is over; otherwise it serves the
   * worms from the active slot on, or from the first if none is active.
   */
  lemma RoundsBegin(c: Core, n: nat)
    requires UniqueIds(c.worms) && c.activeSlot <= |c.worms|
    ensures var r := AdvanceRound(c, n);
      && (c.pending.Some? ==> r == Err(Rejected(PendingDecision)))
      && (c.pending.None? && c.over ==> r == Err(Rejected(GameOver)))
      && (r.Ok? ==>
            && RoundServed(c, if c.activeSlot >= 0 then c.activeSlot else 0, r.value.core, r.value.log)
            && RoundReported(c, r.value.core, r.value.log))
  {
    hide Slots, RoundServed, RoundReported;
    if AdvanceRound(c, n).Ok? {
      var start := if c.activeSlot >= 0 then c.activeSlot else 0;
      RoundServesEveryone(c, start, n);
      RoundsAreReported(c, start, n);
    }
  }

  /**
   * A decision is refused for the first of these reasons that applies: nothing is pending, the decision names no slot
   * (the source's index panic), it or the worm of its slot is frozen, the direction is no direction, it is not legal.
   */
  lemma DecisionsAreRefused(c: Core, n: nat, h: Heading)
    ensures var r := Submit(c, n, h);
      if c.pending.None? then r == Err(Rejected(PendingDecision))
      else
        var p := c.pending.value;
        if p.slot < 0 || p.slot >= |c.worms| then r == Err(Crash)
        else if p.frozen || c.worms[p.slot].frozen then r == Err(Rejected(FrozenUnknown))
        else if h.None? then r == Err(Rejected(InvalidDirection))
        else if h.value !in LegalMoves(c, c.worms[p.slot].id) then r == Err(Rejected(OccupiedSpoke))
        else UniqueIds(c.worms) && !c.over ==> Answer(c, h.value).Ok?
  {
    hide Slots, Move, MaskAt, Neighbor, LegalMoves, Taught;
    if c.pending.Some? && PendingInRange(c) && UniqueIds(c.worms) && !c.over && h.Some? {
      var id := c.worms[c.pending.value.slot].id;
      if h.value in LegalMoves(c, id) { LegalIsPlayed(c, h.value); }
    }
  }

  lemma LegalIsPlayed(c: Core, d: Direction)
    requires UniqueIds(c.worms) && !c.over && c.pending.Some? && PendingInRange(c)
    requires d in LegalMoves(c, c.worms[c.pending.value.slot].id)
    ensures Answer(c, d).Ok?
  {
    hide Move, Neighbor, LegalMoves;
    var p := c.pending.value;
    var id := c.worms[p.slot].id;
    TaughtShape(c, d);
    var taught := Taught(c, d);
    LegalIffSteppable(c, id, d);
    IndexOfSlot(c.worms, p.slot);
    IndexOfSlot(taught.worms, p.slot);
    assert HasWorm(taught, Neighbor(c.board, c.worms[p.slot].position, d))
      ==> HasWorm(c, Neighbor(c.board, c.worms[p.slot].position, d));
  }

  /**
   * An accepted decision is first reported as learned and used; the worm of its slot makes the move, holds the
   * direction at the decision's mask, and has used it once more; the later slots are then served as in any round.
   */
  lemma DecisionsArePlayed(c: Core, n: nat, h: Heading)
    requires UniqueIds(c.worms) && Submit(c, n, h).Ok?
    ensures c.pending.Some? && h.Some? && PendingInRange(c)
    ensures var p := c.pending.value; var w := c.worms[p.slot]; var r := Submit(c, n, h).value;
      var count := ((if p.mask in w.uses then w.uses[p.mask] else 0) + 1) % 4294967296;
      && !p.frozen && !w.frozen && |r.log| > 2 && |r.core.worms| == |c.worms|
      && r.log[0] == Draft(c.tick, c.round, RuleLearned(w.id, p.slot, p.mask, Go(h.value), "new"))
      && r.log[1] == Draft(c.tick, c.round, RuleUsed(w.id, p.slot, p.mask, Go(h.value), count))
      && (forall j :: 0 <= j < p.slot ==> r.core.worms[j] == c.worms[j])
      && var w' := r.core.worms[p.slot];
      && w'.rules == w.rules[p.mask := Go(h.value)] && w'.uses == w.uses[p.mask := count]
      && w'.previous == h && w'.position == Neighbor(c.board, w.position, h.value)
      && UsesOf(r.log, p.slot) == 1 && RoundReported(c, r.core, r.log)
  {
    hide Slots, LegalMoves, Step, UsesOf, RoundReported, RoundServed, Taught;
    var p := c.pending.value;
    AnswerPlays(c, h.value);
    var a := Answer(c, h.value).value;
    RoundServesEveryone(a.core, p.slot + 1, n + |a.log|);
    RoundsAreReported(a.core, p.slot + 1, n + |a.log|);
    var rest := Slots(a.core, p.slot + 1, n + |a.log|).value;
    LaterSlotsOnly(a.core, p.slot + 1, rest.core, rest.log);
    UsesConcat(a.log, rest.log, p.slot);
    ReportedLater(c, a.core, rest.core, a.log, rest.log);
  }

  lemma LaterSlotsOnly(c: Core, slot: nat, c': Core, log: seq<Draft>)
    requires RoundServed(c, slot, c', log)
    ensures |c'.worms| == |c.worms| && forall j: nat :: j < slot && j < |c.worms| ==>
              c'.worms[j] == c.worms[j] && UsesOf(log, j) == 0
  {
    hide UsesOf;
  }

  lemma AnswerPlays(c: Core, d: Direction)
    requires UniqueIds(c.worms) && c.pending.Some? && PendingInRange(c) && Answer(c, d).Ok?
    ensures var p := c.pending.value; var w := c.worms[p.slot]; var r := Answer(c, d).value;
      var count := ((if p.mask in w.uses then w.uses[p.mask] else 0) + 1) % 4294967296;
      && UniqueIds(r.core.worms) && r.core.pending.None? && r.core.round == c.round && OnlySlot(c, p.slot, r.core)
      && |r.log| > 2
      && r.log[0] == Draft(c.tick, c.round, RuleLearned(w.id, p.slot, p.mask, Go(d), "new"))
      && r.log[1] == Draft(c.tick, c.round, RuleUsed(w.id, p.slot, p.mask, Go(d), count))
      && UsesOf(r.log, p.slot) == 1
      && var w' := r.core.worms[p.slot];
      && w'.rules == w.rules[p.mask := Go(d)] && w'.uses == w.uses[p.mask := count]
      && w'.previous == Some(d) && w'.position == Neighbor(c.board, w.position, d)
  {
    hide Move, MaskAt, Neighbor, NewEdge, InBounds, HasWorm, UsesOf, Taught;
    var p := c.pending.value;
    var taught := Taught(c, d);
    TaughtShape(c, d);
    IndexOfSlot(taught.worms, p.slot);
    MoveDisplaces(taught, p.slot, d);
    MoveReports(taught, p.slot, d);
    AnswerUses(c, d, Move(taught, p.slot, d).log);
  }

  lemma TaughtShape(c: Core, d: Direction)
    requires UniqueIds(c.worms) && c.pending.Some? && PendingInRange(c)
    ensures var p := c.pending.value; var w := c.worms[p.slot]; var taught := Taught(c, d);
      var count := ((if p.mask in w.uses then w.uses[p.mask] else 0) + 1) % 4294967296;
      && taught == c.(worms := taught.worms, pending := None, activeSlot := p.slot + 1)
      && UniqueIds(taught.worms) && OnlySlot(c, p.slot, taught)
      && taught.worms[p.slot] == w.(rules := w.rules[p.mask := Go(d)], uses := w.uses[p.mask := count])
      && UseEvent(taught, p.slot, p.mask, Go(d)) == Draft(c.tick, c.round, RuleUsed(w.id, p.slot, p.mask, Go(d), count))
  {
  }

  lemma {:induction false} AnswerUses(c: Core, d: Direction, log: seq<Draft>)
    requires c.pending.Some? && PendingInRange(c)
    requires forall j :: 0 <= j < |log| ==> !log[j].body.RuleUsed?
    ensures var p := c.pending.value;
      UsesOf([Emit(c, RuleLearned(c.worms[p.slot].id, p.slot, p.mask, Go(d), "new")),
              UseEvent(Taught(c, d), p.slot, p.mask, Go(d))] + log, p.slot) == 1
  {
    hide UsesOf;
    var p := c.pending.value;
    OneUse([Emit(c, RuleLearned(c.worms[p.slot].id, p.slot, p.mask, Go(d), "new")),
            UseEvent(Taught(c, d), p.slot, p.mask, Go(d))] + log, 1, p.slot, p.slot);
  }
}
