/** Replay from any start: a pending decision that does not name the worm of its slot can be left standing. */
module StrandedDecision {
  import opened Geometry
  import opened Engine
  import opened Rounds
  import opened Frames
  import opened Progress
  import opened EventLog
  import opened EventSourcing
  import opened Wrappers

  // ----- what a replay does with a pending decision

  /** The event takes the pending decision q away, or puts another in its place. */
  predicate Resolves(q: Decision, e: Draft) {
    e.body.DecisionPending? || (e.body.RuleLearned? && e.body.worm == q.worm && e.body.mask == q.mask)
  }

  /** The end of a round comes before any event that resolves q: the replay refuses it. */
  predicate Stranded(q: Option<Decision>, log: seq<Draft>) {
    q.Some? && log != [] && !Resolves(q.value, log[0]) && (log[0].body.RoundCompleted? || Stranded(q, log[1..]))
  }

  lemma {:induction false} PlainStrandsNothing(q: Option<Decision>, log: seq<Draft>)
    requires Plain(log)
    ensures !Stranded(q, log)
  {
    if log == [] {
    } else {
      PlainStrandsNothing(q, log[1..]);
    }
  }

  /** The states differ at most in the controller's own fields. */
  ghost predicate SameBoard(a: Core, b: Core) {
    b == a.(activeSlot := b.activeSlot, pending := b.pending)
  }

  ghost predicate SameFields(a: Core, b: Core) {
    b.activeSlot == a.activeSlot && b.pending == a.pending
  }

  lemma DirectionAlike(a: Core, b: Core, worm: Id, from: Point, to: Point, edge: Edge)
    requires SameBoard(a, b)
    ensures RecordedDirection(b, worm, from, to, edge) == RecordedDirection(a, worm, from, to, edge)
  {
    hide FirstDirection, WormIndex;
  }

  lemma TrailEvent(a: Core, b: Core, e: Draft)
    requires SameBoard(a, b) && e.body.TrailClaimed? && Apply(a, e).Ok?
    ensures Apply(b, e).Ok? && SameBoard(Apply(a, e).value, Apply(b, e).value)
    ensures SameFields(a, Apply(a, e).value) && SameFields(b, Apply(b, e).value)
  {
    hide ApplyBody, NewEdge;
  }

  /** A plain event reads and writes neither field. */
  lemma PlainEvent(a: Core, b: Core, e: Draft)
    requires SameBoard(a, b) && Plain([e]) && Apply(a, e).Ok?
    ensures Apply(b, e).Ok? && SameBoard(Apply(a, e).value, Apply(b, e).value)
    ensures SameFields(a, Apply(a, e).value) && SameFields(b, Apply(b, e).value)
  {
    hide RecordedDirection, FirstDirection, WormIndex, CellAt, NewEdge;
    assert [e][0] == e;
    match e.body
    case TrailClaimed(_, _, _, _, _, _) => TrailEvent(a, b, e);
    case WormMoved(worm, from, to, edge, _) => DirectionAlike(a, b, worm, from, to, edge);
    case _ =>
  }

  /** A stall replaces whatever decision was pending. */
  lemma StallEvent(a: Core, b: Core, e: Draft)
    requires SameBoard(a, b) && e.body.DecisionPending? && Apply(a, e).Ok?
    ensures Apply(b, e) == Apply(a, e)
  {
    hide WormIndex;
  }

  /** The end of a round is refused while a decision is pending. */
  lemma RoundEvent(a: Core, b: Core, e: Draft)
    requires SameBoard(a, b) && e.body.RoundCompleted? && Apply(a, e).Ok?
    ensures if b.pending.None? then Apply(b, e) == Apply(a, e) else Apply(b, e).Err?
  {
  }

  /** A learned rule resolves the decision it matches and no other. */
  lemma LearnedEvent(a: Core, b: Core, e: Draft)
    requires SameBoard(a, b) && e.body.RuleLearned? && Apply(a, e).Ok?
    ensures Apply(b, e).Ok? && SameBoard(Apply(a, e).value, Apply(b, e).value)
    ensures Apply(b, e).value.pending
            == if b.pending.Some? && Resolves(b.pending.value, e) then None else b.pending
  {
    hide WormIndex;
  }

  /** If the replay from a succeeds, the one from b fails exactly if b's pending decision is stranded. */
  lemma {:induction false} LogFrame(a: Core, b: Core, log: seq<Draft>)
    requires SameBoard(a, b) && ApplyAll(a, log).Ok?
    ensures Stranded(b.pending, log) <==> ApplyAll(b, log).Err?
    ensures ApplyAll(b, log).Ok? && Anchored(log) ==> ApplyAll(b, log) == ApplyAll(a, log)
    ensures Plain(log) ==> ApplyAll(b, log).Ok? && SameBoard(ApplyAll(a, log).value, ApplyAll(b, log).value)
    ensures Plain(log) ==> SameFields(b, ApplyAll(b, log).value)
    decreases |log|
  {
    hide Apply, SameBoard;
    if log == [] {
      BothAlike(a, b);
    } else {
      var e := log[0];
      assert log == [e] + log[1..];
      if e.body.DecisionPending? {
        StallEvent(a, b, e);
      } else if e.body.RoundCompleted? {
        RoundEvent(a, b, e);
      } else if e.body.RuleLearned? {
        LearnedEvent(a, b, e);
      } else {
        PlainEvent(a, b, e);
      }
      if Apply(b, e).Ok? {
        var a', b' := Apply(a, e).value, Apply(b, e).value;
        if a' == b' { BothAlike(a', b'); }
        LogFrame(a', b', log[1..]);
      }
    }
  }

  lemma BothAlike(a: Core, b: Core)
    ensures a == b ==> SameBoard(a, b)
  {
  }

  // ----- runs do not read whom the decision names

  /** The pending decision with the name of the worm in its slot. */
  ghost function Renamed(c: Core): (p: Option<Decision>)
    ensures PendingNamed(c.(pending := p))
  {
    if c.pending.Some? && PendingInRange(c)
    then Some(c.pending.value.(worm := c.worms[c.pending.value.slot].id))
    else None
  }

  ghost function WithName(g: Game): Game {
    Game(g.core.(pending := Renamed(g.core)), g.events)
  }

  lemma StepKeepsPending(c: Core, p: Option<Decision>, id: Id, h: Heading)
    requires Step(c, id, h).Ok?
    ensures var r := Step(c, id, h).value;
      && Step(c.(pending := p), id, h) == Ok(Done(r.core.(pending := p), r.log))
      && r.core.pending == c.pending
  {
    hide Step;
    var cp := c.(pending := p);
    StepView(c, cp, id, h);
    StepKeepsTables(c, id, h);
    StepKeepsTables(cp, id, h);
    StepPending(c, id, h);
    StepPending(cp, id, h);
    var d, d' := Step(c, id, h).value.core, Step(cp, id, h).value.core;
    forall j | 0 <= j < |d.worms| ensures d'.worms[j] == d.worms[j] {
      assert Alike(d.worms[j], d'.worms[j]);
      assert SameTables(c.worms[j], d.worms[j]) && SameTables(cp.worms[j], d'.worms[j]);
    }
    assert d'.worms == d.worms;
  }

  lemma SubmitIgnoresName(c: Core, n: nat, h: Heading)
    requires c.pending.Some? && Submit(c, n, h).Ok?
    ensures Submit(c.(pending := Renamed(c)), n, h) == Submit(c, n, h)
  {
    hide Slots, Step, LegalMoves, Taught;
    var named := c.(pending := Renamed(c));
    PendingIsNotRead(c, Renamed(c), c.worms[c.pending.value.slot].id);
    assert Taught(named, h.value) == Taught(c, h.value) by { TaughtIgnoresName(c, h.value); }
  }

  lemma TaughtIgnoresName(c: Core, d: Direction)
    requires c.pending.Some? && PendingInRange(c)
    ensures Taught(c.(pending := Renamed(c)), d) == Taught(c, d)
  {
  }

  /** With its decision renamed a run does the same; the name outlives only moves. */
  lemma {:induction false} RunIgnoresName(g: Game, ops: seq<Op>)
    requires g.core.pending.Some? && Run(g, ops).Ok?
    ensures Run(WithName(g), ops).Ok?
    ensures var r, named := Run(g, ops).value, Run(WithName(g), ops).value;
      if OnlySteps(ops)
      then named == Game(r.core.(pending := Renamed(g.core)), r.events) && r.core.pending == g.core.pending
      else named == r
    decreases |ops|
  {
    hide Step, Submit, Stamp;
    if ops == [] {
    } else {
      match ops[0]
      case OpStep(id, h) =>
        var r := Step(g.core, id, h).value;
        StepKeepsPending(g.core, Renamed(g.core), id, h);
        StepPending(g.core, id, h);
        assert Renamed(r.core) == Renamed(g.core);
        assert WithName(Append(g, r)) == Append(WithName(g), Done(r.core.(pending := Renamed(g.core)), r.log));
        RunIgnoresName(Append(g, r), ops[1..]);
      case OpCall(CallSubmit(h)) => SubmitIgnoresName(g.core, |g.events|, h);
      case OpCall(CallAdvance) => assert false;
    }
  }

  // ----- the exact condition

  /**
   * Event sourcing, for every start with masks in sync and every run of moves, rounds and decisions: replaying the
   * emitted events gives exactly the final state, log included, if and only if no trail of the log begins or ends at a
   * cell that had an owner at the start and the log does not strand a decision that was pending then. Both can be read
   * off the start and the log before anything is replayed.
   */
  lemma ReplayIsExact(g: Game, ops: seq<Op>)
    requires Placed(g.core) && Run(g, ops).Ok?
    ensures var g' := Run(g, ops).value; var emitted := Emitted(g, g');
      && g.events <= g'.events
      && (Replay(g, emitted) == Ok(g')
          <==> Spares(g.core.territories, Drafts(emitted)) && !Stranded(g.core.pending, Drafts(emitted)))
  {
    hide Placed, PendingNamed, Run, Replay, Rebuilds, Mixed, Plain, Anchored, Spares, Faithful, Renamed;
    if g.core.pending.None? {
      NothingPending(g.core);
      NamedReplayIsExact(g, ops);
    } else {
      var g0, g' := WithName(g), Run(g, ops).value;
      RunIgnoresName(g, ops);
      NamedIsReplayable(g.core);
      var log := RunLog(g0, ops);
      RenamedRebuilds(g, ops, log);
      DraftsOfStamp(|g.events|, log);
      assert Emitted(g, g') == Stamp(|g.events|, log);
      assert g' == Game(g'.core, g.events + Stamp(|g.events|, log));
      if log == [] {
        NothingIsPlain();
        assert g'.core == g'.core.(pending := Renamed(g.core)).(pending := g.core.pending) == g.core;
      }
      ReplayAppliesLog(g, log, g'.core);
    }
  }

  lemma NamedIsReplayable(c: Core)
    requires Placed(c)
    ensures Replayable(c.(pending := Renamed(c)))
  {
    hide Placed;
    assert SameLedger(c, c.(pending := Renamed(c)));
    PlacedFrame(c, c.(pending := Renamed(c)));
  }

  lemma RenamedRebuilds(g: Game, ops: seq<Op>, log: seq<Draft>)
    requires g.core.pending.Some? && Run(g, ops).Ok? && Run(WithName(g), ops).Ok?
    requires Faithful(WithName(g).core, log, Run(WithName(g), ops).value.core)
    requires if OnlySteps(ops) then Plain(log) else Anchored(log)
    ensures Rebuilds(g.core, log, Run(g, ops).value.core) <==>
              Spares(g.core.territories, log) && !Stranded(g.core.pending, log)
  {
    hide Run, Plain, Anchored, Placed, Grown, Quiet, Drawing, Spares, OwnersKept, Renamed, Stranded, Rebuilds;
    var c, c0 := g.core, WithName(g).core;
    var c', c0' := Run(g, ops).value.core, Run(WithName(g), ops).value.core;
    RunIgnoresName(g, ops);
    assert c'.territories == c0'.territories;
    FaithfulExactly(c0, log, c0');
    if Rebuilds(c, log, c') {
      QuietKeepsOwners(c, log, c');
    }
    if OwnersKept(c.territories, c'.territories) {
      assert SameBoard(c0, c) && SameBoard(c0, c0);
      RebuildsAlike(c0, c, log, c0', c');
    }
  }

  /** The replays of one log from two starts that differ in the controller's fields. */
  lemma RebuildsAlike(a: Core, b: Core, log: seq<Draft>, a': Core, b': Core)
    requires SameBoard(a, b) && Rebuilds(a, log, a')
    requires || (Anchored(log) && b' == a')
             || (Plain(log) && SameBoard(a', b') && b'.pending == b.pending
                 && b'.activeSlot == a'.activeSlot && b.activeSlot == a.activeSlot)
    ensures Rebuilds(b, log, b') <==> !Stranded(b.pending, log)
  {
    hide Plain, Anchored, Stranded, ApplyAll;
    LogFrame(a, b, log);
    LogFrame(a, a, log);
  }
}
