/** Replay and the engine's own validation: two kinds of state pass the one and defeat the other. */
module InexactReplay {
  import opened Geometry
  import opened HalfEdges
  import opened Engine
  import opened Ledger
  import opened Rounds
  import opened Progress
  import opened EventLog
  import opened EventSourcing
  import opened StrandedDecision
  import opened StartPositions
  import opened StateValidation
  import opened Wrappers

  /** A state that passes `Validate`, with its cached masks in sync, on a board where neighbours differ. */
  ghost predicate ValidStart(c: Core) {
    && Valid(c) && MasksInSync(c)
    && (c.board.topology == Toroidal ==> c.board.width >= 3 && c.board.height >= 3)
  }

  /** Every such state is a start to which `ReplayIsExact` applies. */
  lemma ValidStartIsPlaced(c: Core)
    requires ValidStart(c)
    ensures Placed(c)
  {
    hide MasksInSync, ValidCells, AllReciprocal, TableAccepted, LiveApart;
    forall e | e in c.trails ensures OnBoard(c.board, e) { SeenMeansOnBoard(c.board, e); }
  }

  /** It satisfies the whole ledger invariant exactly if no unfinished cell has an owner and its worms are seated. */
  lemma ValidStartIsSound(c: Core)
    requires ValidStart(c)
    ensures Sound(c) <==> UnfinishedUnowned(c)
  {
    hide Valid, Sound, MasksInSync;
    if UnfinishedUnowned(c) {
      ValidMeansSound(c);
    }
    if Sound(c) {
      OwnedMeansFull(c);
    }
  }

  lemma OwnedMeansFull(c: Core)
    requires Sound(c)
    ensures UnfinishedUnowned(c)
  {
  }

  // ----- an owner on an unfinished cell

  /** A new historical game in which the worm already owns the cell it stands on. */
  ghost function OwnedCentre(): Core {
    var c := FreshCore(HISTORICAL, [LONER]);
    c.(territories := c.territories[CENTRE := Territory({}, NOBODY, LONER.id)])
  }

  lemma OwnedCentreIsValid()
    ensures ValidStart(OwnedCentre()) && OwnedCentre().pending.None?
    ensures !UnfinishedUnowned(OwnedCentre()) && CanMove(OwnedCentre(), 0, West)
  {
    hide ValidWorms, ValidCells, MasksInSync, CanMove, NewWorm;
    OwnedCentreSeats();
    OwnedCentreMasks();
    OwnedCentreCounts();
  }

  lemma OwnedCentreSeats()
    ensures ValidWorms(OwnedCentre()) && CanMove(OwnedCentre(), 0, West)
  {
    assert LONER.id != NOBODY by { assert |LONER.id.text| == 6; }
    NewWormsAreSeated([LONER], [CENTRE]);
    assert MaskAt(OwnedCentre(), CENTRE) == {};
    assert Neighbor(HISTORICAL, CENTRE, West) == Point(8, 9);
  }

  lemma OwnedCentreMasks()
    ensures MasksInSync(OwnedCentre()) && !UnfinishedUnowned(OwnedCentre())
  {
    var c := OwnedCentre();
    CellsAreInBounds(HISTORICAL, CENTRE);
    assert c.territories.Keys == Cells(HISTORICAL);
    forall p ensures SpokeMask(c, p) == {} {}
    CentreIsOwned();
    assert CENTRE in c.territories && c.territories[CENTRE].mask == {} && East in FULL;
  }

  lemma OwnedCentreCounts()
    ensures ValidCells(OwnedCentre())
  {
    var c := OwnedCentre();
    assert East in FULL;
    forall id ensures CompleteCells(c.territories, id) == {} {}
  }

  /**
   * A valid start with masks in sync whose replay is not exact: after one move to the West the replayed state has the
   * old mask at the centre.
   */
  lemma OwnedCentreIsNotReplayed(events: seq<Event>)
    ensures var g := Game(OwnedCentre(), events); var ops := [OpStep(LONER.id, Some(West))];
      && ValidStart(g.core) && Run(g, ops).Ok?
      && Replay(g, Emitted(g, Run(g, ops).value)) != Ok(Run(g, ops).value)
  {
    hide ValidStart, Placed, Move, Replay, Spares, CanMove, OwnedCentre, Neighbor, Drafts, Stamp;
    var c := OwnedCentre();
    var g := Game(c, events);
    var ops := [OpStep(LONER.id, Some(West))];
    OwnedCentreIsValid();
    ValidStartIsPlaced(c);
    WestIsAccepted();
    assert ops[1..] == [];
    var g' := Append(g, Done(Move(c, 0, West).core, Move(c, 0, West).log));
    assert Run(g, ops) == Ok(g') by {
      assert Run(g', ops[1..]) == Ok(g');
    }
    ReplayIsExact(g, ops);
    DraftsOfStamp(|events|, Move(c, 0, West).log);
    assert Emitted(g, g') == Stamp(|events|, Move(c, 0, West).log);
    CentreIsOwned();
    if Spares(c.territories, Move(c, 0, West).log) {
      SparedMove(c, 0, West);
    }
  }

  lemma SparedMove(c: Core, i: nat, d: Direction)
    requires Placed(c) && CanMove(c, i, d) && Spares(c.territories, Move(c, i, d).log)
    ensures CellAt(c.territories, c.worms[i].position).owner == NOBODY
  {
    hide Move, Placed, Neighbor, Faithful, Spares;
    MoveFaithful(c, i, d);
    FaithfulExactly(c, Move(c, i, d).log, Move(c, i, d).core);
    MoveRebuildsExactly(c, i, d);
  }

  lemma CentreIsOwned()
    ensures OwnedCentre().worms == [LONER] && CellAt(OwnedCentre().territories, CENTRE).owner != NOBODY
  {
    assert LONER.id != NOBODY by { assert |LONER.id.text| == 6; }
  }

  lemma WestIsAccepted()
    ensures var c := OwnedCentre(); Step(c, LONER.id, Some(West)) == Ok(Move(c, 0, West))
  {
    hide Move;
    var c := OwnedCentre();
    assert MaskAt(c, CENTRE) == {};
    assert Neighbor(HISTORICAL, CENTRE, West) == Point(8, 9);
  }

  // ----- a decision that does not name the worm of its slot

  lemma {:induction false} PlainPrefix(q: Option<Decision>, a: seq<Draft>, b: seq<Draft>)
    requires Plain(a)
    ensures Stranded(q, a + b) <==> Stranded(q, b)
  {
    if a == [] {
      assert a + b == b;
    } else {
      assert (a + b)[0] == a[0] && (a + b)[1..] == a[1..] + b;
      PlainPrefix(q, a[1..], b);
    }
  }

  /** A decision pending in the last slot is stranded by its own answer exactly if it names another worm. */
  lemma LastSlotStrands(c: Core, n: nat, h: Heading)
    requires Placed(c) && c.pending.Some? && c.pending.value.slot == |c.worms| - 1 && Submit(c, n, h).Ok?
    ensures Stranded(c.pending, Submit(c, n, h).value.log) <==> !PendingNamed(c)
  {
    hide Placed, Step, LegalMoves, Taught, UseEvent, Plain;
    var p := c.pending.value;
    var id := c.worms[p.slot].id;
    var taught := Taught(c, h.value);
    var learned, used := Emit(c, RuleLearned(id, p.slot, p.mask, Go(h.value), "new")), UsedEvent(c, h.value);
    TaughtStaysPlaced(c, h.value);
    var r := Step(taught, id, h).value;
    StepIsPlain(taught, id, h);
    var ending := Finish(r.core).log;
    var log := Submit(c, n, h).value.log;
    assert log == [learned] + (([used] + r.log) + ending);
    UsedIsPlain(c, h.value);
    AnchoredConcat([used], r.log);
    PlainPrefix(c.pending, [used] + r.log, ending);
    assert log[0] == learned && log[1..] == ([used] + r.log) + ending;
    assert Stranded(c.pending, ending) by { assert ending[0].body.RoundCompleted?; }
  }

  ghost function UsedEvent(c: Core, d: Direction): Draft
    requires c.pending.Some? && PendingInRange(c)
  {
    UseEvent(Taught(c, d), c.pending.value.slot, c.pending.value.mask, Go(d))
  }

  lemma UsedIsPlain(c: Core, d: Direction)
    requires c.pending.Some? && PendingInRange(c)
    ensures Plain([UsedEvent(c, d)])
  {
  }

  lemma TaughtStaysPlaced(c: Core, d: Direction)
    requires Placed(c) && c.pending.Some? && PendingInRange(c)
    ensures Placed(Taught(c, d))
  {
    hide Placed;
    assert SameLedger(c, Taught(c, d));
    PlacedFrame(c, Taught(c, d));
  }

  /** A new historical game that waits for its only worm's decision, but under the name of another. */
  ghost function Misnamed(): Core {
    FreshCore(HISTORICAL, [LONER]).(pending := Some(Decision(Name("other"), {}, 0, 1, UNKNOWN_PATTERN, false)))
  }

  lemma MisnamedIsValid()
    ensures ValidStart(Misnamed()) && UnfinishedUnowned(Misnamed()) && !PendingNamed(Misnamed())
  {
    hide Valid, MasksInSync, NewWorm, TableAccepted;
    LonerFacts();
    FreshIsSound(HISTORICAL, [LONER]);
    NewWormsAreSeated([LONER], [CENTRE]);
    PendingKeepsSound(FreshCore(HISTORICAL, [LONER]), Misnamed().pending);
    SoundIsInSync(Misnamed());
    LonerTable();
    ValidMeansSound(Misnamed());
  }

  lemma LonerFacts()
    ensures LONER.id != NOBODY && LONER.id != Name("other") && LONER.score == 0 && LONER.alive && !LONER.frozen
    ensures LONER.position == CENTRE && InBounds(HISTORICAL, CENTRE)
  {
    assert |LONER.id.text| == 6;
  }

  lemma LonerTable()
    ensures TableAccepted(LONER)
  {
  }

  lemma PendingKeepsSound(c: Core, p: Option<Decision>)
    requires Sound(c)
    ensures Sound(c.(pending := p))
  {
  }

  /** On an empty board the worm at the centre can go West. */
  lemma WestFromCentre(c: Core)
    requires c.board == HISTORICAL && c.trails == map[] && c.territories == EmptyCells(HISTORICAL) && !c.over
    requires |c.worms| == 1 && c.worms[0].id == LONER.id && c.worms[0].alive && c.worms[0].position == CENTRE
    ensures Step(c, LONER.id, Some(West)).Ok? && West in LegalMoves(c, LONER.id)
  {
    hide Move, NewWorm;
    assert WormIndex(c.worms, LONER.id) == 0;
    assert MaskAt(c, CENTRE) == {};
    assert Neighbor(HISTORICAL, CENTRE, West) == Point(8, 9);
    EveryDirection(West);
  }

  lemma MisnamedIsAnswered(n: nat)
    ensures Submit(Misnamed(), n, Some(West)).Ok?
  {
    hide Step, LegalMoves, NewWorm, EmptyCells;
    LonerFacts();
    WestFromCentre(Misnamed());
    WestFromCentre(Taught(Misnamed(), West));
  }

  /** A valid start with masks in sync and no owners at all whose replay is not exact: the answer is never replayed. */
  lemma MisnamedIsNotReplayed(events: seq<Event>)
    ensures var g := Game(Misnamed(), events); var ops := [OpCall(CallSubmit(Some(West)))];
      && ValidStart(g.core) && Run(g, ops).Ok?
      && Replay(g, Emitted(g, Run(g, ops).value)) != Ok(Run(g, ops).value)
  {
    hide ValidStart, Placed, Replay, Spares, Misnamed, Submit, Stranded, PendingNamed, UnfinishedUnowned;
    var c := Misnamed();
    var g := Game(c, events);
    var ops := [OpCall(CallSubmit(Some(West)))];
    MisnamedIsValid();
    ValidStartIsPlaced(c);
    MisnamedIsAnswered(|events|);
    var r := Submit(c, |events|, Some(West)).value;
    assert ops[1..] == [];
    assert Run(g, ops) == Ok(Append(g, r)) by { assert Run(Append(g, r), ops[1..]) == Ok(Append(g, r)); }
    ReplayIsExact(g, ops);
    OneSlot();
    LastSlotStrands(c, |events|, Some(West));
    DraftsOfStamp(|events|, r.log);
    assert Emitted(g, Append(g, r)) == Stamp(|events|, r.log);
  }

  lemma OneSlot()
    ensures Misnamed().pending.Some? && Misnamed().pending.value.slot == |Misnamed().worms| - 1
  {
  }
}
