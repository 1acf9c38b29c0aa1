/**
 * Games end: rounds never fail under valid rule tables, every call uses up a measure, and only a frozen decision
 * stalls.
 */
module Progress {
  import opened Geometry
  import opened HalfEdges
  import opened Engine
  import opened Ledger
  import opened Rounds
  import opened AutoChoice
  import opened Frames
  import opened Wrappers

  datatype Call = CallAdvance | CallSubmit(h: Heading)

  ghost function Exec(c: Core, n: nat, call: Call): Outcome<Done> {
    match call
    case CallAdvance => AdvanceRound(c, n)
    case CallSubmit(h) => Submit(c, n, h)
  }

  /** The three entry points that change a game. */
  datatype Op = OpStep(id: Id, h: Heading) | OpCall(call: Call)

  ghost function Perform(c: Core, n: nat, op: Op): Outcome<Done> {
    match op
    case OpStep(id, h) => Step(c, id, h)
    case OpCall(call) => Exec(c, n, call)
  }

  /** A state that `AdvanceRound` or `Submit` has left behind: the round closed, or stalled on a matching decision. */
  ghost predicate BetweenCalls(c: Core) {
    && (c.pending.None? ==> c.activeSlot == -1)
    && (c.pending.Some? ==> PendingMatches(c) && !c.over)
  }

  /** A round that begins after the first slot may close without serving anyone, but only once. */
  ghost function Late(c: Core): int {
    if c.pending.None? && c.activeSlot > 0 then 1 else 0
  }

  ghost function Measure(c: Core): int {
    3 * Work(c) + (if c.over then 0 else 1) + (if c.pending.None? then 1 else 0) + Late(c)
  }

  /** Completed rounds so far and work left; only the round that ends the game may leave it unchanged. */
  ghost function Budget(c: Core): int {
    c.round + Work(c) + (if c.over then 0 else 1) + Late(c)
  }

  lemma WorkIsNatural(c: Core)
    requires Grounded(c)
    ensures Work(c) >= 0
  {
    EdgeBound(c.board, c.trails.Keys);
    assert |c.trails| == |c.trails.Keys|;
  }

  // ----- every operation lowers the measure

  ghost predicate Lowers(c: Core, c': Core) {
    Later(c, c') && Measure(c') < Measure(c) && Budget(c') <= Budget(c)
  }

  lemma AdvanceKeeps(c: Core, n: nat)
    requires AdvanceRound(c, n).Ok?
    ensures Lowers(c, AdvanceRound(c, n).value.core) && BetweenCalls(AdvanceRound(c, n).value.core)
  {
    hide Slots, Later, PendingMatches, Work;
    var start := if c.activeSlot >= 0 then c.activeSlot else 0;
    SlotsKeep(c, start, n);
    var c' := AdvanceRound(c, n).value.core;
    LaterWorks(c, c');
    if start == 0 && !AliveFrom(c, 0) {
      assert AliveSlots(c'.worms) == {} by { NobodyWakes(c, c'); }
    }
  }

  lemma NobodyWakes(c: Core, c': Core)
    requires Later(c, c') && !AliveFrom(c, 0)
    ensures AliveSlots(c'.worms) == {}
  {
    hide LedgerKept, Work;
  }

  lemma TaughtIsLater(c: Core, d: Direction)
    requires c.pending.Some? && PendingInRange(c)
    ensures Later(c, Taught(c, d)) && Work(Taught(c, d)) == Work(c)
    ensures Taught(c, d).over == c.over && Taught(c, d).round == c.round && Taught(c, d).pending.None?
  {
    hide Later;
    FrameIsLater(c, Taught(c, d));
    assert AliveSlots(Taught(c, d).worms) == AliveSlots(c.worms);
  }

  lemma AnswerKeeps(c: Core, d: Direction)
    requires c.pending.Some? && PendingInRange(c) && Answer(c, d).Ok?
    ensures var c' := Answer(c, d).value.core;
      Later(c, c') && Work(c') < Work(c) && !c.over && !c'.over && c'.round == c.round && c'.pending.None?
  {
    hide Work, Later, Taught, Move;
    var id := c.worms[c.pending.value.slot].id;
    TaughtIsLater(c, d);
    StepIsLater(Taught(c, d), id, Some(d));
    LaterTransitive(c, Taught(c, d), Answer(c, d).value.core);
  }

  lemma SubmitKeeps(c: Core, n: nat, h: Heading)
    requires Submit(c, n, h).Ok?
    ensures Lowers(c, Submit(c, n, h).value.core) && BetweenCalls(Submit(c, n, h).value.core)
  {
    hide Slots, PendingMatches, Work, Answer, Later, LegalMoves;
    AnswerKeeps(c, h.value);
    var answered := Answer(c, h.value).value;
    SlotsKeep(answered.core, c.pending.value.slot + 1, n + |answered.log|);
    AnsweredRound(c, answered.core, c.pending.value.slot + 1, Submit(c, n, h).value.core);
  }

  lemma AnsweredRound(c: Core, mid: Core, slot: nat, c': Core)
    requires c.pending.Some? && !c.over && !mid.over && mid.round == c.round
    requires Later(c, mid) && Work(mid) < Work(c) && RoundResult(mid, slot, c')
    ensures Lowers(c, c') && BetweenCalls(c')
  {
    hide Later, PendingMatches, AliveSlots, Work;
    LaterTransitive(c, mid, c');
    LaterWorks(mid, c');
  }

  lemma CallKeeps(c: Core, n: nat, call: Call)
    requires Exec(c, n, call).Ok?
    ensures Lowers(c, Exec(c, n, call).value.core) && BetweenCalls(Exec(c, n, call).value.core)
  {
    hide Lowers, BetweenCalls, AdvanceRound, Submit;
    match call
    case CallAdvance => AdvanceKeeps(c, n);
    case CallSubmit(h) => SubmitKeeps(c, n, h);
  }

  /** Whatever the start: every successful operation is a later state and lowers the measure. */
  lemma OpKeeps(c: Core, n: nat, op: Op)
    requires Perform(c, n, op).Ok?
    ensures Lowers(c, Perform(c, n, op).value.core)
    ensures op.OpCall? ==> BetweenCalls(Perform(c, n, op).value.core)
  {
    hide Step, Exec, BetweenCalls, Later, Work;
    match op
    case OpStep(id, h) => StepIsLater(c, id, h);
    case OpCall(call) => CallKeeps(c, n, call);
  }

  // ----- whole runs

  ghost function Play(c: Core, n: nat, ops: seq<Op>): Outcome<Done>
    decreases |ops|
  {
    if ops == [] then Ok(Done(c, []))
    else
      var r := Perform(c, n, ops[0]);
      if r.Err? then r else After(r.value.log, Play(r.value.core, n + |r.value.log|, ops[1..]))
  }

  /**
   * From any start and for any mix of moves, rounds and decisions: a run lowers the measure with every operation, so
   * from a start whose trails and worms are on a regular board it has at most `Measure` of them; its ticks, trails
   * and rounds stay within what the start allows; and from a sound start the whole ledger is kept (`Later`).
   */
  lemma {:induction false} RunIsBounded(c: Core, n: nat, ops: seq<Op>)
    requires Play(c, n, ops).Ok?
    ensures var c' := Play(c, n, ops).value.core;
      && Later(c, c')
      && |ops| <= Measure(c) - Measure(c') && (Grounded(c) ==> Measure(c') >= 0)
      && Budget(c') <= Budget(c) && (Grounded(c) ==> c'.round <= Budget(c))
      && (ops != [] && ops[|ops| - 1].OpCall? ==> BetweenCalls(c'))
    decreases |ops|
  {
    hide Perform, BetweenCalls, Work, Later, Grounded;
    if ops == [] {
      FrameIsLater(c, c);
      if Grounded(c) { WorkIsNatural(c); }
    } else {
      var r := Perform(c, n, ops[0]).value;
      OpKeeps(c, n, ops[0]);
      RunIsBounded(r.core, n + |r.log|, ops[1..]);
      LaterTransitive(c, r.core, Play(c, n, ops).value.core);
      if Grounded(c) { LaterStaysGrounded(c, r.core); }
    }
  }

  lemma LaterStaysGrounded(c: Core, c': Core)
    requires Later(c, c') && Grounded(c)
    ensures Grounded(c')
  {
  }

  /**
   * From a start whose tick counts its trails it does so ever after, and there are never more than 3·W·H of either;
   * on a sound start three of them have been spent on every point, and the spoke bits total twice the tick.
   */
  lemma TicksCountTrails(c: Core, n: nat, ops: seq<Op>)
    requires Grounded(c) && c.tick == |c.trails| && Play(c, n, ops).Ok?
    ensures var c' := Play(c, n, ops).value.core;
      && c'.tick == |c'.trails| <= 3 * (c.board.width * c.board.height)
      && c'.round <= Budget(c)
      && (Sound(c) ==>
            && Sound(c') && OwnersKept(c.territories, c'.territories)
            && 0 <= 3 * ScoreTotal(c'.worms) <= c'.tick
            && SpokeTotal(c', Cells(c.board)) == 2 * c'.tick)
  {
    hide Play, Sound, OwnersKept;
    RunIsBounded(c, n, ops);
    var c' := Play(c, n, ops).value.core;
    WorkIsNatural(c');
    EdgeBound(c'.board, c'.trails.Keys);
    assert |c'.trails| == |c'.trails.Keys|;
    if Sound(c) {
      SpokeBitsTotal(c');
      ScoresCostTrails(c');
    }
  }

  /** On a new board all of that holds, and rounds are at most 3·W·H, the live worms and one. */
  lemma FreshRun(c: Core, n: nat, ops: seq<Op>)
    requires Sound(c) && c.tick == 0 && c.trails == map[] && c.round == 0 && c.activeSlot <= 0 && Play(c, n, ops).Ok?
    ensures var c' := Play(c, n, ops).value.core;
      && c'.tick == |c'.trails| <= 3 * (c.board.width * c.board.height)
      && 0 <= 3 * ScoreTotal(c'.worms) <= c'.tick
      && c'.round <= 3 * (c.board.width * c.board.height) + |AliveSlots(c.worms)| + 1
      && SpokeTotal(c', Cells(c.board)) == 2 * c'.tick
  {
    hide Play, Sound, Grounded, ScoreTotal, SpokeTotal, OwnersKept;
    SoundIsGrounded(c);
    TicksCountTrails(c, n, ops);
  }

  // ----- totality on the historical torus

  ghost predicate ValidTables(ws: seq<Worm>) {
    forall i :: 0 <= i < |ws| ==> ValidRules(ws[i])
  }

  /**
   * A historical torus of any size, even or odd, and worms with their own names: no more is asked of caches or
   * owners.
   */
  ghost predicate Classic(c: Core) {
    && UniqueIds(c.worms) && c.board.mode == ClassicRules && c.board.topology == Toroidal
    && c.board.width >= 1 && c.board.height >= 1
  }

  /** Valid tables stay valid. */
  ghost predicate TablesKept(ws: seq<Worm>, ws': seq<Worm>) {
    |ws'| == |ws| && forall i :: 0 <= i < |ws| && ValidRules(ws[i]) ==> ValidRules(ws'[i])
  }

  /** The game goes on, still on its torus, with every valid table still valid. */
  ghost predicate GoesWell(c: Core, c': Core) {
    Classic(c') && !c'.over && TablesKept(c.worms, c'.worms)
  }

  lemma SameRulesStayValid(c: Core, c': Core)
    requires |c'.worms| == |c.worms| && forall i :: 0 <= i < |c.worms| ==> c'.worms[i].rules == c.worms[i].rules
    ensures TablesKept(c.worms, c'.worms)
  {
    forall i | 0 <= i < |c.worms| && ValidRules(c.worms[i]) ensures ValidRules(c'.worms[i]) {
      assert forall m: Mask :: RuleAt(c'.worms[i], m) == RuleAt(c.worms[i], m);
    }
  }

  lemma LaterStaysClassic(c: Core, c': Core)
    requires Classic(c) && c'.board == c.board && SameWorms(c.worms, c'.worms)
    ensures Classic(c')
  {
  }

  /** Teaching a free direction keeps a table valid even where the exit is forced: then it is that exit. */
  lemma TeachKeepsValid(w: Worm, m: Mask, d: Direction)
    requires ValidRules(w) && d !in m
    ensures ValidRules(w.(rules := w.rules[m := Go(d)]))
  {
    var w' := w.(rules := w.rules[m := Go(d)]);
    assert forall x: Mask :: RuleAt(w', x) == if x == m then Go(d) else RuleAt(w, x);
    forall e: Direction ensures RuleAt(w', FULL - {e}) == Go(e) {
      assert RuleAt(w, FULL - {e}) == Go(e);
      EveryDirection(d);
      assert m == FULL - {e} ==> d == e;
    }
  }

  /** A remembered direction that is free is always played. */
  lemma ActSucceeds(c: Core, slot: nat, d: Direction)
    requires Classic(c) && !c.over && slot < |c.worms| && c.worms[slot].alive
    requires d !in MaskAt(c, c.worms[slot].position)
    ensures var r := Act(c, slot, MaskAt(c, c.worms[slot].position), Go(d)); r.Continue? && GoesWell(c, r.core)
  {
    hide Move, ValidRules, Spokes;
    var counted := Count(c, slot, MaskAt(c, c.worms[slot].position));
    StepAccepts(counted, slot, d);
    MoveKeepsControl(counted, slot, d);
    var c' := Move(counted, slot, d).core;
    LaterStaysClassic(c, c');
    SameRulesStayValid(c, c');
  }

  lemma StepAccepts(c: Core, slot: nat, d: Direction)
    requires Classic(c) && !c.over && slot < |c.worms| && c.worms[slot].alive
    requires d !in MaskAt(c, c.worms[slot].position)
    ensures Step(c, c.worms[slot].id, Some(d)) == Ok(Move(c, slot, d))
  {
    hide Move;
    IndexOfSlot(c.worms, slot);
    NeighborStaysOnTorus(c.board, c.worms[slot].position, d);
    TrailIsSpoke(c, c.worms[slot].position, d);
  }

  lemma LearnKeepsTables(c: Core, slot: nat, m: Mask, d: Direction)
    requires slot < |c.worms| && d !in m
    ensures TablesKept(c.worms, Learn(c, slot, m, Go(d)).worms)
  {
    hide ValidRules;
    if ValidRules(c.worms[slot]) { TeachKeepsValid(c.worms[slot], m, d); }
  }

  lemma AutomaticSucceeds(c: Core, slot: nat, d: Direction)
    requires Classic(c) && !c.over && slot < |c.worms| && c.worms[slot].alive
    requires d !in MaskAt(c, c.worms[slot].position)
    ensures var r := Automatic(c, slot, MaskAt(c, c.worms[slot].position), Go(d)); r.Continue? && GoesWell(c, r.core)
  {
    hide ValidRules, Act;
    var m := MaskAt(c, c.worms[slot].position);
    if c.worms[slot].frozen {
      ActSucceeds(c, slot, d);
    } else {
      LearnKeepsTables(c, slot, m, d);
      ActSucceeds(Learn(c, slot, m, Go(d)), slot, d);
    }
  }

  lemma ObeySucceeds(c: Core, slot: nat, n: nat)
    requires Classic(c) && !c.over && slot < |c.worms| && c.worms[slot].alive && ValidRules(c.worms[slot])
    requires LegalMoves(c, c.worms[slot].id) != []
    ensures var m := MaskAt(c, c.worms[slot].position); var r := Obey(c, slot, m, RuleAt(c.worms[slot], m), n);
      !r.Fail? && GoesWell(c, r.core)
  {
    hide Act, Automatic, ChooseAuto, LegalMoves, GoesWell, MaskAt;
    var m := MaskAt(c, c.worms[slot].position);
    var a := RuleAt(c.worms[slot], m);
    match a
    case GetNew => SameTablesGoWell(c, AwaitDecision(c, slot, m, n).core);
    case DoAI =>
      IndexOfSlot(c.worms, slot);
      AutoIsOptimal(c, slot);
      LegalIsFree(c, slot, ChooseAuto(c, slot).value);
      AutomaticSucceeds(c, slot, ChooseAuto(c, slot).value);
    case Die => FallGoesWell(c, slot);
    case Go(d) => ActSucceeds(c, slot, d);
  }

  lemma SameTablesGoWell(c: Core, c': Core)
    requires Classic(c) && !c.over && c'.worms == c.worms && c'.board == c.board && !c'.over
    ensures GoesWell(c, c')
  {
    hide ValidRules;
  }

  lemma FallGoesWell(c: Core, slot: nat)
    requires Classic(c) && !c.over && slot < |c.worms|
    ensures GoesWell(c, Fall(c, slot))
  {
    hide ValidRules;
    SameRulesStayValid(c, Fall(c, slot));
  }

  lemma LegalIsFree(c: Core, slot: nat, d: Direction)
    requires slot < |c.worms| && WormIndex(c.worms, c.worms[slot].id) == slot && d in LegalMoves(c, c.worms[slot].id)
    ensures d !in MaskAt(c, c.worms[slot].position)
  {
  }

  lemma TurnSucceeds(c: Core, slot: nat, n: nat)
    requires Classic(c) && !c.over && slot < |c.worms| && ValidRules(c.worms[slot])
    ensures var r := TakeTurn(c, slot, n); !r.Fail? && GoesWell(c, r.core)
  {
    hide Obey, ValidRules, GoesWell;
    if c.worms[slot].alive {
      if LegalMoves(c, c.worms[slot].id) == [] {
        FallGoesWell(c, slot);
      } else {
        ObeySucceeds(c, slot, n);
      }
    } else {
      SameTablesGoWell(c, c);
    }
  }

  /** The tables of the slots still to be served decide whether the rest of a round succeeds. */
  lemma {:induction false} SlotsSucceed(c: Core, slot: nat, n: nat)
    requires Classic(c) && !c.over && forall i :: slot <= i < |c.worms| ==> ValidRules(c.worms[i])
    ensures var r := Slots(c, slot, n); r.Ok? && TablesKept(c.worms, r.value.core.worms)
    decreases |c.worms| - slot
  {
    hide TakeTurn, ValidRules;
    if slot < |c.worms| {
      var at := c.(activeSlot := slot);
      TurnSucceeds(at, slot, n);
      var r := TakeTurn(at, slot, n);
      if r.Continue? {
        SlotsSucceed(r.core, slot + 1, n + |r.log|);
      }
    }
  }

  /**
   * On a historical torus with valid tables a round never fails, and every table stays valid, whatever the caches,
   * owners, scores and active slot.
   */
  lemma AdvanceNeverFails(c: Core, n: nat)
    requires Classic(c) && ValidTables(c.worms) && c.pending.None? && !c.over
    ensures var r := AdvanceRound(c, n); r.Ok? && ValidTables(r.value.core.worms)
  {
    hide Slots, ValidRules;
    SlotsSucceed(c, if c.activeSlot >= 0 then c.activeSlot else 0, n);
  }

  /**
   * A submitted direction is accepted exactly when a decision is pending in one of the slots, the game goes on,
   * neither the decision nor the worm is frozen, and the direction is legal for that worm. The tables stay valid
   * exactly when the direction is free in the mask the decision was asked for.
   */
  lemma SubmitAcceptsExactly(c: Core, n: nat, h: Heading)
    requires Classic(c) && ValidTables(c.worms)
    ensures var r := Submit(c, n, h);
      && (r.Ok? <==> Answerable(c, h))
      && (r.Ok? ==> (ValidTables(r.value.core.worms) <==> h.value !in c.pending.value.mask))
  {
    hide LegalMoves, Slots, ValidRules, Step;
    if Answerable(c, h) {
      var p := c.pending.value;
      AnswerSucceeds(c, h.value);
      var answered := Answer(c, h.value).value;
      forall i | p.slot < i < |c.worms| ensures ValidRules(answered.core.worms[i]) {
        SameTableSame(c.worms[i], answered.core.worms[i]);
      }
      SlotsSucceed(answered.core, p.slot + 1, n + |answered.log|);
      SlotsKeepEarlier(answered.core, p.slot + 1, n + |answered.log|);
      var c' := Submit(c, n, h).value.core;
      TaughtTables(c, answered.core, c', h.value);
    } else if Submit(c, n, h).Ok? {
      AnswerKeeps(c, h.value);
    }
  }

  /** What a caller can check before it submits a decision. */
  ghost predicate Answerable(c: Core, h: Heading) {
    && c.pending.Some? && PendingInRange(c) && !c.over && h.Some?
    && var p := c.pending.value; var w := c.worms[p.slot];
    !p.frozen && !w.frozen && h.value in LegalMoves(c, w.id)
  }

  lemma AnswerSucceeds(c: Core, d: Direction)
    requires Classic(c) && Answerable(c, Some(d))
    ensures var r := Answer(c, d);
      && r.Ok? && Classic(r.value.core) && !r.value.core.over
      && forall j :: 0 <= j < |c.worms| ==> r.value.core.worms[j].rules == Taught(c, d).worms[j].rules
  {
    hide Step, Move, LegalMoves, MaskAt;
    var slot := c.pending.value.slot;
    var taught := Taught(c, d);
    IndexOfSlot(c.worms, slot);
    LegalIsFree(c, slot, d);
    assert MaskAt(taught, taught.worms[slot].position) == MaskAt(c, c.worms[slot].position) by { TaughtMask(c, d); }
    assert c.worms[slot].alive by { OnlyLiveMove(c, slot); }
    StepAccepts(taught, slot, d);
    MoveKeepsControl(taught, slot, d);
    LaterStaysClassic(taught, Move(taught, slot, d).core);
  }

  lemma TaughtMask(c: Core, d: Direction)
    requires c.pending.Some? && PendingInRange(c)
    ensures var p := c.worms[c.pending.value.slot].position;
      MaskAt(Taught(c, d), Taught(c, d).worms[c.pending.value.slot].position) == MaskAt(c, p)
  {
  }

  lemma OnlyLiveMove(c: Core, slot: nat)
    requires UniqueIds(c.worms) && slot < |c.worms| && LegalMoves(c, c.worms[slot].id) != []
    ensures c.worms[slot].alive
  {
    IndexOfSlot(c.worms, slot);
  }

  /** A round leaves the tables of the slots before it alone. */
  lemma {:induction false} SlotsKeepEarlier(c: Core, slot: nat, n: nat)
    requires Slots(c, slot, n).Ok?
    ensures var c' := Slots(c, slot, n).value.core;
      forall j :: 0 <= j < slot && j < |c.worms| ==> c'.worms[j].rules == c.worms[j].rules
    decreases |c.worms| - slot
  {
    hide TakeTurn;
    if slot < |c.worms| {
      var at := c.(activeSlot := slot);
      TurnKeepsOthers(at, slot, n);
      var r := TakeTurn(at, slot, n);
      if r.Continue? {
        SlotsKeepEarlier(r.core, slot + 1, n + |r.log|);
      }
    }
  }

  lemma TurnKeepsOthers(c: Core, slot: nat, n: nat)
    requires slot < |c.worms|
    ensures var r := TakeTurn(c, slot, n);
      !r.Fail? ==> forall j :: 0 <= j < |c.worms| && j != slot ==> r.core.worms[j].rules == c.worms[j].rules
  {
    hide TakeTurn, View;
    assert ViewAt(c, c, slot) by { SameView(c, slot); }
    TurnView(c, c, slot, n, n);
  }

  lemma SameView(c: Core, slot: nat)
    requires slot < |c.worms|
    ensures ViewAt(c, c, slot)
  {
  }

  /** After an answered round only the taught table can have become invalid. */
  lemma TaughtTables(c: Core, mid: Core, c': Core, d: Direction)
    requires c.pending.Some? && PendingInRange(c) && ValidTables(c.worms)
    requires |mid.worms| == |c.worms| && TablesKept(mid.worms, c'.worms)
    requires forall j :: 0 <= j < |c.worms| ==> mid.worms[j].rules == Taught(c, d).worms[j].rules
    requires c'.worms[c.pending.value.slot].rules == mid.worms[c.pending.value.slot].rules
    ensures ValidTables(c'.worms) <==> d !in c.pending.value.mask
  {
    hide ValidRules;
    var slot, m := c.pending.value.slot, c.pending.value.mask;
    forall j | 0 <= j < |c.worms| && j != slot ensures ValidRules(c'.worms[j]) {
      SameTableSame(c.worms[j], mid.worms[j]);
    }
    var w := c.worms[slot];
    var taught := w.(rules := w.rules[m := Go(d)]);
    SameTableSame(taught, c'.worms[slot]);
    if d in m {
      BlockedIsInvalid(taught, m, d);
    } else {
      TeachKeepsValid(w, m, d);
    }
  }

  lemma SameTableSame(w: Worm, w': Worm)
    requires w'.rules == w.rules
    ensures ValidRules(w) <==> ValidRules(w')
  {
    assert forall m: Mask :: RuleAt(w', m) == RuleAt(w, m);
  }

  lemma BlockedIsInvalid(w: Worm, m: Mask, d: Direction)
    requires RuleAt(w, m) == Go(d) && d in m
    ensures !ValidRules(w)
  {
    assert DirectionBlocked(m, RuleAt(w, m));
  }

  // ----- every game can be played to its end

  /** The game is over, or waits for a decision that nobody may take. */
  ghost predicate Ended(c: Core) {
    c.over || (c.pending.Some? && c.pending.value.frozen)
  }

  /**
   * From every position between calls there is a run of calls to the end, and `RunIsBounded` says that no run is longer
   * than the measure.
   */
  lemma {:induction false} GameEnds(c: Core, n: nat) returns (ops: seq<Op>)
    requires Classic(c) && ValidTables(c.worms) && Grounded(c) && (c.pending.Some? ==> PendingMatches(c) && !c.over)
    ensures var r := Play(c, n, ops); r.Ok? && Ended(r.value.core)
    ensures forall k :: 0 <= k < |ops| ==> ops[k].OpCall?
    decreases Measure(c)
  {
    hide Exec, Grounded, Work, ValidTables, PendingMatches, Later;
    WorkIsNatural(c);
    if Ended(c) {
      ops := [];
    } else {
      var call := NextCall(c, n);
      var r := Exec(c, n, call).value;
      CallKeeps(c, n, call);
      LaterStaysGrounded(c, r.core);
      WorkIsNatural(r.core);
      var rest := GameEnds(r.core, n + |r.log|);
      ops := [OpCall(call)] + rest;
      assert ops[1..] == rest;
    }
  }

  /** While the game has not ended, some call succeeds: the next round, or any legal answer to the decision. */
  lemma NextCall(c: Core, n: nat) returns (call: Call)
    requires Classic(c) && ValidTables(c.worms) && !Ended(c) && (c.pending.Some? ==> PendingMatches(c) && !c.over)
    ensures var r := Exec(c, n, call); r.Ok? && Classic(r.value.core) && ValidTables(r.value.core.worms)
  {
    hide LegalMoves, AdvanceRound, Submit, ValidTables, MaskAt, LedgerKept, Work;
    if c.pending.None? {
      AdvanceNeverFails(c, n);
      call := CallAdvance;
    } else {
      var slot := c.pending.value.slot;
      var d := LegalMoves(c, c.worms[slot].id)[0];
      assert d in LegalMoves(c, c.worms[slot].id);
      IndexOfSlot(c.worms, slot);
      LegalIsFree(c, slot, d);
      SubmitAcceptsExactly(c, n, Some(d));
      call := CallSubmit(Some(d));
    }
    CallKeeps(c, n, call);
    LaterStaysClassic(c, Exec(c, n, call).value.core);
  }
}
