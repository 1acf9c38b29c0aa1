/** A round that stalls and is answered ends as the round of a worm that knew the answers all along. */
module StallTransparency {
  import opened Geometry
  import opened Engine
  import opened Rounds
  import opened Frames
  import opened Progress
  import opened Wrappers

  /** The state without the request number of its pending decision, which counts log entries. */
  ghost function WithoutRequest(c: Core): Core {
    if c.pending.Some? then c.(pending := Some(c.pending.value.(request := 0))) else c
  }

  /** Equal apart from the event log and the request number. */
  ghost predicate SameEnd(r: Outcome<Done>, r': Outcome<Done>) {
    match (r, r')
    case (Ok(a), Ok(b)) => WithoutRequest(a.core) == WithoutRequest(b.core)
    case (Err(e), Err(e')) => e == e'
    case _ => false
  }

  // ----- what a round does not depend on

  lemma SlotsSetActiveSlot(c: Core, slot: nat, n: nat, x: int)
    ensures Slots(c.(activeSlot := x), slot, n) == Slots(c, slot, n)
  {
    hide TakeTurn;
    assert c.(activeSlot := x).(activeSlot := slot) == c.(activeSlot := slot);
  }

  lemma TurnCountsLog(c: Core, slot: nat, n: nat, n': nat)
    requires slot < |c.worms|
    ensures var r, r' := TakeTurn(c, slot, n), TakeTurn(c, slot, n');
      && (!r.Stall? ==> r' == r)
      && (r.Stall? ==> r'.Stall? && WithoutRequest(r'.core) == WithoutRequest(r.core))
  {
    hide Act, Automatic, LegalMoves, ChooseAuto;
  }

  lemma {:induction false} SlotsCountLog(c: Core, slot: nat, n: nat, n': nat)
    ensures SameEnd(Slots(c, slot, n), Slots(c, slot, n'))
    decreases |c.worms| - slot
  {
    hide TakeTurn;
    if slot < |c.worms| {
      var at := c.(activeSlot := slot);
      TurnCountsLog(at, slot, n, n');
      var r := TakeTurn(at, slot, n);
      if r.Continue? {
        SlotsCountLog(r.core, slot + 1, n + |r.log|, n' + |r.log|);
      }
    }
  }

  // ----- the slots before the stall

  /** The states differ exactly in worm k's rule at m. */
  ghost predicate OneRule(c: Core, c': Core, k: nat, m: Mask, a: Action) {
    k < |c.worms| && c' == Learn(c, k, m, a)
  }

  lemma LearnView(c: Core, k: nat, m: Mask, a: Action, slot: nat)
    requires k < |c.worms| && slot < |c.worms| && slot != k
    ensures ViewAt(c, Learn(c, k, m, a), slot)
  {
  }

  lemma LearnCommutes(c: Core, k: nat, m: Mask, a: Action, slot: nat, d: Core, d': Core)
    requires k < |c.worms| && slot != k
    requires ViewAt(d, d', slot) && OthersKept(c, d, slot) && OthersKept(Learn(c, k, m, a), d', slot)
    ensures OneRule(d, d', k, m, a)
  {
    forall j | 0 <= j < |d.worms| ensures d'.worms[j] == Learn(d, k, m, a).worms[j] {
      assert Alike(d.worms[j], d'.worms[j]);
    }
    assert d'.worms == Learn(d, k, m, a).worms;
  }

  /** A slot before k takes the same turn whatever worm k has learned. */
  lemma TurnBefore(c: Core, slot: nat, n: nat, n': nat, k: nat, m: Mask, a: Action)
    requires slot < k < |c.worms| && TakeTurn(c, slot, n).Continue?
    ensures var r, r' := TakeTurn(c, slot, n), TakeTurn(Learn(c, k, m, a), slot, n');
      r'.Continue? && r'.log == r.log && OneRule(r.core, r'.core, k, m, a)
  {
    hide TakeTurn, Learn;
    LearnView(c, k, m, a, slot);
    var c' := Learn(c, k, m, a);
    TurnView(c, c', slot, n, n');
    LearnCommutes(c, k, m, a, slot, TakeTurn(c, slot, n).core, TakeTurn(c', slot, n').core);
  }

  /** The state in which the stalled slot began its turn. */
  ghost function BeforeStall(s: Core): Core {
    s.(pending := None)
  }

  /** The slot that stalls: taught beforehand, it begins its turn in the same state. */
  lemma StallCommutes(c: Core, slot: nat, n: nat, n': nat, a: Action)
    requires slot < |c.worms| && c.pending.None? && TakeTurn(c.(activeSlot := slot), slot, n).Stall?
    ensures Slots(c, slot, n).Ok?
    ensures var s := Slots(c, slot, n).value.core;
      && s.pending.Some? && |s.worms| == |c.worms|
      && var p := s.pending.value;
      && p.slot == slot
      && SameEnd(Slots(Learn(c, slot, p.mask, a), slot, n'), Slots(Learn(BeforeStall(s), slot, p.mask, a), slot, n'))
  {
    hide TakeTurn, Learn, SameEnd;
    var at := c.(activeSlot := slot);
    var r := TakeTurn(at, slot, n);
    StallShape(at, slot, n);
    var m := r.core.pending.value.mask;
    SlotsSetActiveSlot(Learn(c, slot, m, a), slot, n', slot);
    LearnKeepsSlot(c, slot, m, a, slot);
    SlotsCountLog(Learn(c, slot, m, a), slot, n', n');
  }

  /** A slot before the one that stalls: its turn is the same, and the rest of the round follows it. */
  lemma TurnCommutes(c: Core, slot: nat, n: nat, n': nat, k: nat, m: Mask, a: Action, end: Outcome<Done>)
    requires slot < k < |c.worms| && TakeTurn(c.(activeSlot := slot), slot, n).Continue?
    requires var r := TakeTurn(c.(activeSlot := slot), slot, n);
      |r.core.worms| == |c.worms| && SameEnd(Slots(Learn(r.core, k, m, a), slot + 1, n' + |r.log|), end)
    ensures SameEnd(Slots(Learn(c, k, m, a), slot, n'), end)
  {
    hide TakeTurn, Learn, SameEnd, Slots;
    var at := c.(activeSlot := slot);
    var r := TakeTurn(at, slot, n);
    TurnBefore(at, slot, n, n', k, m, a);
    LearnKeepsSlot(c, k, m, a, slot);
    AfterKeepsEnd(r.log, Slots(Learn(r.core, k, m, a), slot + 1, n' + |r.log|));
    SlotsUnfold(Learn(c, k, m, a), slot, n');
  }

  /** With worm k taught beforehand the round reaches slot k, where it would have stalled, in the same state. */
  lemma {:induction false} PrefixCommutes(c: Core, slot: nat, n: nat, n': nat, a: Action) returns (n'': nat)
    requires c.pending.None? && Slots(c, slot, n).Ok? && Slots(c, slot, n).value.core.pending.Some?
    ensures var s := Slots(c, slot, n).value.core; var p := s.pending.value;
      && slot <= p.slot < |c.worms| == |s.worms|
      && SameEnd(Slots(Learn(c, p.slot, p.mask, a), slot, n'),
                 Slots(Learn(BeforeStall(s), p.slot, p.mask, a), p.slot, n''))
    decreases |c.worms| - slot
  {
    hide Slots, TakeTurn, Learn, SameEnd;
    n'' := n';
    if slot >= |c.worms| {
      RoundEndsWithout(c, slot, n);
    } else {
      var at := c.(activeSlot := slot);
      var r := TakeTurn(at, slot, n);
      if r.Stall? {
        StallCommutes(c, slot, n, n', a);
      } else {
        GoesOn(c, slot, n);
        n'' := PrefixCommutes(r.core, slot + 1, n + |r.log|, n' + |r.log|, a);
        var s := Slots(r.core, slot + 1, n + |r.log|).value.core;
        var p := s.pending.value;
        TurnCommutes(c, slot, n, n', p.slot, p.mask, a, Slots(Learn(BeforeStall(s), p.slot, p.mask, a), p.slot, n''));
      }
    }
  }

  /** A round that has no slots left closes without a pending decision. */
  lemma RoundEndsWithout(c: Core, slot: nat, n: nat)
    requires slot >= |c.worms|
    ensures Slots(c, slot, n).Ok? && Slots(c, slot, n).value.core.pending == c.pending
  {
  }

  /** A round that gets past a turn without stalling is that turn and the rest of the round. */
  lemma GoesOn(c: Core, slot: nat, n: nat)
    requires slot < |c.worms| && c.pending.None? && Slots(c, slot, n).Ok?
    requires !TakeTurn(c.(activeSlot := slot), slot, n).Stall?
    ensures var r := TakeTurn(c.(activeSlot := slot), slot, n);
      && r.Continue? && |r.core.worms| == |c.worms| && r.core.pending.None?
      && Slots(c, slot, n) == After(r.log, Slots(r.core, slot + 1, n + |r.log|))
  {
    hide TakeTurn;
    TurnPending(c.(activeSlot := slot), slot, n);
  }

  lemma LearnKeepsSlot(c: Core, k: nat, m: Mask, a: Action, x: int)
    requires k < |c.worms|
    ensures Learn(c, k, m, a).(activeSlot := x) == Learn(c.(activeSlot := x), k, m, a)
    ensures |Learn(c, k, m, a).worms| == |c.worms|
  {
  }

  lemma SlotsUnfold(c: Core, slot: nat, n: nat)
    requires slot < |c.worms| && TakeTurn(c.(activeSlot := slot), slot, n).Continue?
    ensures var r := TakeTurn(c.(activeSlot := slot), slot, n);
      Slots(c, slot, n) == After(r.log, Slots(r.core, slot + 1, n + |r.log|))
  {
    hide TakeTurn;
  }

  lemma AfterKeepsEnd(log: seq<Draft>, r: Outcome<Done>)
    ensures forall x :: SameEnd(r, x) ==> SameEnd(After(log, r), x)
  {
  }

  lemma StallShape(c: Core, slot: nat, n: nat)
    requires slot < |c.worms| && c.pending.None? && TakeTurn(c, slot, n).Stall?
    ensures var s := TakeTurn(c, slot, n).core;
      && s.pending.Some? && s.pending.value.slot == slot && BeforeStall(s) == c
      && c.worms[slot].alive && LegalMoves(c, c.worms[slot].id) != []
      && s.pending.value.mask == MaskAt(c, c.worms[slot].position)
  {
    hide Act, Automatic, LegalMoves, ChooseAuto, MaskAt;
  }

  // ----- the stalled slot

  lemma StepKeepsActiveSlot(c: Core, x: int, id: Id, h: Heading)
    ensures var r, r' := Step(c, id, h), Step(c.(activeSlot := x), id, h);
      r' == if r.Ok? then Ok(Done(r.value.core.(activeSlot := x), r.value.log)) else r
  {
    hide Step;
    var cx := c.(activeSlot := x);
    StepView(c, cx, id, h);
    if Step(c, id, h).Ok? {
      StepKeepsTables(c, id, h);
      StepKeepsTables(cx, id, h);
      var d, d' := Step(c, id, h).value.core, Step(cx, id, h).value.core;
      forall j | 0 <= j < |d.worms| ensures d'.worms[j] == d.worms[j] {
        assert Alike(d.worms[j], d'.worms[j]);
        assert SameTables(c.worms[j], d.worms[j]) && SameTables(cx.worms[j], d'.worms[j]);
      }
      assert d'.worms == d.worms;
      assert d' == d.(activeSlot := x);
    }
  }

  /** The worm that has just been taught obeys its new rule. */
  lemma TaughtTurn(s: Core, d: Direction, n: nat)
    requires PendingMatches(s) && WormIndex(s.worms, s.pending.value.worm) == s.pending.value.slot
    requires d in LegalMoves(s, s.pending.value.worm)
    ensures var p := s.pending.value; var c := Learn(BeforeStall(s), p.slot, p.mask, Go(d));
      TakeTurn(c, p.slot, n) == Act(c, p.slot, p.mask, Go(d)) && d !in p.mask
  {
    hide Act, Automatic, ChooseAuto, LegalMoves, MaskAt;
    var p := s.pending.value;
    var c := Learn(BeforeStall(s), p.slot, p.mask, Go(d));
    assert View(s, c);
    LegalView(s, c, p.worm);
    MaskView(s, c, s.worms[p.slot].position);
    LegalIsFree(s, p.slot, d);
  }

  lemma AnswerIsTurn(s: Core, d: Direction, n: nat)
    requires PendingMatches(s) && WormIndex(s.worms, s.pending.value.worm) == s.pending.value.slot
    requires d in LegalMoves(s, s.pending.value.worm)
    ensures var p := s.pending.value; var c := Learn(BeforeStall(s), p.slot, p.mask, Go(d));
      var r, a := TakeTurn(c, p.slot, n), Answer(s, d);
      if a.Ok? then r.Continue? && a.value.core == r.core.(activeSlot := p.slot + 1) else r == Fail(a.error)
  {
    hide TakeTurn, Step, LegalMoves, MaskAt;
    var p := s.pending.value;
    var c := Learn(BeforeStall(s), p.slot, p.mask, Go(d));
    TaughtTurn(s, d, n);
    var counted := Count(c, p.slot, p.mask);
    TaughtIsCounted(s, d);
    StepKeepsActiveSlot(counted, p.slot + 1, p.worm, Some(d));
  }

  lemma TaughtIsCounted(s: Core, d: Direction)
    requires PendingMatches(s)
    ensures var p := s.pending.value;
      Taught(s, d) == Count(Learn(BeforeStall(s), p.slot, p.mask, Go(d)), p.slot, p.mask).(activeSlot := p.slot + 1)
  {
    hide LegalMoves, MaskAt;
  }

  lemma SubmitResumes(s: Core, d: Direction, n: nat, n': nat)
    requires UniqueIds(s.worms) && PendingMatches(s) && !s.pending.value.frozen
    requires d in LegalMoves(s, s.pending.value.worm)
    ensures var p := s.pending.value;
      SameEnd(Submit(s, n, Some(d)), Slots(Learn(BeforeStall(s), p.slot, p.mask, Go(d)), p.slot, n'))
  {
    hide TakeTurn, LegalMoves, MaskAt, Answer, Learn;
    var p := s.pending.value;
    var c := Learn(BeforeStall(s), p.slot, p.mask, Go(d));
    IndexOfSlot(s.worms, p.slot);
    AnswerIsTurn(s, d, n');
    LearnKeepsSlot(BeforeStall(s), p.slot, p.mask, Go(d), p.slot);
    assert c.(activeSlot := p.slot) == c;
    var a := Answer(s, d);
    if a.Ok? {
      var r := TakeTurn(c, p.slot, n');
      SlotsUnfold(c, p.slot, n');
      SlotsSetActiveSlot(r.core, p.slot + 1, n + |a.value.log|, p.slot + 1);
      SlotsCountLog(r.core, p.slot + 1, n + |a.value.log|, n' + |r.log|);
    }
  }

  /**
   * Stall transparency, for every state whose worms have their own names: a stalled round that is answered with a
   * legal direction ends, apart from the log and the request number, as the round of the original state with that
   * rule already taught. Errors agree too.
   */
  lemma AnsweredStallIsTaughtRound(c: Core, n: nat, d: Direction, n': nat)
    requires UniqueIds(c.worms) && AdvanceRound(c, n).Ok?
    requires var s := AdvanceRound(c, n).value.core;
      s.pending.Some? && !s.pending.value.frozen && d in LegalMoves(s, s.pending.value.worm)
    ensures var s := AdvanceRound(c, n).value; var p := s.core.pending.value;
      && 0 <= p.slot < |c.worms|
      && SameEnd(Submit(s.core, n + |s.log|, Some(d)), AdvanceRound(Learn(c, p.slot, p.mask, Go(d)), n'))
  {
    hide Slots, LegalMoves, Submit, Learn, PendingMatches, Later, Work;
    var start := if c.activeSlot >= 0 then c.activeSlot else 0;
    var s := AdvanceRound(c, n).value;
    SlotsKeep(c, start, n);
    LaterKeepsIds(c, s.core);
    var n'' := PrefixCommutes(c, start, n, n', Go(d));
    var p := s.core.pending.value;
    SubmitResumes(s.core, d, n + |s.log|, n'');
    LearnKeepsControl(c, p.slot, p.mask, Go(d));
  }

  lemma LaterKeepsIds(c: Core, c': Core)
    requires Later(c, c') && UniqueIds(c.worms)
    ensures UniqueIds(c'.worms)
  {
    hide LedgerKept, Work;
  }

  lemma LearnKeepsControl(c: Core, k: nat, m: Mask, a: Action)
    requires k < |c.worms|
    ensures var c' := Learn(c, k, m, a);
      c'.pending == c.pending && c'.over == c.over && c'.activeSlot == c.activeSlot
  {
  }

  // ----- any number of stalls

  /** A round and the answers to its stalls, in order; each answer must find a decision pending. */
  ghost function Conversation(c: Core, n: nat, answers: seq<Direction>): Outcome<Done> {
    var r := AdvanceRound(c, n);
    if r.Err? then r else Answers(r.value.core, n + |r.value.log|, answers)
  }

  ghost function Answers(c: Core, n: nat, answers: seq<Direction>): Outcome<Done>
    decreases |answers|
  {
    if answers == [] then Ok(Done(c, []))
    else
      var r := Submit(c, n, Some(answers[0]));
      if r.Err? then r else Answers(r.value.core, n + |r.value.log|, answers[1..])
  }

  /** The state in which every stalled worm knows its answer from the start. */
  ghost function Foretold(c: Core, n: nat, answers: seq<Direction>): Core
    decreases |answers|
  {
    if answers == [] then c
    else
      var r := AdvanceRound(c, n);
      if r.Err? || r.value.core.pending.None? || !PendingInRange(r.value.core)
         || r.value.core.pending.value.slot >= |c.worms| then c
      else
        var p := r.value.core.pending.value;
        Foretold(Learn(c, p.slot, p.mask, Go(answers[0])), n, answers[1..])
  }

  lemma SubmitCountsLog(a: Core, b: Core, n: nat, n': nat, h: Heading)
    requires WithoutRequest(a) == WithoutRequest(b)
    ensures SameEnd(Submit(a, n, h), Submit(b, n', h))
  {
    hide Slots, LegalMoves, Step, Learn, Count;
    if a.pending.Some? && PendingInRange(a) {
      var id := a.worms[a.pending.value.slot].id;
      assert View(a, b);
      LegalView(a, b, id);
      if h.Some? {
        assert Taught(a, h.value) == Taught(b, h.value) by { TaughtForgets(a, b, h.value); }
        var r := Answer(a, h.value);
        if r.Ok? {
          SlotsCountLog(r.value.core, a.pending.value.slot + 1, n + |r.value.log|, n' + |r.value.log|);
        }
      }
    }
  }

  lemma TaughtForgets(a: Core, b: Core, d: Direction)
    requires WithoutRequest(a) == WithoutRequest(b) && a.pending.Some? && PendingInRange(a)
    ensures Taught(a, d) == Taught(b, d)
  {
  }

  lemma {:induction false} AnswersCountLog(a: Core, b: Core, n: nat, n': nat, answers: seq<Direction>)
    requires WithoutRequest(a) == WithoutRequest(b)
    ensures SameEnd(Answers(a, n, answers), Answers(b, n', answers))
    decreases |answers|
  {
    hide Submit;
    if answers == [] {
    } else {
      SubmitCountsLog(a, b, n, n', Some(answers[0]));
      var r, r' := Submit(a, n, Some(answers[0])), Submit(b, n', Some(answers[0]));
      if r.Ok? {
        AnswersCountLog(r.value.core, r'.value.core, n + |r.value.log|, n' + |r'.value.log|, answers[1..]);
      }
    }
  }

  /** Stall transparency for any number of stalls in one round. */
  lemma {:induction false} ConversationIsForetoldRound(c: Core, n: nat, answers: seq<Direction>)
    requires UniqueIds(c.worms) && Conversation(c, n, answers).Ok?
    ensures SameEnd(Conversation(c, n, answers), AdvanceRound(Foretold(c, n, answers), n))
    decreases |answers|
  {
    hide AdvanceRound, Submit, Learn, PendingMatches, Later, Work, LegalMoves;
    if answers == [] {
    } else {
      var s := AdvanceRound(c, n).value;
      var d := answers[0];
      SubmitGuards(s.core, n + |s.log|, d);
      StallInRange(c, n);
      AnsweredStallIsTaughtRound(c, n, d, n);
      var p := s.core.pending.value;
      var c' := Learn(c, p.slot, p.mask, Go(d));
      LearnKeepsIds(c, p.slot, p.mask, Go(d));
      var r, r' := Submit(s.core, n + |s.log|, Some(d)), AdvanceRound(c', n);
      AnswersCountLog(r.value.core, r'.value.core, n + |s.log| + |r.value.log|, n + |r'.value.log|, answers[1..]);
      ConversationIsForetoldRound(c', n, answers[1..]);
    }
  }

  lemma SubmitGuards(s: Core, n: nat, d: Direction)
    requires Submit(s, n, Some(d)).Ok?
    ensures s.pending.Some? && PendingInRange(s) && !s.pending.value.frozen
    ensures d in LegalMoves(s, s.worms[s.pending.value.slot].id)
  {
    hide Answer, LegalMoves, Slots;
  }

  lemma LearnKeepsIds(c: Core, k: nat, m: Mask, a: Action)
    requires UniqueIds(c.worms) && k < |c.worms|
    ensures UniqueIds(Learn(c, k, m, a).worms)
  {
  }

  lemma StallInRange(c: Core, n: nat)
    requires AdvanceRound(c, n).Ok? && AdvanceRound(c, n).value.core.pending.Some?
    ensures var s := AdvanceRound(c, n).value.core;
      && PendingInRange(s) && s.pending.value.slot < |c.worms|
      && s.pending.value.worm == s.worms[s.pending.value.slot].id
  {
    hide Slots, LedgerKept, Work, LegalMoves;
    SlotsKeep(c, if c.activeSlot >= 0 then c.activeSlot else 0, n);
  }
}
