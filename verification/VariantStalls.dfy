/** Stall transparency of the variant: an answered stall ends as the round of a worm that knew the answer all along. */
module VariantStalls {
  import opened Geometry
  import opened Engine
  import opened Frames
  import opened StallTransparency
  import opened Variants
  import opened VariantMoves
  import opened VariantRounds
  import opened VariantFrames
  import opened Wrappers

  /** The state without the request number of its pending decision. */
  ghost function Unnumbered(v: Variant): Variant {
    OnBase(v, WithoutRequest(v.base))
  }

  /** Equal apart from the event log and the request number. */
  ghost predicate SameOutcome(r: Reply<Finished>, r': Reply<Finished>) {
    match (r, r')
    case (Ok(a), Ok(b)) => Unnumbered(a.state) == Unnumbered(b.state)
    case (Err(e), Err(e')) => e == e'
    case _ => false
  }

  /** The state in which worm k already knows the action at m. */
  ghost function Knowing(v: Variant, k: nat, m: Mask, a: Action): Variant
    requires k < |v.base.worms|
  {
    OnBase(v, Learn(v.base, k, m, a))
  }

  /** The state in which the stalled slot began its turn. */
  ghost function BeforeAsking(v: Variant): Variant {
    OnBase(v, BeforeStall(v.base))
  }

  // ----- what a round does not depend on

  lemma ServeSetsActiveSlot(v: Variant, slot: nat, n: nat, x: int)
    ensures ServeFrom(OnBase(v, v.base.(activeSlot := x)), slot, n) == ServeFrom(v, slot, n)
  {
    hide ServeTurn;
    assert v.base.(activeSlot := x).(activeSlot := slot) == v.base.(activeSlot := slot);
  }

  lemma ServingCountsLog(v: Variant, slot: nat, n: nat, n': nat)
    requires slot < |v.base.worms|
    ensures var r, r' := ServeTurn(v, slot, n), ServeTurn(v, slot, n');
      && (!r.Stalls? ==> r' == r)
      && (r.Stalls? ==> r'.Stalls? && Unnumbered(r'.state) == Unnumbered(r.state))
  {
    hide Play, PlayAutomatic, Follow, Moves, MaskAt, Choose;
  }

  lemma {:induction false} RoundCountsLog(v: Variant, slot: nat, n: nat, n': nat)
    ensures SameOutcome(ServeFrom(v, slot, n), ServeFrom(v, slot, n'))
    decreases |v.base.worms| - slot
  {
    hide ServeTurn;
    if slot < |v.base.worms| {
      var at := OnBase(v, v.base.(activeSlot := slot));
      ServingCountsLog(at, slot, n, n');
      var r := ServeTurn(at, slot, n);
      if r.GoesOn? {
        RoundCountsLog(r.state, slot + 1, n + |r.log|, n' + |r.log|);
      }
    }
  }

  // ----- the slots before the stall

  /** A slot before k takes the same turn whatever worm k has learned. */
  lemma ServedBefore(v: Variant, slot: nat, n: nat, n': nat, k: nat, m: Mask, a: Action)
    requires slot < k < |v.base.worms| && ServeTurn(v, slot, n).GoesOn?
    ensures var r, r' := ServeTurn(v, slot, n), ServeTurn(Knowing(v, k, m, a), slot, n');
      r'.GoesOn? && r'.log == r.log && |r.state.base.worms| == |v.base.worms| && r'.state == Knowing(r.state, k, m, a)
  {
    hide ServeTurn, Learn, View;
    LearnView(v.base, k, m, a, slot);
    var v' := Knowing(v, k, m, a);
    ServeLooks(v, v', slot, n, n');
    LearnCommutes(v.base, k, m, a, slot, ServeTurn(v, slot, n).state.base, ServeTurn(v', slot, n').state.base);
  }

  /** A turn that goes on leaves the pending decision alone. */
  lemma TurnLeavesPending(v: Variant, slot: nat, n: nat)
    requires slot < |v.base.worms| && ServeTurn(v, slot, n).GoesOn?
    ensures ServeTurn(v, slot, n).state.base.pending == v.base.pending
  {
    hide ServeTurn, View;
    assert LooksAt(v, v, slot) by { LooksSame(v); }
    ServeLooks(v, v, slot, n, n);
  }

  lemma AskingShape(v: Variant, slot: nat, n: nat)
    requires slot < |v.base.worms| && v.base.pending.None? && ServeTurn(v, slot, n).Stalls?
    ensures var s := ServeTurn(v, slot, n).state;
      && s.base.pending.Some? && s.base.pending.value.slot == slot && BeforeAsking(s) == v
      && (v.base.activeSlot == slot ==> Waits(s))
  {
    hide Play, PlayAutomatic, Follow, MaskAt, Choose, Moves;
    var s := ServeTurn(v, slot, n).state;
    assert Looks(v, s);
    MovesLook(v, s, v.base.worms[slot].id);
    MaskView(v.base, s.base, v.base.worms[slot].position);
  }

  /** The decision a stalled turn of the variant leaves behind, before its request number. */
  ghost predicate Waits(v: Variant) {
    && v.base.pending.Some?
    && var p := v.base.pending.value;
    && 0 <= p.slot < |v.base.worms|
    && var w := v.base.worms[p.slot];
    && w.alive && p.worm == w.id && p.frozen == w.frozen && p.mask == MaskAt(v.base, w.position)
    && p.reason == UNKNOWN_PATTERN && Moves(v, w.id) != [] && v.base.activeSlot == p.slot
  }

  lemma KnowingKeepsSlot(v: Variant, k: nat, m: Mask, a: Action, x: int)
    requires k < |v.base.worms|
    ensures var u := Knowing(v, k, m, a);
      && OnBase(u, u.base.(activeSlot := x)) == Knowing(OnBase(v, v.base.(activeSlot := x)), k, m, a)
      && |u.base.worms| == |v.base.worms|
      && u.base.pending == v.base.pending && u.base.over == v.base.over && u.base.activeSlot == v.base.activeSlot
  {
  }

  lemma ServeUnfolds(v: Variant, slot: nat, n: nat)
    requires slot < |v.base.worms| && ServeTurn(OnBase(v, v.base.(activeSlot := slot)), slot, n).GoesOn?
    ensures var r := ServeTurn(OnBase(v, v.base.(activeSlot := slot)), slot, n);
      ServeFrom(v, slot, n) == Prefixed(r.log, ServeFrom(r.state, slot + 1, n + |r.log|))
  {
    hide ServeTurn;
  }

  lemma PrefixKeepsEnd(log: seq<Draft>, r: Reply<Finished>)
    ensures forall x :: SameOutcome(r, x) ==> SameOutcome(Prefixed(log, r), x)
  {
  }

  /** The slot that stalls: taught beforehand, it begins its turn in the same state. */
  lemma AskingCommutes(v: Variant, slot: nat, n: nat, n': nat, a: Action)
    requires slot < |v.base.worms| && v.base.pending.None?
    requires ServeTurn(OnBase(v, v.base.(activeSlot := slot)), slot, n).Stalls?
    ensures ServeFrom(v, slot, n).Ok?
    ensures var s := ServeFrom(v, slot, n).value.state;
      && Waits(s) && |s.base.worms| == |v.base.worms|
      && var p := s.base.pending.value;
      && p.slot == slot
      && SameOutcome(ServeFrom(Knowing(v, slot, p.mask, a), slot, n'),
                ServeFrom(Knowing(BeforeAsking(s), slot, p.mask, a), slot, n'))
  {
    hide ServeTurn, Knowing, SameOutcome, Waits;
    var at := OnBase(v, v.base.(activeSlot := slot));
    var r := ServeTurn(at, slot, n);
    AskingShape(at, slot, n);
    var m := r.state.base.pending.value.mask;
    ServeSetsActiveSlot(Knowing(v, slot, m, a), slot, n', slot);
    KnowingKeepsSlot(v, slot, m, a, slot);
    RoundCountsLog(Knowing(v, slot, m, a), slot, n', n');
  }

  /** A slot before the one that stalls: its turn is the same, and the rest of the round follows it. */
  lemma ServingCommutes(v: Variant, slot: nat, n: nat, n': nat, k: nat, m: Mask, a: Action, end: Reply<Finished>)
    requires slot < k < |v.base.worms| && ServeTurn(OnBase(v, v.base.(activeSlot := slot)), slot, n).GoesOn?
    requires var r := ServeTurn(OnBase(v, v.base.(activeSlot := slot)), slot, n);
      && |r.state.base.worms| == |v.base.worms|
      && SameOutcome(ServeFrom(Knowing(r.state, k, m, a), slot + 1, n' + |r.log|), end)
    ensures SameOutcome(ServeFrom(Knowing(v, k, m, a), slot, n'), end)
  {
    hide ServeTurn, Knowing, SameOutcome, ServeFrom;
    var at := OnBase(v, v.base.(activeSlot := slot));
    var r := ServeTurn(at, slot, n);
    ServedBefore(at, slot, n, n', k, m, a);
    KnowingKeepsSlot(v, k, m, a, slot);
    PrefixKeepsEnd(r.log, ServeFrom(Knowing(r.state, k, m, a), slot + 1, n' + |r.log|));
    ServeUnfolds(Knowing(v, k, m, a), slot, n');
  }

  /** With worm k taught beforehand the round reaches slot k, where it would have stalled, in the same state. */
  lemma {:induction false} RoundCommutes(v: Variant, slot: nat, n: nat, n': nat, a: Action) returns (n'': nat)
    requires v.base.pending.None? && ServeFrom(v, slot, n).Ok?
    requires ServeFrom(v, slot, n).value.state.base.pending.Some?
    ensures var s := ServeFrom(v, slot, n).value.state; var p := s.base.pending.value;
      && slot <= p.slot < |v.base.worms| == |s.base.worms| && Waits(s)
      && SameOutcome(ServeFrom(Knowing(v, p.slot, p.mask, a), slot, n'),
                ServeFrom(Knowing(BeforeAsking(s), p.slot, p.mask, a), p.slot, n''))
    decreases |v.base.worms| - slot
  {
    hide ServeFrom, ServeTurn, Knowing, SameOutcome, Waits;
    n'' := n';
    if slot >= |v.base.worms| {
      ServedOut(v, slot, n);
    } else {
      var at := OnBase(v, v.base.(activeSlot := slot));
      var r := ServeTurn(at, slot, n);
      if r.Stalls? {
        AskingCommutes(v, slot, n, n', a);
      } else {
        ServedOn(v, slot, n);
        n'' := RoundCommutes(r.state, slot + 1, n + |r.log|, n' + |r.log|, a);
        var s := ServeFrom(r.state, slot + 1, n + |r.log|).value.state;
        var p := s.base.pending.value;
        ServingCommutes(v, slot, n, n', p.slot, p.mask, a,
                        ServeFrom(Knowing(BeforeAsking(s), p.slot, p.mask, a), p.slot, n''));
      }
    }
  }

  /** A round that has no slots left closes without a pending decision. */
  lemma ServedOut(v: Variant, slot: nat, n: nat)
    requires slot >= |v.base.worms|
    ensures ServeFrom(v, slot, n).Ok? && ServeFrom(v, slot, n).value.state.base.pending == v.base.pending
  {
  }

  /** A round that gets past a turn without stalling is that turn and the rest of the round. */
  lemma ServedOn(v: Variant, slot: nat, n: nat)
    requires slot < |v.base.worms| && v.base.pending.None? && ServeFrom(v, slot, n).Ok?
    requires !ServeTurn(OnBase(v, v.base.(activeSlot := slot)), slot, n).Stalls?
    ensures var r := ServeTurn(OnBase(v, v.base.(activeSlot := slot)), slot, n);
      && r.GoesOn? && |r.state.base.worms| == |v.base.worms| && r.state.base.pending.None?
      && ServeFrom(v, slot, n) == Prefixed(r.log, ServeFrom(r.state, slot + 1, n + |r.log|))
  {
    hide ServeTurn;
    TurnLeavesPending(OnBase(v, v.base.(activeSlot := slot)), slot, n);
  }

  // ----- the stalled slot

  /** The worm that has just been taught obeys its new rule. */
  lemma KnowingTurn(s: Variant, d: Direction, n: nat)
    requires Waits(s) && d in Moves(s, s.base.pending.value.worm)
    ensures var p := s.base.pending.value; var v := Knowing(BeforeAsking(s), p.slot, p.mask, Go(d));
      ServeTurn(v, p.slot, n) == Play(v, p.slot, p.mask, d)
  {
    hide Play, Choose, Moves, MaskAt;
    var p := s.base.pending.value;
    var v := Knowing(BeforeAsking(s), p.slot, p.mask, Go(d));
    assert Looks(s, v);
    MovesLook(s, v, p.worm);
    MaskView(s.base, v.base, s.base.worms[p.slot].position);
  }

  /** A move does not read the active slot. */
  lemma ApplyKeepsActiveSlot(v: Variant, x: int, id: Id, h: Heading)
    ensures var a, a' := VariantMoves.Apply(v, id, h), VariantMoves.Apply(OnBase(v, v.base.(activeSlot := x)), id, h);
      a'.result == a.result && a'.after == OnBase(a.after, a.after.base.(activeSlot := x))
  {
    hide VariantMoves.Apply;
    var v' := OnBase(v, v.base.(activeSlot := x));
    assert Looks(v, v');
    LooksSame(v');
    ApplyLooks(v, v', id, h);
    ApplyLooks(v', v', id, h);
    var c, c' := VariantMoves.Apply(v, id, h).after.base, VariantMoves.Apply(v', id, h).after.base;
    forall j | 0 <= j < |c.worms| ensures c'.worms[j] == c.worms[j] {
      assert Alike(c.worms[j], c'.worms[j]);
      assert SameTables(v.base.worms[j], c.worms[j]) && SameTables(v'.base.worms[j], c'.worms[j]);
    }
    assert c'.worms == c.worms;
  }

  lemma TaughtKnows(s: Variant, d: Direction)
    requires s.base.pending.Some? && PendingInRange(s.base)
    ensures var p := s.base.pending.value;
      Taught(s.base, d)
      == Count(Learn(BeforeStall(s.base), p.slot, p.mask, Go(d)), p.slot, p.mask).(activeSlot := p.slot + 1)
  {
  }

  lemma ResolveIsTurn(s: Variant, d: Direction, n: nat)
    requires Waits(s) && d in Moves(s, s.base.pending.value.worm)
    ensures var p := s.base.pending.value; var v := Knowing(BeforeAsking(s), p.slot, p.mask, Go(d));
      var r, f := ServeTurn(v, p.slot, n), Resolve(s, d);
      if f.Ok? then
        r.GoesOn? && f.value.state == OnBase(r.state, r.state.base.(activeSlot := p.slot + 1))
        && |r.state.base.worms| == |s.base.worms|
      else r == Fails(f.error)
  {
    hide ServeTurn, VariantMoves.Apply, Moves, MaskAt;
    var p := s.base.pending.value;
    var v := Knowing(BeforeAsking(s), p.slot, p.mask, Go(d));
    KnowingTurn(s, d, n);
    var counted := Count(v.base, p.slot, p.mask);
    TaughtKnows(s, d);
    ApplyKeepsActiveSlot(OnBase(v, counted), p.slot + 1, p.worm, Some(d));
  }

  /** Answering a stall goes on as the turn of a worm that already knew the rule. */
  lemma DecideResumes(s: Variant, d: Direction, n: nat, n': nat)
    requires Waits(s) && !s.base.pending.value.frozen && d in Moves(s, s.base.pending.value.worm)
    ensures var p := s.base.pending.value;
      SameOutcome(Decide(s, n, Some(d)), ServeFrom(Knowing(BeforeAsking(s), p.slot, p.mask, Go(d)), p.slot, n'))
  {
    hide ServeTurn, Moves, MaskAt, Resolve, Knowing;
    var p := s.base.pending.value;
    var v := Knowing(BeforeAsking(s), p.slot, p.mask, Go(d));
    ResolveIsTurn(s, d, n');
    KnowingKeepsSlot(BeforeAsking(s), p.slot, p.mask, Go(d), p.slot);
    assert OnBase(v, v.base.(activeSlot := p.slot)) == v;
    var f := Resolve(s, d);
    if f.Ok? {
      var r := ServeTurn(v, p.slot, n');
      ServeUnfolds(v, p.slot, n');
      ServeSetsActiveSlot(r.state, p.slot + 1, n + |f.value.log|, p.slot + 1);
      RoundCountsLog(r.state, p.slot + 1, n + |f.value.log|, n' + |r.log|);
    }
  }

  /**
   * Stall transparency of the variant, whatever the state: a stalled round that is answered with a legal direction
   * ends, apart from the log and the request number, as the round of the original state with that rule already
   * taught, though trails expire, energy is spent and scores move in between. Errors agree too.
   */
  lemma AnsweredRoundWasKnown(v: Variant, n: nat, d: Direction, n': nat)
    requires Advance(v, n).Ok?
    requires var s := Advance(v, n).value.state;
      s.base.pending.Some? && !s.base.pending.value.frozen && d in Moves(s, s.base.pending.value.worm)
    ensures var f := Advance(v, n).value; var p := f.state.base.pending.value;
      && 0 <= p.slot < |v.base.worms|
      && SameOutcome(Decide(f.state, n + |f.log|, Some(d)), Advance(Knowing(v, p.slot, p.mask, Go(d)), n'))
  {
    hide ServeFrom, Moves, Decide, Knowing, Waits;
    var start := if v.base.activeSlot >= 0 then v.base.activeSlot else 0;
    var f := Advance(v, n).value;
    var n'' := RoundCommutes(v, start, n, n', Go(d));
    var p := f.state.base.pending.value;
    DecideResumes(f.state, d, n + |f.log|, n'');
    KnowingKeepsSlot(v, p.slot, p.mask, Go(d), start);
  }

  // ----- any number of stalls

  /** A round and the answers to its stalls, in order; each answer must find a decision pending. */
  ghost function Talk(v: Variant, n: nat, answers: seq<Direction>): Reply<Finished> {
    var r := Advance(v, n);
    if r.Err? then r else Replies(r.value.state, n + |r.value.log|, answers)
  }

  ghost function Replies(v: Variant, n: nat, answers: seq<Direction>): Reply<Finished>
    decreases |answers|
  {
    if answers == [] then Ok(Finished(v, []))
    else
      var r := Decide(v, n, Some(answers[0]));
      if r.Err? then r else Replies(r.value.state, n + |r.value.log|, answers[1..])
  }

  /** The state in which every stalled worm knows its answer from the start. */
  ghost function Forewarned(v: Variant, n: nat, answers: seq<Direction>): Variant
    decreases |answers|
  {
    if answers == [] then v
    else
      var r := Advance(v, n);
      if r.Err? || r.value.state.base.pending.None? || !(0 <= r.value.state.base.pending.value.slot < |v.base.worms|)
      then v
      else
        var p := r.value.state.base.pending.value;
        Forewarned(Knowing(v, p.slot, p.mask, Go(answers[0])), n, answers[1..])
  }

  lemma DecideCountsLog(a: Variant, b: Variant, n: nat, n': nat, h: Heading)
    requires Unnumbered(a) == Unnumbered(b)
    ensures SameOutcome(Decide(a, n, h), Decide(b, n', h))
  {
    hide ServeFrom, Moves, VariantMoves.Apply, Taught;
    assert b == OnBase(a, b.base) && Looks(a, b);
    if a.base.pending.Some? && PendingInRange(a.base) {
      MovesLook(a, b, a.base.pending.value.worm);
      if h.Some? {
        TaughtForgets(a.base, b.base, h.value);
        var r := Resolve(a, h.value);
        if r.Ok? {
          RoundCountsLog(r.value.state, a.base.pending.value.slot + 1, n + |r.value.log|, n' + |r.value.log|);
        }
      }
    }
  }

  lemma {:induction false} RepliesCountLog(a: Variant, b: Variant, n: nat, n': nat, answers: seq<Direction>)
    requires Unnumbered(a) == Unnumbered(b)
    ensures SameOutcome(Replies(a, n, answers), Replies(b, n', answers))
    decreases |answers|
  {
    hide Decide;
    if answers == [] {
    } else {
      DecideCountsLog(a, b, n, n', Some(answers[0]));
      var r, r' := Decide(a, n, Some(answers[0])), Decide(b, n', Some(answers[0]));
      if r.Ok? {
        RepliesCountLog(r.value.state, r'.value.state, n + |r.value.log|, n' + |r'.value.log|, answers[1..]);
      }
    }
  }

  lemma DecideGuards(s: Variant, n: nat, d: Direction)
    requires Decide(s, n, Some(d)).Ok?
    ensures s.base.pending.Some? && !s.base.pending.value.frozen && d in Moves(s, s.base.pending.value.worm)
  {
    hide Resolve, Moves, ServeFrom;
  }

  /** Stall transparency of the variant for any number of stalls in one round. */
  lemma {:induction false} TalkIsForewarnedRound(v: Variant, n: nat, answers: seq<Direction>)
    requires Talk(v, n, answers).Ok?
    ensures SameOutcome(Talk(v, n, answers), Advance(Forewarned(v, n, answers), n))
    decreases |answers|
  {
    hide Advance, Decide, Knowing, Moves;
    if answers == [] {
    } else {
      var s := Advance(v, n).value;
      var d := answers[0];
      DecideGuards(s.state, n + |s.log|, d);
      AnsweredRoundWasKnown(v, n, d, n);
      var p := s.state.base.pending.value;
      var v' := Knowing(v, p.slot, p.mask, Go(d));
      var r, r' := Decide(s.state, n + |s.log|, Some(d)), Advance(v', n);
      RepliesCountLog(r.value.state, r'.value.state, n + |s.log| + |r.value.log|, n + |r'.value.log|, answers[1..]);
      TalkIsForewarnedRound(v', n, answers[1..]);
    }
  }
}
