/** Rounds of a variant game, the window of live expiries, and the energy that bounds every game. */
module VariantRounds {
  import opened Geometry
  import opened Engine
  import opened Rounds
  import opened Variants
  import opened VariantMoves
  import opened Wrappers

  /** A slot's part of a round. */
  datatype Served =
    | GoesOn(state: Variant, log: seq<Draft>)
    | Stalls(state: Variant, log: seq<Draft>)
    | Fails(why: Refusal)

  datatype Finished = Finished(state: Variant, log: seq<Draft>)

  // ----- the automatic choice

  /** A hundred times the weighted gain, and the moves left afterwards. */
  ghost function Worth(v: Variant, id: Id, d: Direction): int {
    var after := Apply(v, id, Some(d)).after;
    (ValueAt(after.scores, id) - ValueAt(v.scores, id)) * 100 + |Moves(after, id)|
  }

  ghost function Compare(v: Variant, id: Id, legal: seq<Direction>, best: int, ties: seq<Direction>)
    : (int, seq<Direction>)
  {
    if legal == [] then (best, ties)
    else if Apply(v, id, Some(legal[0])).result.Err? then Compare(v, id, legal[1..], best, ties)
    else
      var worth := Worth(v, id, legal[0]);
      if worth > best then Compare(v, id, legal[1..], worth, [legal[0]])
      else if worth == best then Compare(v, id, legal[1..], best, ties + [legal[0]])
      else Compare(v, id, legal[1..], best, ties)
  }

  const LOWEST: int := -0x4000_0000

  /** The tie-breaking draw; unlike the engine's it does not replace a zero word. */
  function Pick64(seed: nat, round: nat, tick: nat, slot: nat, n: nat): (k: nat)
    requires n > 0
    ensures k < n
  {
    var x := Word(seed) ^ (Word(round + 1) << 32) ^ (Word(tick + 1) << 16) ^ Word(slot + 1);
    if x == 0 then 0 else Below(XorShift(x), n)
  }

  ghost function Choose(v: Variant, slot: nat, legal: seq<Direction>): Direction
    requires slot < |v.base.worms| && legal != []
  {
    var w := v.base.worms[slot];
    if |legal| == 1 then legal[0]
    else
      var ties := Compare(v, w.id, legal, LOWEST, []).1;
      if ties == [] then legal[0] else ties[Pick64(w.seed, v.base.round, v.base.tick, slot, |ties|)]
  }

  ghost predicate Playable(v: Variant, id: Id, d: Direction) {
    Apply(v, id, Some(d)).result.Ok?
  }

  /** The comparison ends with the greatest worth seen and exactly the directions that reach it. */
  lemma {:induction false} CompareFindsBest(v: Variant, id: Id, legal: seq<Direction>, best: int, ties: seq<Direction>)
    ensures var (b, t) := Compare(v, id, legal, best, ties);
      && b >= best
      && (forall d :: d in legal && Playable(v, id, d) ==> Worth(v, id, d) <= b)
      && (forall d :: d in t <==>
          (d in ties && b == best) || (d in legal && Playable(v, id, d) && Worth(v, id, d) == b))
    decreases |legal|
  {
    hide Apply, Worth;
    if legal == [] {
    } else {
      var worth := Worth(v, id, legal[0]);
      if !Playable(v, id, legal[0]) {
        CompareFindsBest(v, id, legal[1..], best, ties);
      } else if worth > best {
        CompareFindsBest(v, id, legal[1..], worth, [legal[0]]);
      } else {
        CompareFindsBest(v, id, legal[1..], best, if worth == best then ties + [legal[0]] else ties);
      }
      assert legal == [legal[0]] + legal[1..];
    }
  }

  /** The automatic choice is a legal direction, and none that can be played is worth more, whatever the seed. */
  lemma ChoiceIsBest(v: Variant, slot: nat, legal: seq<Direction>)
    requires slot < |v.base.worms| && legal != []
    ensures var d := Choose(v, slot, legal); var id := v.base.worms[slot].id;
      && d in legal
      && (|legal| > 1 ==> forall e :: e in legal && Playable(v, id, e) && Worth(v, id, e) >= LOWEST ==>
            Playable(v, id, d) && Worth(v, id, e) <= Worth(v, id, d))
  {
    hide Apply, Worth, Pick64, Compare;
    var id := v.base.worms[slot].id;
    CompareFindsBest(v, id, legal, LOWEST, []);
    var ties := Compare(v, id, legal, LOWEST, []).1;
    if ties == [] {
      forall e | e in legal && Playable(v, id, e) && Worth(v, id, e) >= LOWEST ensures false {
        BestIsTied(v, id, legal, e);
      }
    }
  }

  lemma BestIsTied(v: Variant, id: Id, legal: seq<Direction>, e: Direction)
    requires e in legal && Playable(v, id, e) && Worth(v, id, e) >= LOWEST
    ensures Compare(v, id, legal, LOWEST, []).1 != []
  {
    hide Apply, Worth;
    SomethingTies(v, id, legal, LOWEST, [], e);
  }

  lemma {:induction false} SomethingTies(v: Variant, id: Id, legal: seq<Direction>,
      best: int, ties: seq<Direction>, e: Direction)
    requires ties != [] || (e in legal && Playable(v, id, e) && Worth(v, id, e) >= best)
    ensures Compare(v, id, legal, best, ties).1 != []
    decreases |legal|
  {
    hide Apply, Worth;
    if legal == [] {
    } else {
      var worth := Worth(v, id, legal[0]);
      if !Playable(v, id, legal[0]) {
        SomethingTies(v, id, legal[1..], best, ties, e);
      } else if worth > best {
        SomethingTies(v, id, legal[1..], worth, [legal[0]], e);
      } else {
        SomethingTies(v, id, legal[1..], best, if worth == best then ties + [legal[0]] else ties, e);
      }
    }
  }

  // ----- turns and rounds

  function OnBase(v: Variant, c: Core): Variant {
    v.(base := c)
  }

  ghost function Play(v: Variant, slot: nat, m: Mask, d: Direction): (r: Served)
    requires slot < |v.base.worms|
    ensures !r.Stalls?
    ensures !r.Fails? ==> |r.state.base.worms| == |v.base.worms|
  {
    var counted := Count(v.base, slot, m);
    var a := Apply(OnBase(v, counted), v.base.worms[slot].id, Some(d));
    match a.result
    case Err(why) => Fails(why)
    case Ok(log) => GoesOn(a.after, [UseEvent(counted, slot, m, Go(d))] + log)
  }

  ghost function PlayAutomatic(v: Variant, slot: nat, m: Mask, legal: seq<Direction>): (r: Served)
    requires slot < |v.base.worms| && legal != []
    ensures !r.Stalls?
    ensures !r.Fails? ==> |r.state.base.worms| == |v.base.worms|
  {
    var w := v.base.worms[slot];
    var d := Choose(v, slot, legal);
    if w.frozen then Play(v, slot, m, d)
    else
      var r := Play(OnBase(v, Learn(v.base, slot, m, Go(d))), slot, m, d);
      if r.Fails? then r
      else GoesOn(r.state, [Emit(v.base, RuleLearned(w.id, slot, m, Go(d), "auto"))] + r.log)
  }

  /** A remembered action that is not legal is replaced for a wild worm and an error for any other. */
  ghost function Follow(v: Variant, slot: nat, m: Mask, legal: seq<Direction>, a: Action): (r: Served)
    requires slot < |v.base.worms| && legal != []
    ensures !r.Stalls?
    ensures !r.Fails? ==> |r.state.base.worms| == |v.base.worms|
  {
    var w := v.base.worms[slot];
    if a.Go? && a.dir in legal then Play(v, slot, m, a.dir)
    else if w.controller == KindWild then Play(v, slot, m, Choose(v, slot, legal))
    else Fails(ByEngine(IllegalRule(w.id, m, a)))
  }

  ghost function ServeTurn(v: Variant, slot: nat, n: nat): (r: Served)
    requires slot < |v.base.worms|
    ensures !r.Fails? ==> |r.state.base.worms| == |v.base.worms|
  {
    var w := v.base.worms[slot];
    var m := MaskAt(v.base, w.position);
    var legal := Moves(v, w.id);
    if !w.alive then GoesOn(v, [])
    else if legal == [] then GoesOn(OnBase(v, Fall(v.base, slot)), [Emit(v.base, WormBlocked(w.id, w.position))])
    else
      match RuleAt(w, m)
      case GetNew => var s := AwaitDecision(v.base, slot, m, n); Stalls(OnBase(v, s.core), s.log)
      case DoAI => PlayAutomatic(v, slot, m, legal)
      case Die => GoesOn(OnBase(v, Fall(v.base, slot)), [Emit(v.base, WormDied(w.id, w.position))])
      case a => Follow(v, slot, m, legal, a)
  }

  function Prefixed(log: seq<Draft>, r: Reply<Finished>): Reply<Finished> {
    match r case Ok(f) => Ok(Finished(f.state, log + f.log)) case Err(why) => Err(why)
  }

  /** The slot loop, closed by the end of the round unless a turn has stalled. */
  ghost function ServeFrom(v: Variant, slot: nat, n: nat): Reply<Finished>
    decreases |v.base.worms| - slot
  {
    if slot >= |v.base.worms| then
      var f := Finish(v.base);
      Ok(Finished(OnBase(v, f.core), f.log))
    else
      match ServeTurn(OnBase(v, v.base.(activeSlot := slot)), slot, n)
      case Fails(why) => Err(why)
      case Stalls(v', log) => Ok(Finished(v', log))
      case GoesOn(v', log) => Prefixed(log, ServeFrom(v', slot + 1, n + |log|))
  }

  ghost function Advance(v: Variant, n: nat): Reply<Finished> {
    if v.base.pending.Some? then Err(ByEngine(Rejected(PendingDecision)))
    else if v.base.over then Err(ByEngine(Rejected(GameOver)))
    else ServeFrom(v, if v.base.activeSlot >= 0 then v.base.activeSlot else 0, n)
  }

  /** The decision resolved, the rule taught and counted, and the move applied. */
  ghost function Resolve(v: Variant, d: Direction): Reply<Finished>
    requires v.base.pending.Some? && PendingInRange(v.base)
  {
    var p := v.base.pending.value;
    var w := v.base.worms[p.slot];
    var taught := Taught(v.base, d);
    var a := Apply(OnBase(v, taught), w.id, Some(d));
    match a.result
    case Err(why) => Err(why)
    case Ok(log) =>
      Ok(Finished(a.after, [Emit(v.base, RuleLearned(w.id, p.slot, p.mask, Go(d), "new")),
                                  UseEvent(taught, p.slot, p.mask, Go(d))] + log))
  }

  ghost function Decide(v: Variant, n: nat, h: Heading): Reply<Finished> {
    if v.base.pending.None? then Err(ByEngine(Rejected(PendingDecision)))
    else if v.base.pending.value.frozen || !PendingInRange(v.base) then Err(ByEngine(Rejected(FrozenUnknown)))
    else
      var p := v.base.pending.value;
      if h.None? || h.value !in Moves(v, p.worm) then Err(ByEngine(Rejected(OccupiedSpoke)))
      else
        match Resolve(v, h.value)
        case Err(why) => Err(why)
        case Ok(f) => Prefixed(f.log, ServeFrom(f.state, p.slot + 1, n + |f.log|))
  }

  // ----- every turn keeps the books

  lemma PlayKeepsBooks(v: Variant, slot: nat, m: Mask, d: Direction)
    requires Books(v) && slot < |v.base.worms|
    ensures Books(OnBase(v, Count(v.base, slot, m)))
    ensures var r := Play(v, slot, m, d); !r.Stalls? && (r.GoesOn? ==> Books(r.state))
  {
    hide Books, Apply;
    var counted := Count(v.base, slot, m);
    assert SameLedger(v.base, counted);
    BooksFrame(v, counted);
    ApplyKeepsBooks(OnBase(v, counted), v.base.worms[slot].id, Some(d));
  }

  lemma AutomaticKeepsBooks(v: Variant, slot: nat, m: Mask, legal: seq<Direction>, d: Direction)
    requires Books(v) && slot < |v.base.worms| && legal != []
    ensures Books(OnBase(v, Learn(v.base, slot, m, Go(d))))
    ensures var r := PlayAutomatic(v, slot, m, legal); !r.Stalls? && (r.GoesOn? ==> Books(r.state))
  {
    hide Books, Play, Choose;
    var e := Choose(v, slot, legal);
    assert SameLedger(v.base, Learn(v.base, slot, m, Go(d)));
    assert SameLedger(v.base, Learn(v.base, slot, m, Go(e)));
    BooksFrame(v, Learn(v.base, slot, m, Go(d)));
    BooksFrame(v, Learn(v.base, slot, m, Go(e)));
    PlayKeepsBooks(v, slot, m, e);
    PlayKeepsBooks(OnBase(v, Learn(v.base, slot, m, Go(e))), slot, m, e);
  }

  lemma TurnKeepsBooks(v: Variant, slot: nat, n: nat)
    requires Books(v) && slot < |v.base.worms|
    ensures Books(OnBase(v, v.base.(activeSlot := slot)))
    ensures var r := ServeTurn(v, slot, n); !r.Fails? ==> Books(r.state)
  {
    hide Books, Play, PlayAutomatic, Choose, Moves, MaskAt;
    var w := v.base.worms[slot];
    var legal, m := Moves(v, w.id), MaskAt(v.base, w.position);
    assert SameLedger(v.base, v.base.(activeSlot := slot));
    BooksFrame(v, v.base.(activeSlot := slot));
    assert SameLedger(v.base, Fall(v.base, slot));
    BooksFrame(v, Fall(v.base, slot));
    var s := AwaitDecision(v.base, slot, m, n);
    assert SameLedger(v.base, s.core);
    BooksFrame(v, s.core);
    if legal != [] {
      AutomaticKeepsBooks(v, slot, m, legal, East);
      PlayKeepsBooks(v, slot, m, Choose(v, slot, legal));
      var a := RuleAt(w, m);
      if a.Go? { PlayKeepsBooks(v, slot, m, a.dir); }
    }
  }
}
