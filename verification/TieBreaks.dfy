/** Which of several best directions an automatic worm takes: the one the seed draws, counted clockwise from East. */
module TieBreaks {
  import opened Geometry
  import opened Engine
  import opened AutoChoice
  import opened Variants
  import opened VariantMoves
  import opened VariantRounds
  import opened Wrappers

  // ----- lists that go clockwise

  ghost predicate GoesClockwise(ds: seq<Direction>) {
    forall i, j :: 0 <= i < j < |ds| ==> Hour(ds[i]) < Hour(ds[j])
  }

  lemma WithoutOne(a: seq<Direction>, d: Direction, b: seq<Direction>)
    requires GoesClockwise(a + [d] + b)
    ensures GoesClockwise(a + b) && GoesClockwise([d] + b)
  {
    hide Hour;
    var all := a + [d] + b;
    forall i, j | 0 <= i < j < |a + b| ensures Hour((a + b)[i]) < Hour((a + b)[j]) {
      var i', j' := if i < |a| then i else i + 1, if j < |a| then j else j + 1;
      assert (a + b)[i] == all[i'] && (a + b)[j] == all[j'];
    }
    forall i, j | 0 <= i < j < |[d] + b| ensures Hour(([d] + b)[i]) < Hour(([d] + b)[j]) {
      assert ([d] + b)[i] == all[|a| + i] && ([d] + b)[j] == all[|a| + j];
    }
  }

  /** In a list that goes clockwise the place of a direction is the number of those before it on the clock. */
  lemma {:induction false} PlaceIsCount(ds: seq<Direction>, k: nat)
    requires GoesClockwise(ds) && k < |ds|
    ensures |set d | d in ds && Hour(d) < Hour(ds[k])| == k
  {
    hide Hour;
    var earlier := set d | d in ds && Hour(d) < Hour(ds[k]);
    assert earlier == (set d | d in ds[..k]) by {
      forall d ensures d in earlier <==> d in ds[..k] {
        if d in earlier {
          var i :| 0 <= i < |ds| && ds[i] == d;
          assert i < k;
          assert ds[..k][i] == d;
        }
      }
    }
    CountDistinct(ds[..k]);
  }

  lemma BeginningGoesOn(ds: seq<Direction>)
    requires ds != [] && GoesClockwise(ds)
    ensures GoesClockwise(ds[..|ds| - 1]) && ds[|ds| - 1] !in ds[..|ds| - 1]
  {
    hide Hour;
  }

  lemma {:induction false} CountDistinct(ds: seq<Direction>)
    requires GoesClockwise(ds)
    ensures |set d | d in ds| == |ds|
    decreases |ds|
  {
    hide GoesClockwise;
    if ds == [] {
      assert (set d | d in ds) == {};
    } else {
      var rest, last := ds[..|ds| - 1], ds[|ds| - 1];
      BeginningGoesOn(ds);
      CountDistinct(rest);
      assert ds == rest + [last];
      assert (set d | d in ds) == (set d | d in rest) + {last};
    }
  }

  // ----- the engine's choice

  lemma {:induction false} TiesGoClockwise(c: Core, slot: nat, moves: seq<Direction>,
                                           best: AutoScore, ties: seq<Direction>)
    requires slot < |c.worms| && GoesClockwise(ties + moves)
    ensures GoesClockwise(Weigh(c, slot, moves, best, ties).1)
    decreases |moves|
  {
    hide Rate, Step, GoesClockwise, Better;
    if moves == [] {
      assert ties + moves == ties;
    } else {
      assert ties + moves == ties + [moves[0]] + moves[1..];
      WithoutOne(ties, moves[0], moves[1..]);
      if Step(c, c.worms[slot].id, Some(moves[0])).Err? {
        TiesGoClockwise(c, slot, moves[1..], best, ties);
      } else {
        var score := Rate(c, slot, moves[0]);
        if Better(score, best) {
          TiesGoClockwise(c, slot, moves[1..], score, [moves[0]]);
        } else if score == best {
          TiesGoClockwise(c, slot, moves[1..], best, ties + [moves[0]]);
        } else {
          TiesGoClockwise(c, slot, moves[1..], best, ties);
        }
      }
    }
  }

  /** The two directions gain as much, lead to cells with as many live worms, and leave as many onward moves. */
  ghost predicate AsGood(c: Core, slot: nat, d: Direction, e: Direction)
    requires slot < |c.worms|
    requires Step(c, c.worms[slot].id, Some(d)).Ok? && Step(c, c.worms[slot].id, Some(e)).Ok?
  {
    var w := c.worms[slot];
    var a, b := Step(c, w.id, Some(d)).value.core, Step(c, w.id, Some(e)).value.core;
    && a.worms[slot].score == b.worms[slot].score
    && |set i: nat | i < |c.worms| && i != slot && c.worms[i].alive
                     && c.worms[i].position == Neighbor(c.board, w.position, d)|
       == |set i: nat | i < |c.worms| && i != slot && c.worms[i].alive
                        && c.worms[i].position == Neighbor(c.board, w.position, e)|
    && |LegalMoves(a, w.id)| == |LegalMoves(b, w.id)|
  }

  lemma AsGoodIsRated(c: Core, slot: nat, d: Direction, e: Direction)
    requires slot < |c.worms|
    requires Step(c, c.worms[slot].id, Some(d)).Ok? && Step(c, c.worms[slot].id, Some(e)).Ok?
    ensures AsGood(c, slot, d, e) <==> Rate(c, slot, d) == Rate(c, slot, e)
  {
    hide Step, LegalMoves, Neighbor;
  }

  /**
   * Of the directions as good as the chosen one the seeded draw says how many come before it on the clock; a direction
   * without equals is taken without a draw.
   */
  lemma DrawBreaksTies(c: Core, slot: nat)
    requires !c.over && slot < |c.worms| && WormIndex(c.worms, c.worms[slot].id) == slot
    requires LegalMoves(c, c.worms[slot].id) != []
    ensures var w := c.worms[slot]; var h := ChooseAuto(c, slot);
      h.Some? && (forall d :: d in LegalMoves(c, w.id) || d == h.value ==> Step(c, w.id, Some(d)).Ok?)
      && var best := set d | d in LegalMoves(c, w.id) && AsGood(c, slot, d, h.value);
      && |best| > 0
      && |set d | d in best && Hour(d) < Hour(h.value)|
         == if |best| == 1 then 0 else DrawAt(w.seed, c.round, c.tick, slot, |best|)
  {
    hide Rate, Step, DrawAt, LegalMoves, Better, Weigh, AsGood;
    var w := c.worms[slot];
    var moves := LegalMoves(c, w.id);
    AutoIsOptimal(c, slot);
    var ties := TiedDirections(c, slot);
    var h := ChooseAuto(c, slot).value;
    var best := set d | d in moves && AsGood(c, slot, d, h);
    forall d ensures d in best <==> d in ties {
      if d in moves { AsGoodIsRated(c, slot, d, h); }
    }
    assert best == set d | d in ties;
    CountDistinct(ties);
    var k := if |ties| == 1 then 0 else DrawAt(w.seed, c.round, c.tick, slot, |ties|);
    PlaceIsCount(ties, k);
    assert (set d | d in best && Hour(d) < Hour(h)) == set d | d in ties && Hour(d) < Hour(ties[k]);
  }

  lemma TiedDirections(c: Core, slot: nat) returns (ties: seq<Direction>)
    requires !c.over && slot < |c.worms| && WormIndex(c.worms, c.worms[slot].id) == slot
    requires LegalMoves(c, c.worms[slot].id) != []
    ensures ties != [] && GoesClockwise(ties)
    ensures ChooseAuto(c, slot) ==
              Some(ties[if |ties| == 1 then 0 else DrawAt(c.worms[slot].seed, c.round, c.tick, slot, |ties|)])
    ensures var id := c.worms[slot].id; var h := ChooseAuto(c, slot);
      && (forall d :: d in LegalMoves(c, id) || d == h.value ==> Step(c, id, Some(d)).Ok?)
      && forall d :: d in ties <==> d in LegalMoves(c, id) && Rate(c, slot, d) == Rate(c, slot, h.value)
  {
    hide Rate, Step, DrawAt, LegalMoves, Weigh, BestSoFar, AllSteppable, GoesClockwise;
    var moves := LegalMoves(c, c.worms[slot].id);
    TiesAmong(c, slot, moves);
    ties := Weigh(c, slot, moves, WORST, []).1;
    TiesAreBest(c, slot, moves, Weigh(c, slot, moves, WORST, []).0, ties);
    assert ChooseAuto(c, slot).Some? && ChooseAuto(c, slot).value in ties;
  }

  lemma TiesAmong(c: Core, slot: nat, moves: seq<Direction>)
    requires !c.over && slot < |c.worms| && WormIndex(c.worms, c.worms[slot].id) == slot
    requires moves == LegalMoves(c, c.worms[slot].id)
    ensures GoesClockwise(Weigh(c, slot, moves, WORST, []).1)
    ensures var r := Weigh(c, slot, moves, WORST, []); BestSoFar(c, slot, (set d | d in moves), r.0, r.1)
  {
    hide Rate, Step, LegalMoves, Weigh;
    forall d | d in moves ensures Step(c, c.worms[slot].id, Some(d)).Ok? {
      LegalIffSteppable(c, c.worms[slot].id, d);
    }
    WeighFindsBest(c, slot, moves, {}, WORST, []);
    assert {} + (set d | d in moves) == set d | d in moves;
    LegalMovesGoClockwise(c, c.worms[slot].id);
    assert [] + moves == moves;
    TiesGoClockwise(c, slot, moves, WORST, []);
  }

  lemma TiesAreBest(c: Core, slot: nat, moves: seq<Direction>, best: AutoScore, ties: seq<Direction>)
    requires slot < |c.worms| && moves != [] && BestSoFar(c, slot, (set d | d in moves), best, ties)
    ensures ties != [] && forall d :: d in moves || d in ties ==> Step(c, c.worms[slot].id, Some(d)).Ok?
    ensures forall d :: d in ties <==> d in moves && Rate(c, slot, d) == best
  {
    hide Rate, Step, Better;
    var seen := set d | d in moves;
    assert moves[0] in seen;
    assert seen != {};
  }

  // ----- the extension's choice

  lemma {:induction false} VariantListedFrom(v: Variant, id: Id, k: nat)
    requires k <= 6
    ensures Rising(LegalFrom(v, id, DIRECTIONS[k..]), k)
    decreases 6 - k
  {
    hide Legal, Rising;
    if k == 6 {
      assert Rising([], 6) by { NothingRises(); }
    } else {
      VariantListedFrom(v, id, k + 1);
      assert DIRECTIONS[k..][0] == DIRECTIONS[k] && DIRECTIONS[k..][1..] == DIRECTIONS[k + 1..];
      assert Hour(DIRECTIONS[k]) == k;
      var rest := LegalFrom(v, id, DIRECTIONS[k + 1..]);
      RisesFrom(DIRECTIONS[k], rest);
      assert [] + rest == rest;
    }
  }

  /** The variant's legal directions too are listed clockwise from East. */
  lemma VariantMovesGoClockwise(v: Variant, id: Id)
    ensures GoesClockwise(Moves(v, id))
  {
    hide Legal;
    VariantListedFrom(v, id, 0);
    assert DIRECTIONS[0..] == DIRECTIONS;
    assert LegalFrom(v, id, DIRECTIONS[0..]) == LegalFrom(v, id, DIRECTIONS);
  }

  lemma {:induction false} VariantTiesGoClockwise(v: Variant, id: Id, legal: seq<Direction>,
                                                  best: int, ties: seq<Direction>)
    requires GoesClockwise(ties + legal)
    ensures GoesClockwise(Compare(v, id, legal, best, ties).1)
    decreases |legal|
  {
    hide VariantMoves.Apply, Worth, GoesClockwise;
    if legal == [] {
      assert ties + legal == ties;
    } else {
      assert ties + legal == ties + [legal[0]] + legal[1..];
      WithoutOne(ties, legal[0], legal[1..]);
      if VariantMoves.Apply(v, id, Some(legal[0])).result.Err? {
        VariantTiesGoClockwise(v, id, legal[1..], best, ties);
      } else {
        var worth := Worth(v, id, legal[0]);
        if worth > best {
          VariantTiesGoClockwise(v, id, legal[1..], worth, [legal[0]]);
        } else if worth == best {
          VariantTiesGoClockwise(v, id, legal[1..], best, ties + [legal[0]]);
        } else {
          VariantTiesGoClockwise(v, id, legal[1..], best, ties);
        }
      }
    }
  }

  /** A hundred times the gain in weight, and the onward moves. */
  ghost function Value(v: Variant, id: Id, d: Direction): int {
    var after := VariantMoves.Apply(v, id, Some(d)).after;
    100 * (ValueAt(after.scores, id) - ValueAt(v.scores, id)) + |Moves(after, id)|
  }

  /**
   * Of several directions that can be played, some one worth looking at, the draw says how many of those worth as much
   * as the chosen one come before it on the clock.
   */
  lemma VariantDrawBreaksTies(v: Variant, slot: nat, legal: seq<Direction>, e: Direction)
    requires slot < |v.base.worms| && |legal| > 1 && GoesClockwise(legal) && e in legal
    requires var id := v.base.worms[slot].id;
             VariantMoves.Apply(v, id, Some(e)).result.Ok? && Value(v, id, e) >= -1073741824
    ensures var w := v.base.worms[slot]; var h := Choose(v, slot, legal);
      var best := set d | d in legal && VariantMoves.Apply(v, w.id, Some(d)).result.Ok?
                          && Value(v, w.id, d) == Value(v, w.id, h);
      && |best| > 0
      && |set d | d in best && Hour(d) < Hour(h)| == Pick64(w.seed, v.base.round, v.base.tick, slot, |best|)
  {
    hide VariantMoves.Apply, Worth, Pick64, Compare, GoesClockwise, Hour, Moves, Value, Choose;
    var w := v.base.worms[slot];
    var ties := VariantTied(v, slot, legal, e);
    var k := Pick64(w.seed, v.base.round, v.base.tick, slot, |ties|);
    var h := Choose(v, slot, legal);
    var best := set d | d in legal && VariantMoves.Apply(v, w.id, Some(d)).result.Ok?
                        && Value(v, w.id, d) == Value(v, w.id, h);
    assert best == set d | d in ties;
    CountDistinct(ties);
    PlaceIsCount(ties, k);
    assert (set d | d in best && Hour(d) < Hour(h)) == set d | d in ties && Hour(d) < Hour(ties[k]);
  }

  lemma VariantTied(v: Variant, slot: nat, legal: seq<Direction>, e: Direction) returns (ties: seq<Direction>)
    requires slot < |v.base.worms| && |legal| > 1 && GoesClockwise(legal) && e in legal
    requires var id := v.base.worms[slot].id;
             VariantMoves.Apply(v, id, Some(e)).result.Ok? && Value(v, id, e) >= -1073741824
    ensures ties != [] && GoesClockwise(ties)
    ensures Choose(v, slot, legal) == ties[Pick64(v.base.worms[slot].seed, v.base.round, v.base.tick, slot, |ties|)]
    ensures var id := v.base.worms[slot].id;
      forall d :: d in ties <==> d in legal && VariantMoves.Apply(v, id, Some(d)).result.Ok?
                                 && Value(v, id, d) == Value(v, id, Choose(v, slot, legal))
  {
    hide VariantMoves.Apply, Worth, Pick64, Compare, GoesClockwise, Moves, Value;
    var w := v.base.worms[slot];
    CompareFindsBest(v, w.id, legal, LOWEST, []);
    assert [] + legal == legal;
    VariantTiesGoClockwise(v, w.id, legal, LOWEST, []);
    ties := Compare(v, w.id, legal, LOWEST, []).1;
    forall d ensures Value(v, w.id, d) == Worth(v, w.id, d) { ValueIsWorth(v, w.id, d); }
    BestIsTied(v, w.id, legal, e);
    assert Choose(v, slot, legal) in ties;
  }

  lemma ValueIsWorth(v: Variant, id: Id, d: Direction)
    ensures Value(v, id, d) == Worth(v, id, d)
  {
  }
}
