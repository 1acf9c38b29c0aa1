/** The automatic controller: `LegalMoves` lists what `Step` accepts, and the choice among it is a best one. */
module AutoChoice {
  import opened Geometry
  import opened Engine
  import opened Wrappers

  lemma TrailIsSpoke(c: Core, p: Point, d: Direction)
    ensures EdgeFrom(c.board, p, d) in c.trails <==> d in SpokeMask(c, p)
  {
    EveryDirection(d);
  }

  /** While the game is on, the listed moves are exactly the directions `Step` accepts, worm known and alive or not. */
  lemma LegalIffSteppable(c: Core, id: Id, d: Direction)
    requires !c.over
    ensures d in LegalMoves(c, id) <==> Step(c, id, Some(d)).Ok?
  {
    hide Move;
    var i := WormIndex(c.worms, id);
    EveryDirection(d);
    if i >= 0 && c.worms[i].alive {
      TrailIsSpoke(c, c.worms[i].position, d);
    }
  }

  lemma BetterIsTransitive(a: AutoScore, b: AutoScore, c: AutoScore)
    ensures Better(a, b) && !Better(c, b) ==> Better(a, c)
    ensures !Better(a, b) && !Better(b, c) ==> !Better(a, c)
    ensures !Better(a, b) && a != b ==> Better(b, a)
  {
  }

  ghost predicate AllSteppable(c: Core, slot: nat, moves: seq<Direction>)
    requires slot < |c.worms|
  {
    forall d :: d in moves ==> Step(c, c.worms[slot].id, Some(d)).Ok?
  }

  /** The ties are exactly the directions rated best, and nothing looked at is rated better. */
  ghost predicate BestSoFar(c: Core, slot: nat, seen: set<Direction>, best: AutoScore, ties: seq<Direction>)
    requires slot < |c.worms|
  {
    && (forall d :: d in seen || d in ties ==> Step(c, c.worms[slot].id, Some(d)).Ok?)
    && (forall d :: d in ties <==> d in seen && Rate(c, slot, d) == best)
    && (forall d :: d in seen ==> !Better(Rate(c, slot, d), best))
    && (seen != {} ==> ties != [])
    && (seen == {} ==> ties == [] && best == WORST)
  }

  lemma RateBeatsWorst(c: Core, slot: nat, d: Direction)
    requires slot < |c.worms| && WormIndex(c.worms, c.worms[slot].id) == slot
    requires Step(c, c.worms[slot].id, Some(d)).Ok?
    ensures Better(Rate(c, slot, d), WORST)
  {
    hide LegalMoves, Move;
    MoveScores(c, slot, d);
  }

  lemma MoveScores(c: Core, i: nat, d: Direction)
    requires i < |c.worms|
    ensures Move(c, i, d).core.worms[i].score >= c.worms[i].score
  {
  }

  lemma {:induction false} WeighFindsBest(c: Core, slot: nat, moves: seq<Direction>, seen: set<Direction>,
                                          best: AutoScore, ties: seq<Direction>)
    requires slot < |c.worms| && WormIndex(c.worms, c.worms[slot].id) == slot
    requires AllSteppable(c, slot, moves) && BestSoFar(c, slot, seen, best, ties)
    ensures var r := Weigh(c, slot, moves, best, ties);
            BestSoFar(c, slot, seen + (set d | d in moves), r.0, r.1)
    decreases |moves|
  {
    hide Rate, Step;
    if moves == [] {
      assert seen + (set d | d in moves) == seen;
    } else {
      var d := moves[0];
      var score := Rate(c, slot, d);
      RateBeatsWorst(c, slot, d);
      assert seen + {d} + (set e | e in moves[1..]) == seen + (set e | e in moves);
      if Better(score, best) {
        forall e | e in seen ensures !Better(Rate(c, slot, e), score) {
          BetterIsTransitive(score, best, Rate(c, slot, e));
          BetterIsTransitive(Rate(c, slot, e), best, score);
        }
        WeighFindsBest(c, slot, moves[1..], seen + {d}, score, [d]);
      } else if score == best {
        WeighFindsBest(c, slot, moves[1..], seen + {d}, best, ties + [d]);
      } else {
        WeighFindsBest(c, slot, moves[1..], seen + {d}, best, ties);
      }
    }
  }

  /** Whatever the seed, the automatic choice is legal, and no legal move captures more, or as much with fewer
      collisions, or as much with as few and more onward moves. */
  lemma AutoIsOptimal(c: Core, slot: nat)
    requires !c.over && slot < |c.worms| && WormIndex(c.worms, c.worms[slot].id) == slot
    requires LegalMoves(c, c.worms[slot].id) != []
    ensures var id := c.worms[slot].id; var h := ChooseAuto(c, slot);
      && h.Some? && h.value in LegalMoves(c, id)
      && Step(c, id, Some(h.value)).Ok?
      && forall d :: d in LegalMoves(c, id) ==>
           Step(c, id, Some(d)).Ok? && !Better(Rate(c, slot, d), Rate(c, slot, h.value))
  {
    hide Rate, Step, Draw, LegalMoves, Better, Weigh;
    var moves := LegalMoves(c, c.worms[slot].id);
    forall d | d in moves ensures Step(c, c.worms[slot].id, Some(d)).Ok? {
      LegalIffSteppable(c, c.worms[slot].id, d);
    }
    WeighFindsBest(c, slot, moves, {}, WORST, []);
    var seen := {} + (set d | d in moves);
    assert forall d :: d in moves <==> d in seen;
    assert moves[0] in seen;
    var ties := Weigh(c, slot, moves, WORST, []).1;
    assert ChooseAuto(c, slot).Some? && ChooseAuto(c, slot).value in ties;
  }

  /**
   * The same said of the results of `Step` and of the list of worms: no legal direction gains the chooser more; of
   * those that gain as much none leads to a cell with fewer live worms; and of those none leaves more onward moves.
   */
  lemma ChoiceInPlainTerms(c: Core, slot: nat, d: Direction)
    requires !c.over && slot < |c.worms| && WormIndex(c.worms, c.worms[slot].id) == slot
    requires d in LegalMoves(c, c.worms[slot].id)
    ensures var w := c.worms[slot]; var h := ChooseAuto(c, slot);
      && h.Some? && Step(c, w.id, h).Ok? && Step(c, w.id, Some(d)).Ok?
      && var chosen, other := Step(c, w.id, h).value.core, Step(c, w.id, Some(d)).value.core;
      && var here := set i: nat | i < |c.worms| && i != slot && c.worms[i].alive
                                  && c.worms[i].position == Neighbor(c.board, w.position, h.value);
      && var there := set i: nat | i < |c.worms| && i != slot && c.worms[i].alive
                                   && c.worms[i].position == Neighbor(c.board, w.position, d);
      && other.worms[slot].score <= chosen.worms[slot].score
      && (other.worms[slot].score == chosen.worms[slot].score ==>
            && |here| <= |there|
            && (|here| == |there| ==> |LegalMoves(other, w.id)| <= |LegalMoves(chosen, w.id)|))
  {
    hide Step, LegalMoves, ChooseAuto;
    AutoIsOptimal(c, slot);
  }

  /** A direction's place on the clock, from East. */
  function Hour(d: Direction): nat {
    match d
    case East => 0
    case SouthEast => 1
    case SouthWest => 2
    case West => 3
    case NorthWest => 4
    case NorthEast => 5
  }

  /** Legal directions are listed clockwise from East. */
  lemma LegalMovesGoClockwise(c: Core, id: Id)
    ensures var ds := LegalMoves(c, id); forall i, j :: 0 <= i < j < |ds| ==> Hour(ds[i]) < Hour(ds[j])
  {
    hide IsLegal;
    var i := WormIndex(c.worms, id);
    if i >= 0 {
      var p := c.worms[i].position;
      ListedFrom(c, p, 0);
      assert DIRECTIONS[0..] == DIRECTIONS;
      assert LegalAmong(c, p, DIRECTIONS[0..]) == LegalAmong(c, p, DIRECTIONS);
    }
  }

  ghost predicate Rising(ds: seq<Direction>, k: nat) {
    && (forall i, j :: 0 <= i < j < |ds| ==> Hour(ds[i]) < Hour(ds[j]))
    && forall i :: 0 <= i < |ds| ==> Hour(ds[i]) >= k
  }

  lemma RisesFrom(d: Direction, rest: seq<Direction>)
    requires Rising(rest, Hour(d) + 1)
    ensures Rising([d] + rest, Hour(d)) && Rising(rest, Hour(d))
  {
    hide Hour;
  }

  lemma {:induction false} ListedFrom(c: Core, from: Point, k: nat)
    requires k <= 6
    ensures Rising(LegalAmong(c, from, DIRECTIONS[k..]), k)
    decreases 6 - k
  {
    hide IsLegal, Rising;
    if k == 6 {
      assert Rising([], 6) by { NothingRises(); }
    } else {
      ListedFrom(c, from, k + 1);
      assert DIRECTIONS[k..][0] == DIRECTIONS[k] && DIRECTIONS[k..][1..] == DIRECTIONS[k + 1..];
      assert Hour(DIRECTIONS[k]) == k;
      var rest := LegalAmong(c, from, DIRECTIONS[k + 1..]);
      RisesFrom(DIRECTIONS[k], rest);
      assert [] + rest == rest;
    }
  }

  lemma NothingRises()
    ensures Rising([], 6)
  {
  }
}
