/** What moves, automatic choices and turns read: never another worm's tables, the active slot or the log. */
module Frames {
  import opened Geometry
  import opened Engine
  import opened Wrappers

  /** The worm is the same apart from its rule and use tables. */
  ghost predicate Alike(w: Worm, w': Worm) {
    w' == w.(rules := w'.rules, uses := w'.uses)
  }

  ghost predicate SameTables(w: Worm, w': Worm) {
    w'.rules == w.rules && w'.uses == w.uses
  }

  /** The states look the same to the rules: they may differ in tables, active slot and pending decision. */
  ghost predicate View(c: Core, c': Core) {
    && c' == c.(worms := c'.worms, activeSlot := c'.activeSlot, pending := c'.pending)
    && |c'.worms| == |c.worms|
    && forall i :: 0 <= i < |c.worms| ==> Alike(c.worms[i], c'.worms[i])
  }

  /** All tables but slot's, the active slot and the pending decision are as before. */
  ghost predicate OthersKept(c: Core, c': Core, slot: nat) {
    && c'.activeSlot == c.activeSlot && c'.pending == c.pending && |c'.worms| == |c.worms|
    && forall j :: 0 <= j < |c.worms| && j != slot ==> SameTables(c.worms[j], c'.worms[j])
  }

  lemma IndexView(ws: seq<Worm>, ws': seq<Worm>, id: Id)
    requires |ws| == |ws'| && forall i :: 0 <= i < |ws| ==> Alike(ws[i], ws'[i])
    ensures WormIndex(ws', id) == WormIndex(ws, id)
  {
    var a, b := WormIndex(ws, id), WormIndex(ws', id);
    assert a >= 0 ==> ws'[a].id == id;
    assert b >= 0 ==> ws[b].id == id;
  }

  lemma HasWormView(c: Core, c': Core, p: Point)
    requires View(c, c')
    ensures HasWorm(c', p) == HasWorm(c, p)
  {
    assert forall i :: 0 <= i < |c.worms| ==>
      c'.worms[i].alive == c.worms[i].alive && c'.worms[i].position == c.worms[i].position;
  }

  lemma {:induction false} LegalAmongView(c: Core, c': Core, from: Point, dirs: seq<Direction>)
    requires View(c, c')
    ensures LegalAmong(c', from, dirs) == LegalAmong(c, from, dirs)
    decreases |dirs|
  {
    if dirs == [] {
    } else {
      LegalAmongView(c, c', from, dirs[1..]);
      HasWormView(c, c', Neighbor(c.board, from, dirs[0]));
      assert MaskAt(c', from) == MaskAt(c, from);
      assert IsLegal(c', from, dirs[0]) == IsLegal(c, from, dirs[0]);
    }
  }

  lemma LegalView(c: Core, c': Core, id: Id)
    requires View(c, c')
    ensures LegalMoves(c', id) == LegalMoves(c, id)
  {
    IndexView(c.worms, c'.worms, id);
    var i := WormIndex(c.worms, id);
    if i >= 0 {
      assert Alike(c.worms[i], c'.worms[i]);
      LegalAmongView(c, c', c.worms[i].position, DIRECTIONS);
    }
  }

  lemma MoveView(c: Core, c': Core, i: nat, d: Direction)
    requires View(c, c') && i < |c.worms|
    ensures Move(c', i, d).log == Move(c, i, d).log
    ensures View(Move(c, i, d).core, Move(c', i, d).core)
  {
    hide Neighbor, Refreshed, Settle, SettleNews, Points;
    assert Alike(c.worms[i], c'.worms[i]);
  }

  lemma MoveKeepsTables(c: Core, i: nat, d: Direction)
    requires i < |c.worms|
    ensures OthersKept(c, Move(c, i, d).core, |c.worms|)
  {
  }

  /** Two outcomes that look the same. */
  ghost predicate SameStep(r: Outcome<Done>, r': Outcome<Done>) {
    match (r, r')
    case (Ok(a), Ok(b)) => b.log == a.log && View(a.core, b.core)
    case (Err(a), Err(b)) => a == b
    case _ => false
  }

  lemma StepView(c: Core, c': Core, id: Id, h: Heading)
    requires View(c, c')
    ensures SameStep(Step(c, id, h), Step(c', id, h))
  {
    hide Move, HasWorm, View, Neighbor, MaskAt, NewEdge, InBounds;
    SameGround(c, c');
    IndexView(c.worms, c'.worms, id);
    var i := WormIndex(c.worms, id);
    if i >= 0 {
      var from := c.worms[i].position;
      assert c'.worms[i].alive == c.worms[i].alive && c'.worms[i].position == from;
      MaskView(c, c', from);
      if h.Some? {
        HasWormView(c, c', Neighbor(c.board, from, h.value));
        MoveView(c, c', i, h.value);
      }
    }
  }

  lemma SameGround(c: Core, c': Core)
    requires View(c, c')
    ensures c'.board == c.board && c'.trails == c.trails && c'.over == c.over && |c'.worms| == |c.worms|
    ensures forall i :: 0 <= i < |c.worms| ==> Alike(c.worms[i], c'.worms[i])
  {
  }

  lemma StepKeepsTables(c: Core, id: Id, h: Heading)
    requires Step(c, id, h).Ok?
    ensures OthersKept(c, Step(c, id, h).value.core, |c.worms|)
  {
    hide Move;
    MoveKeepsTables(c, WormIndex(c.worms, id), h.value);
  }

  lemma RateView(c: Core, c': Core, slot: nat, d: Direction)
    requires View(c, c') && slot < |c.worms| && Step(c, c.worms[slot].id, Some(d)).Ok?
    requires c'.worms[slot].id == c.worms[slot].id
    ensures Step(c', c'.worms[slot].id, Some(d)).Ok? && Rate(c', slot, d) == Rate(c, slot, d)
  {
    hide Step, LegalMoves;
    var id := c.worms[slot].id;
    StepView(c, c', id, Some(d));
    var trial, trial' := Step(c, id, Some(d)).value.core, Step(c', id, Some(d)).value.core;
    LegalView(trial, trial', id);
    assert Alike(trial.worms[slot], trial'.worms[slot]) && Alike(c.worms[slot], c'.worms[slot]);
    var to := Neighbor(c.board, c.worms[slot].position, d);
    assert Colliders(c', slot, to) == Colliders(c, slot, to) by {
      assert forall i :: 0 <= i < |c.worms| ==> Alike(c.worms[i], c'.worms[i]);
    }
  }

  lemma {:induction false} WeighView(c: Core, c': Core, slot: nat, moves: seq<Direction>, best: AutoScore,
                                     ties: seq<Direction>)
    requires View(c, c') && slot < |c.worms|
    ensures Weigh(c', slot, moves, best, ties) == Weigh(c, slot, moves, best, ties)
    decreases |moves|
  {
    hide Step, Rate, Better;
    if moves == [] {
    } else {
      assert Alike(c.worms[slot], c'.worms[slot]);
      StepView(c, c', c.worms[slot].id, Some(moves[0]));
      if Step(c, c.worms[slot].id, Some(moves[0])).Ok? {
        RateView(c, c', slot, moves[0]);
        var score := Rate(c, slot, moves[0]);
        WeighView(c, c', slot, moves[1..], score, [moves[0]]);
        WeighView(c, c', slot, moves[1..], best, ties + [moves[0]]);
      }
      WeighView(c, c', slot, moves[1..], best, ties);
    }
  }

  /** The automatic choice does not depend on any rule table. */
  lemma ChooseView(c: Core, c': Core, slot: nat)
    requires View(c, c') && slot < |c.worms|
    ensures ChooseAuto(c', slot) == ChooseAuto(c, slot)
  {
    hide Weigh, LegalMoves, XorShift, Word;
    assert Alike(c.worms[slot], c'.worms[slot]);
    LegalView(c, c', c.worms[slot].id);
    WeighView(c, c', slot, LegalMoves(c, c.worms[slot].id), WORST, []);
  }

  // ----- turns

  /** The slot's worm is entirely the same in both states. */
  ghost predicate ViewAt(c: Core, c': Core, slot: nat) {
    View(c, c') && slot < |c.worms| == |c'.worms| && c'.worms[slot] == c.worms[slot]
  }

  /** Both turns end alike, and each has touched no tables but its slot's. */
  ghost predicate SameTurn(c: Core, c': Core, slot: nat, r: Turn, r': Turn) {
    match (r, r')
    case (Continue(d, log), Continue(d', log')) =>
      log' == log && ViewAt(d, d', slot) && OthersKept(c, d, slot) && OthersKept(c', d', slot)
    case (Fail(e), Fail(e')) => e == e'
    case (Stall(d, log), Stall(d', log')) =>
      && d.pending.Some? && d'.pending.Some?
      && d == c.(pending := d.pending) && d' == c'.(pending := d'.pending)
      && d'.pending.value == d.pending.value.(request := d'.pending.value.request)
    case _ => false
  }

  lemma EditView(c: Core, c': Core, slot: nat, w: Worm)
    requires ViewAt(c, c', slot)
    ensures ViewAt(WithWorm(c, slot, w), WithWorm(c', slot, w), slot)
    ensures OthersKept(c, WithWorm(c, slot, w), slot) && OthersKept(c', WithWorm(c', slot, w), slot)
  {
  }

  lemma StepViewAt(c: Core, c': Core, slot: nat, id: Id, h: Heading)
    requires ViewAt(c, c', slot) && Step(c, id, h).Ok?
    ensures var r, r' := Step(c, id, h), Step(c', id, h);
      && r'.Ok? && r'.value.log == r.value.log && ViewAt(r.value.core, r'.value.core, slot)
      && OthersKept(c, r.value.core, |c.worms|) && OthersKept(c', r'.value.core, |c'.worms|)
  {
    hide Step;
    StepView(c, c', id, h);
    StepKeepsTables(c, id, h);
    StepKeepsTables(c', id, h);
    var a, b := Step(c, id, h).value.core, Step(c', id, h).value.core;
    assert Alike(a.worms[slot], b.worms[slot]);
    assert SameTables(c.worms[slot], a.worms[slot]) && SameTables(c'.worms[slot], b.worms[slot]);
  }

  lemma ActView(c: Core, c': Core, slot: nat, m: Mask, a: Action)
    requires ViewAt(c, c', slot)
    ensures SameTurn(c, c', slot, Act(c, slot, m, a), Act(c', slot, m, a))
  {
    hide Step, View;
    if a.Go? && a.dir !in m {
      var counted, counted' := Count(c, slot, m), Count(c', slot, m);
      EditView(c, c', slot, counted.worms[slot]);
      var id := c.worms[slot].id;
      if Step(counted, id, Some(a.dir)).Ok? {
        StepViewAt(counted, counted', slot, id, Some(a.dir));
        var d, d' := Step(counted, id, Some(a.dir)).value.core, Step(counted', id, Some(a.dir)).value.core;
        KeptAgain(c, counted, d, slot);
        KeptAgain(c', counted', d', slot);
        SameEmission(counted, counted');
      } else {
        StepView(counted, counted', id, Some(a.dir));
      }
    }
  }

  lemma SameEmission(c: Core, c': Core)
    requires View(c, c')
    ensures c'.tick == c.tick && c'.round == c.round
  {
  }

  lemma KeptAgain(a: Core, b: Core, c: Core, slot: nat)
    requires OthersKept(a, b, slot) && (OthersKept(b, c, |b.worms|) || OthersKept(b, c, slot))
    ensures OthersKept(a, c, slot)
  {
  }

  lemma AutomaticView(c: Core, c': Core, slot: nat, m: Mask, a: Action)
    requires ViewAt(c, c', slot)
    ensures SameTurn(c, c', slot, Automatic(c, slot, m, a), Automatic(c', slot, m, a))
  {
    hide Act, View;
    if c.worms[slot].frozen {
      ActView(c, c', slot, m, a);
    } else {
      var learned, learned' := Learn(c, slot, m, a), Learn(c', slot, m, a);
      EditView(c, c', slot, learned.worms[slot]);
      ActView(learned, learned', slot, m, a);
      var r, r' := Act(learned, slot, m, a), Act(learned', slot, m, a);
      if r.Continue? {
        KeptAgain(c, learned, r.core, slot);
        KeptAgain(c', learned', r'.core, slot);
        SameEmission(c, c');
      }
    }
  }

  lemma TurnView(c: Core, c': Core, slot: nat, n: nat, n': nat)
    requires ViewAt(c, c', slot)
    ensures SameTurn(c, c', slot, TakeTurn(c, slot, n), TakeTurn(c', slot, n'))
  {
    hide Act, Automatic, View, ChooseAuto, LegalMoves, MaskAt;
    var w := c.worms[slot];
    var m := MaskAt(c, w.position);
    LegalView(c, c', w.id);
    SameEmission(c, c');
    assert MaskAt(c', w.position) == m by { MaskView(c, c', w.position); }
    EditView(c, c', slot, w);
    EditView(c, c', slot, w.(alive := false, crix := None));
    var a := RuleAt(w, m);
    if w.alive && LegalMoves(c, w.id) != [] {
      match a
      case GetNew =>
      case DoAI =>
        ChooseView(c, c', slot);
        AutomaticView(c, c', slot, m, ActionOf(ChooseAuto(c, slot)));
      case Die =>
      case _ => ActView(c, c', slot, m, a);
    } else {
      assert WithWorm(c, slot, w) == c && WithWorm(c', slot, w) == c';
    }
  }

  lemma MaskView(c: Core, c': Core, p: Point)
    requires View(c, c')
    ensures MaskAt(c', p) == MaskAt(c, p)
  {
  }
}
