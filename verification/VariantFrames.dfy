/**
 * What the moves, choices and turns of a variant game read: never another worm's tables, the active slot or the log.
 */
module VariantFrames {
  import opened Geometry
  import opened Engine
  import opened Ledger
  import opened Frames
  import opened Variants
  import opened VariantMoves
  import opened VariantRounds
  import opened Wrappers

  /** The states look the same to the rules of the variant. */
  ghost predicate Looks(v: Variant, v': Variant) {
    v' == OnBase(v, v'.base) && View(v.base, v'.base)
  }

  ghost predicate LooksAt(v: Variant, v': Variant, slot: nat) {
    v' == OnBase(v, v'.base) && ViewAt(v.base, v'.base, slot)
  }

  /** All tables, the active slot and the pending decision are as before. */
  ghost predicate TablesStay(c: Core, c': Core) {
    OthersKept(c, c', |c.worms|)
  }

  // ----- expiry

  lemma DebitLooks(ws: seq<Worm>, ws': seq<Worm>, owner: Id)
    requires |ws'| == |ws| && forall i :: 0 <= i < |ws| ==> Alike(ws[i], ws'[i])
    ensures var a, b := Deducted(ws, owner), Deducted(ws', owner);
      forall i :: 0 <= i < |ws| ==> Alike(a[i], b[i]) && SameTables(ws[i], a[i])
  {
    IndexView(ws, ws', owner);
  }

  lemma FadeLooks(v: Variant, v': Variant, p: Point, d: Direction)
    requires Looks(v, v')
    ensures Looks(FadeAt(v, p, d), FadeAt(v', p, d)) && TablesStay(v.base, FadeAt(v, p, d).base)
  {
    hide Deducted, Reduced, WeightOf, TeamOf, Faded;
    DebitLooks(v.base.worms, v'.base.worms, CellAt(v.base.territories, p).owner);
  }

  lemma DropLooks(v: Variant, v': Variant, e: Edge)
    requires Looks(v, v')
    ensures Looks(Dropped(v, e), Dropped(v', e)) && TablesStay(v.base, Dropped(v, e).base)
    ensures Dropped(v', e).base.board == Dropped(v, e).base.board == v.base.board == v'.base.board
  {
  }

  lemma UnlayLooks(v: Variant, v': Variant, e: Edge)
    requires Looks(v, v')
    ensures Looks(Unlay(v, e), Unlay(v', e)) && TablesStay(v.base, Unlay(v, e).base)
  {
    hide Looks, FadeAt, HeadingTo, Dropped, TablesStay;
    DropLooks(v, v', e);
    var a, b := HeadingTo(v.base.board, e.a, e.b), HeadingTo(v.base.board, e.b, e.a);
    var u, u' := Dropped(v, e), Dropped(v', e);
    FadeLooks(u, u', e.a, a);
    FadeLooks(FadeAt(u, e.a, a), FadeAt(u', e.a, a), e.b, b);
    StayTwice(v.base, u.base, FadeAt(u, e.a, a).base);
    StayTwice(v.base, FadeAt(u, e.a, a).base, Unlay(v, e).base);
  }

  lemma {:induction false} WithoutLooks(v: Variant, v': Variant, es: set<Edge>)
    requires Looks(v, v')
    ensures Looks(Without(v, es), Without(v', es)) && TablesStay(v.base, Without(v, es).base)
    decreases |es|
  {
    hide Looks, Unlay, TablesStay;
    if es == {} {
      StayPut(v.base);
    } else {
      var e := Pick(es);
      WithoutLooks(v, v', es - {e});
      UnlayLooks(Without(v, es - {e}), Without(v', es - {e}), e);
      StayTwice(v.base, Without(v, es - {e}).base, Without(v, es).base);
    }
  }

  lemma ExpiredLooks(v: Variant, v': Variant)
    requires Looks(v, v')
    ensures Looks(Expired(v), Expired(v')) && TablesStay(v.base, Expired(v).base)
  {
    hide Without;
    assert Due(v') == Due(v);
    WithoutLooks(v, v', Due(v));
  }

  // ----- legality

  lemma LegalLooks(v: Variant, v': Variant, id: Id, h: Heading)
    requires Looks(v, v')
    ensures Legal(v', id, h) == Legal(v, id, h)
  {
    hide MaskAt, Neighbor, NewEdge, HasWorm, View;
    SameGround(v.base, v'.base);
    IndexView(v.base.worms, v'.base.worms, id);
    var i := WormIndex(v.base.worms, id);
    if i >= 0 && h.Some? {
      var from := v.base.worms[i].position;
      assert Alike(v.base.worms[i], v'.base.worms[i]);
      MaskView(v.base, v'.base, from);
      HasWormView(v.base, v'.base, Neighbor(v.base.board, from, h.value));
    }
  }

  lemma {:induction false} LegalFromLooks(v: Variant, v': Variant, id: Id, dirs: seq<Direction>)
    requires Looks(v, v')
    ensures LegalFrom(v', id, dirs) == LegalFrom(v, id, dirs)
    decreases |dirs|
  {
    hide Legal, Looks;
    if dirs == [] {
    } else {
      LegalLooks(v, v', id, Some(dirs[0]));
      LegalFromLooks(v, v', id, dirs[1..]);
    }
  }

  lemma MovesLook(v: Variant, v': Variant, id: Id)
    requires Looks(v, v')
    ensures Moves(v', id) == Moves(v, id)
  {
    LegalFromLooks(v, v', id, DIRECTIONS);
  }

  // ----- a move

  lemma DrainedLooks(v: Variant, v': Variant, i: nat, id: Id)
    requires Looks(v, v') && i < |v.base.worms|
    ensures Looks(Drained(v, i, id), Drained(v', i, id)) && TablesStay(v.base, Drained(v, i, id).base)
  {
    hide View, Exhausted, TablesStay;
    SameGround(v.base, v'.base);
    ExhaustedLooks(v.base, v'.base, i);
    assert TablesStay(v.base, v.base) by { StayPut(v.base); }
  }

  lemma StayPut(c: Core)
    ensures TablesStay(c, c)
  {
  }

  lemma FallLooks(c: Core, c': Core, i: nat)
    requires View(c, c') && i < |c.worms|
    ensures View(Fall(c, i), Fall(c', i)) && TablesStay(c, Fall(c, i))
    ensures AliveSlots(Fall(c', i).worms) == AliveSlots(Fall(c, i).worms)
  {
    assert forall j :: 0 <= j < |c.worms| ==> Alike(c.worms[j], c'.worms[j]);
  }

  lemma ExhaustedLooks(c: Core, c': Core, i: nat)
    requires View(c, c') && i < |c.worms|
    ensures View(Exhausted(c, i), Exhausted(c', i)) && TablesStay(c, Exhausted(c, i))
  {
    hide Fall, AliveSlots;
    FallLooks(c, c', i);
  }

  lemma ScoredLooks(v: Variant, v': Variant, c: Core, c': Core, id: Id, log: seq<Draft>)
    requires Looks(v, v') && View(c, c')
    ensures Looks(Scored(v, c, id, log), Scored(v', c', id, log))
  {
    hide View, CaptureWeight;
  }

  lemma DatedLooks(v: Variant, v': Variant, e: Edge)
    requires Looks(v, v')
    ensures Looks(Dated(v, e), Dated(v', e)) && Dated(v, e).base == v.base
  {
  }

  lemma CreditedLooks(v: Variant, v': Variant, id: Id, delta: int)
    requires Looks(v, v')
    ensures Looks(Credited(v, id, delta), Credited(v', id, delta)) && Credited(v, id, delta).base == v.base
  {
  }

  lemma DeltaLooks(v: Variant, v': Variant, i: nat, r: Done, r': Done)
    requires Looks(v, v') && i < |v.base.worms| == |r.core.worms| && View(r.core, r'.core) && r'.log == r.log
    ensures Delta(v', i, r') == Delta(v, i, r)
  {
    hide CaptureWeight, Captured;
    assert Alike(v.base.worms[i], v'.base.worms[i]) && Alike(r.core.worms[i], r'.core.worms[i]);
  }

  lemma StayTwice(a: Core, b: Core, c: Core)
    requires TablesStay(a, b) && TablesStay(b, c)
    ensures TablesStay(a, c)
  {
  }

  lemma PlayedLooks(v: Variant, v': Variant, i: nat, d: Direction, r: Done, r': Done)
    requires Looks(v, v') && i < |v.base.worms| == |r.core.worms| && View(r.core, r'.core) && r'.log == r.log
    requires TablesStay(v.base, r.core)
    ensures Looks(Played(v, i, d, r), Played(v', i, d, r')) && TablesStay(v.base, Played(v, i, d, r).base)
  {
    hide Looks, View, Scored, Drained, Dated, NewEdge, Neighbor, TablesStay;
    assert v'.base.board == v.base.board && v'.base.worms[i].id == v.base.worms[i].id
           && v'.base.worms[i].position == v.base.worms[i].position by { SameMover(v, v', i); }
    var id := v.base.worms[i].id;
    var s, s' := Scored(v, r.core, id, r.log), Scored(v', r'.core, id, r.log);
    ScoredLooks(v, v', r.core, r'.core, id, r.log);
    ScoredBase(v, r.core, id, r.log);
    ScoredBase(v', r'.core, id, r.log);
    SameGround(r.core, r'.core);
    DrainedLooks(s, s', i, id);
    StayTwice(v.base, r.core, Drained(s, i, id).base);
    DatedLooks(Drained(s, i, id), Drained(s', i, id), EdgeFrom(v.base.board, v.base.worms[i].position, d));
  }

  lemma ScoredBase(v: Variant, c: Core, id: Id, log: seq<Draft>)
    ensures Scored(v, c, id, log).base == c
  {
  }

  lemma SameMover(v: Variant, v': Variant, i: nat)
    requires Looks(v, v') && i < |v.base.worms|
    ensures v'.base.board == v.base.board && |v'.base.worms| == |v.base.worms|
    ensures Alike(v.base.worms[i], v'.base.worms[i])
  {
  }

  lemma CompletedLooks(v: Variant, v': Variant, i: nat, d: Direction, r: Done, r': Done)
    requires Looks(v, v') && i < |v.base.worms| == |r.core.worms| && View(r.core, r'.core) && r'.log == r.log
    requires TablesStay(v.base, r.core)
    ensures |r'.core.worms| == |v'.base.worms| && i < |v'.base.worms|
    ensures Looks(Completed(v, i, d, r), Completed(v', i, d, r')) && TablesStay(v.base, Completed(v, i, d, r).base)
  {
    hide Looks, View, Played, Expired, Credited, Delta, TablesStay;
    assert |r'.core.worms| == |r.core.worms| by { SameGround(r.core, r'.core); }
    SameMover(v, v', i);
    PlayedLooks(v, v', i, d, r, r');
    DeltaLooks(v, v', i, r, r');
    var p, p' := Played(v, i, d, r), Played(v', i, d, r');
    ExpiredLooks(p, p');
    StayTwice(v.base, p.base, Expired(p).base);
    CreditedLooks(Expired(p), Expired(p'), v.base.worms[i].id, Delta(v, i, r));
  }

  /** A move of the variant goes the same way, and touches no tables. */
  lemma ApplyLooks(v: Variant, v': Variant, id: Id, h: Heading)
    requires Looks(v, v')
    ensures var a, a' := VariantMoves.Apply(v, id, h), VariantMoves.Apply(v', id, h);
      Looks(a.after, a'.after) && a'.result == a.result && TablesStay(v.base, a.after.base)
  {
    hide Looks, View, Expired, Legal, Completed, Step, TablesStay;
    var u, u' := Expired(v), Expired(v');
    ExpiredLooks(v, v');
    LegalLooks(u, u', id, h);
    if Legal(u, id, h) {
      assert View(u.base, u'.base) && 0 <= WormIndex(u.base.worms, id) && h.Some? by { LegalMover(u, u', id, h); }
      SameGround(u.base, u'.base);
      IndexView(u.base.worms, u'.base.worms, id);
      StepView(u.base, u'.base, id, h);
      if Step(u.base, id, h).Ok? {
        var r, r' := Step(u.base, id, h).value, Step(u'.base, id, h).value;
        assert TablesStay(u.base, r.core) by { StepStays(u.base, id, h); }
        CompletedLooks(u, u', WormIndex(u.base.worms, id), h.value, r, r');
        StayTwice(v.base, u.base, Completed(u, WormIndex(u.base.worms, id), h.value, r).base);
      }
    }
  }

  lemma StepStays(c: Core, id: Id, h: Heading)
    requires Step(c, id, h).Ok?
    ensures TablesStay(c, Step(c, id, h).value.core)
  {
    hide Step;
    StepKeepsTables(c, id, h);
  }

  lemma LegalMover(v: Variant, v': Variant, id: Id, h: Heading)
    requires Looks(v, v') && Legal(v, id, h)
    ensures View(v.base, v'.base) && 0 <= WormIndex(v.base.worms, id) && h.Some?
  {
    hide Passable;
  }

  // ----- the automatic choice

  lemma WorthLooks(v: Variant, v': Variant, id: Id, d: Direction)
    requires Looks(v, v')
    ensures Worth(v', id, d) == Worth(v, id, d)
  {
    hide VariantMoves.Apply, Moves, View;
    ApplyLooks(v, v', id, Some(d));
    MovesLook(VariantMoves.Apply(v, id, Some(d)).after, VariantMoves.Apply(v', id, Some(d)).after, id);
  }

  lemma {:induction false} CompareLooks(v: Variant, v': Variant, id: Id, legal: seq<Direction>, best: int,
                                        ties: seq<Direction>)
    requires Looks(v, v')
    ensures Compare(v', id, legal, best, ties) == Compare(v, id, legal, best, ties)
    decreases |legal|
  {
    hide VariantMoves.Apply, Worth, Looks, TablesStay;
    if legal == [] {
    } else {
      ApplyLooks(v, v', id, Some(legal[0]));
      WorthLooks(v, v', id, legal[0]);
      CompareLooks(v, v', id, legal[1..], Worth(v, id, legal[0]), [legal[0]]);
      CompareLooks(v, v', id, legal[1..], best, ties + [legal[0]]);
      CompareLooks(v, v', id, legal[1..], best, ties);
    }
  }

  lemma ChooseLooks(v: Variant, v': Variant, slot: nat, legal: seq<Direction>)
    requires Looks(v, v') && slot < |v.base.worms| && legal != []
    ensures slot < |v'.base.worms| && Choose(v', slot, legal) == Choose(v, slot, legal)
  {
    hide Compare, Pick64, View;
    SameMover(v, v', slot);
    SameGround(v.base, v'.base);
    SameEmission(v.base, v'.base);
    CompareLooks(v, v', v.base.worms[slot].id, legal, LOWEST, []);
  }

  // ----- turns

  /** Both turns end alike, and each has touched no tables but its slot's. */
  ghost predicate SameServed(v: Variant, v': Variant, slot: nat, r: Served, r': Served) {
    match (r, r')
    case (GoesOn(u, log), GoesOn(u', log')) =>
      log' == log && LooksAt(u, u', slot) && OthersKept(v.base, u.base, slot) && OthersKept(v'.base, u'.base, slot)
    case (Fails(why), Fails(why')) => why == why'
    case (Stalls(u, log), Stalls(u', log')) =>
      && u.base.pending.Some? && u'.base.pending.Some?
      && u == OnBase(v, v.base.(pending := u.base.pending)) && u' == OnBase(v', v'.base.(pending := u'.base.pending))
      && u'.base.pending.value == u.base.pending.value.(request := u'.base.pending.value.request)
    case _ => false
  }

  /** A change of the slot's worm is the same on both sides. */
  lemma EditLooks(v: Variant, v': Variant, slot: nat, w: Worm)
    requires LooksAt(v, v', slot)
    ensures var c, c' := WithWorm(v.base, slot, w), WithWorm(v'.base, slot, w);
      && LooksAt(OnBase(v, c), OnBase(v', c'), slot)
      && OthersKept(v.base, c, slot) && OthersKept(v'.base, c', slot)
  {
    hide View;
    EditView(v.base, v'.base, slot, w);
  }

  /** A worm whose tables nobody has touched is still the same on both sides. */
  lemma StillAt(v: Variant, v': Variant, u: Variant, u': Variant, slot: nat)
    requires LooksAt(v, v', slot) && Looks(u, u') && TablesStay(v.base, u.base) && TablesStay(v'.base, u'.base)
    ensures LooksAt(u, u', slot)
  {
    SameMover(u, u', slot);
    assert SameTables(v.base.worms[slot], u.base.worms[slot]) && SameTables(v'.base.worms[slot], u'.base.worms[slot]);
  }

  lemma PlayLooks(v: Variant, v': Variant, slot: nat, m: Mask, d: Direction)
    requires LooksAt(v, v', slot)
    ensures SameServed(v, v', slot, Play(v, slot, m, d), Play(v', slot, m, d))
  {
    hide VariantMoves.Apply, View;
    var c, c' := Count(v.base, slot, m), Count(v'.base, slot, m);
    EditLooks(v, v', slot, c.worms[slot]);
    var id := v.base.worms[slot].id;
    var u, u' := OnBase(v, c), OnBase(v', c');
    ApplyLooks(u, u', id, Some(d));
    LooksSame(u');
    ApplyLooks(u', u', id, Some(d));
    var a, a' := VariantMoves.Apply(u, id, Some(d)), VariantMoves.Apply(u', id, Some(d));
    StillAt(u, u', a.after, a'.after, slot);
    KeptAgain(v.base, c, a.after.base, slot);
    KeptAgain(v'.base, c', a'.after.base, slot);
    SameEmission(c, c');
  }

  lemma LooksSame(v: Variant)
    ensures Looks(v, v)
  {
  }

  lemma AutomaticLooks(v: Variant, v': Variant, slot: nat, m: Mask, legal: seq<Direction>)
    requires LooksAt(v, v', slot) && legal != []
    ensures SameServed(v, v', slot, PlayAutomatic(v, slot, m, legal), PlayAutomatic(v', slot, m, legal))
  {
    hide Play, Choose, View;
    ChooseLooks(v, v', slot, legal);
    var d := Choose(v, slot, legal);
    if v.base.worms[slot].frozen {
      PlayLooks(v, v', slot, m, d);
    } else {
      var c, c' := Learn(v.base, slot, m, Go(d)), Learn(v'.base, slot, m, Go(d));
      EditLooks(v, v', slot, c.worms[slot]);
      PlayLooks(OnBase(v, c), OnBase(v', c'), slot, m, d);
      var r, r' := Play(OnBase(v, c), slot, m, d), Play(OnBase(v', c'), slot, m, d);
      if r.GoesOn? {
        KeptAgain(v.base, c, r.state.base, slot);
        KeptAgain(v'.base, c', r'.state.base, slot);
        SameEmission(v.base, v'.base);
      }
    }
  }

  lemma FollowLooks(v: Variant, v': Variant, slot: nat, m: Mask, legal: seq<Direction>, a: Action)
    requires LooksAt(v, v', slot) && legal != []
    ensures SameServed(v, v', slot, Follow(v, slot, m, legal, a), Follow(v', slot, m, legal, a))
  {
    hide Play, Choose, View;
    if a.Go? && a.dir in legal {
      PlayLooks(v, v', slot, m, a.dir);
    } else {
      ChooseLooks(v, v', slot, legal);
      PlayLooks(v, v', slot, m, Choose(v, slot, legal));
    }
  }

  lemma IdleLooks(v: Variant, v': Variant, slot: nat)
    requires LooksAt(v, v', slot)
    ensures SameServed(v, v', slot, GoesOn(v, []), GoesOn(v', []))
  {
    hide View;
  }

  lemma DeathLooks(v: Variant, v': Variant, slot: nat, body: Body)
    requires LooksAt(v, v', slot)
    ensures SameServed(v, v', slot, GoesOn(OnBase(v, Fall(v.base, slot)), [Emit(v.base, body)]),
                       GoesOn(OnBase(v', Fall(v'.base, slot)), [Emit(v'.base, body)]))
  {
    hide View;
    EditLooks(v, v', slot, v.base.worms[slot].(alive := false, crix := None));
    SameEmission(v.base, v'.base);
  }

  lemma AwaitLooks(v: Variant, v': Variant, slot: nat, m: Mask, n: nat, n': nat)
    requires LooksAt(v, v', slot)
    ensures var s, s' := AwaitDecision(v.base, slot, m, n), AwaitDecision(v'.base, slot, m, n');
      SameServed(v, v', slot, Stalls(OnBase(v, s.core), s.log), Stalls(OnBase(v', s'.core), s'.log))
  {
    hide View;
  }

  lemma ServeLooks(v: Variant, v': Variant, slot: nat, n: nat, n': nat)
    requires LooksAt(v, v', slot)
    ensures SameServed(v, v', slot, ServeTurn(v, slot, n), ServeTurn(v', slot, n'))
  {
    hide Play, PlayAutomatic, Follow, View, Choose, Moves, MaskAt, SameServed, AwaitDecision, Fall;
    var w := v.base.worms[slot];
    var m := MaskAt(v.base, w.position);
    var legal := Moves(v, w.id);
    MovesLook(v, v', w.id);
    assert MaskAt(v'.base, w.position) == m by { MaskView(v.base, v'.base, w.position); }
    if !w.alive {
      IdleLooks(v, v', slot);
    } else if legal == [] {
      DeathLooks(v, v', slot, WormBlocked(w.id, w.position));
    } else {
      match RuleAt(w, m)
      case GetNew => AwaitLooks(v, v', slot, m, n, n');
      case DoAI => AutomaticLooks(v, v', slot, m, legal);
      case Die => DeathLooks(v, v', slot, WormDied(w.id, w.position));
      case a => FollowLooks(v, v', slot, m, legal, a);
    }
  }
}
