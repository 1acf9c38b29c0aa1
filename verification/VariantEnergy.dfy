/**
 * Runs of a variant game: energy pays for every move and bounds the run, and what was in order at the start stays so.
 */
module VariantEnergy {
  import opened Geometry
  import opened HalfEdges
  import opened Engine
  import opened Ledger
  import opened Rounds
  import opened Variants
  import opened VariantMoves
  import opened VariantRounds
  import opened VariantRuns
  import opened Wrappers

  /** No worm has more energy than the limit, and every live worm has some. */
  ghost predicate Energetic(v: Variant) {
    && (v.setup.limit == 0 ==> v.energy == map[])
    && (v.setup.limit > 0 ==>
          && v.energy.Keys == Ids(v.base.worms)
          && (forall id :: id in v.energy ==> 0 <= v.energy[id] <= v.setup.limit)
          && forall i :: 0 <= i < |v.base.worms| && v.base.worms[i].alive ==> ValueAt(v.energy, v.base.worms[i].id) > 0)
  }

  /** The invariant of a variant game. */
  ghost predicate Good(v: Variant) {
    Books(v) && Window(v) && Energetic(v) && (v.base.over ==> AliveSlots(v.base.worms) == {})
  }

  /** Energy and lives together: what a game still has to spend. */
  ghost function Fuel(v: Variant): int {
    Total(v.energy, v.energy.Keys) + |AliveSlots(v.base.worms)|
  }

  /** How often a list of events says that a worm moved. */
  function MovesIn(log: seq<Draft>, id: Id): nat {
    if log == [] then 0
    else
      var body := log[|log| - 1].body;
      MovesIn(log[..|log| - 1], id) + if body.WormMoved? && body.worm == id then 1 else 0
  }

  ghost predicate NobodyRises(ws: seq<Worm>, ws': seq<Worm>) {
    |ws'| == |ws| && forall i :: 0 <= i < |ws| && ws'[i].alive ==> ws[i].alive
  }

  /** Every move in the log has been paid for with one unit of its worm's energy. */
  ghost predicate Paid(v: Variant, log: seq<Draft>, v': Variant) {
    && v'.setup == v.setup && SameIdList(v.base.worms, v'.base.worms) && NobodyRises(v.base.worms, v'.base.worms)
    && v'.energy.Keys == v.energy.Keys && Fuel(v') <= Fuel(v)
    && forall id :: id in v.energy ==>
         v'.energy[id] == v.energy[id] - if v.setup.limit > 0 then MovesIn(log, id) else 0
  }

  /** Who is not in debt stays out of it. */
  ghost predicate NoNewDebt(m: map<Id, int>, m': map<Id, int>) {
    forall id :: id in m && m[id] >= 0 ==> id in m' && m'[id] >= 0
  }

  /** What was in order stays in order, each thing for itself. */
  ghost predicate Keeps(v: Variant, v': Variant) {
    && (Books(v) ==> Books(v'))
    && (Window(v) ==> Window(v'))
    && (Energetic(v) && UniqueIds(v.base.worms) ==> Energetic(v'))
    && NoNewDebt(v.energy, v'.energy)
    && (v'.base.over ==> v.base.over || AliveSlots(v'.base.worms) == {})
  }

  ghost predicate Follows(v: Variant, log: seq<Draft>, v': Variant) {
    Paid(v, log, v') && Keeps(v, v')
  }

  // ----- counting moves

  lemma {:induction false} MovesConcat(a: seq<Draft>, b: seq<Draft>, id: Id)
    ensures MovesIn(a + b, id) == MovesIn(a, id) + MovesIn(b, id)
    decreases |b|
  {
    if b == [] {
      assert a + b == a;
    } else {
      MovesConcat(a, b[..|b| - 1], id);
      assert (a + b)[..|a + b| - 1] == a + b[..|b| - 1];
    }
  }

  lemma MovesOfOne(e: Draft, id: Id)
    ensures MovesIn([e], id) == if e.body.WormMoved? && e.body.worm == id then 1 else 0
  {
    assert [e][..0] == [];
  }

  lemma {:induction false} NoMoves(log: seq<Draft>, id: Id)
    requires forall k :: 0 <= k < |log| ==> !log[k].body.WormMoved?
    ensures MovesIn(log, id) == 0
    decreases |log|
  {
    if log == [] {
    } else {
      NoMoves(log[..|log| - 1], id);
    }
  }

  lemma SplitAt(log: seq<Draft>, k: nat)
    requires k < |log|
    ensures log == log[..k] + [log[k]] + log[k + 1..]
  {
  }

  /** A move reports itself once. */
  lemma MovesOfMove(c: Core, i: nat, d: Direction, id: Id)
    requires i < |c.worms|
    ensures MovesIn(Move(c, i, d).log, id) == if id == c.worms[i].id then 1 else 0
  {
    hide MovesIn, Neighbor, Settle, Refreshed;
    var log := Move(c, i, d).log;
    var k := if log[|log| - 1].body.WormDied? then |log| - 2 else |log| - 1;
    SplitAt(log, k);
    MovesConcat(log[..k], [log[k]], id);
    MovesConcat(log[..k] + [log[k]], log[k + 1..], id);
    NoMoves(log[..k], id);
    NoMoves(log[k + 1..], id);
    MovesOfOne(log[k], id);
  }

  lemma PaidTwice(a: Variant, log: seq<Draft>, b: Variant, log': seq<Draft>, c: Variant)
    requires Paid(a, log, b) && Paid(b, log', c)
    ensures Paid(a, log + log', c)
  {
    hide MovesIn, Fuel;
    forall id ensures MovesIn(log + log', id) == MovesIn(log, id) + MovesIn(log', id) { MovesConcat(log, log', id); }
  }

  lemma FollowsTwice(a: Variant, log: seq<Draft>, b: Variant, log': seq<Draft>, c: Variant)
    requires Follows(a, log, b) && Follows(b, log', c)
    ensures Follows(a, log + log', c)
  {
    hide MovesIn, Fuel, Books, Window, Energetic;
    PaidTwice(a, log, b, log', c);
  }

  lemma FollowsNothing(v: Variant)
    ensures Follows(v, [], v)
  {
    hide Fuel, Books, Window, Energetic;
  }

  // ----- one move

  lemma AliveAfterPlay(v: Variant, i: nat, v': Variant)
    requires PlayEffect(v, i, v') && v.base.worms[i].alive
    ensures |AliveSlots(v'.base.worms)| <= |AliveSlots(v.base.worms)|
  {
    assert AliveSlots(v'.base.worms) <= AliveSlots(v.base.worms);
    SubsetSize(AliveSlots(v'.base.worms), AliveSlots(v.base.worms));
  }

  lemma EnergyAfterPlay(v: Variant, i: nat, v': Variant)
    requires PlayEffect(v, i, v') && HasEnergy(v, v.base.worms[i].id)
    ensures v'.energy.Keys == v.energy.Keys && NoNewDebt(v.energy, v'.energy)
  {
    hide AliveSlots;
    if v.setup.limit > 0 {
      assert v.base.worms[i].id in v.energy;
    }
  }

  lemma EnergyStaysValid(v: Variant, i: nat, v': Variant)
    requires PlayEffect(v, i, v') && v.base.worms[i].alive && HasEnergy(v, v.base.worms[i].id)
    requires Energetic(v) && UniqueIds(v.base.worms) && v'.energy.Keys == v.energy.Keys
    ensures Energetic(v')
  {
    hide AliveSlots, Ids;
    SameIdSet(v.base.worms, v'.base.worms);
    if v.setup.limit > 0 {
      forall j | 0 <= j < |v.base.worms| && v'.base.worms[j].alive ensures ValueAt(v'.energy, v'.base.worms[j].id) > 0 {
        if j == i {
          assert ValueAt(v.energy, v.base.worms[i].id) != 1;
        } else {
          assert v.base.worms[j].alive && v.base.worms[j].id != v.base.worms[i].id;
        }
      }
    }
  }

  lemma FuelAfterPlay(v: Variant, i: nat, v': Variant)
    requires PlayEffect(v, i, v') && v.base.worms[i].alive && HasEnergy(v, v.base.worms[i].id)
    requires v'.energy.Keys == v.energy.Keys
    ensures Fuel(v') <= Fuel(v) && (v.setup.limit > 0 ==> Fuel(v') < Fuel(v))
  {
    hide AliveSlots;
    AliveAfterPlay(v, i, v');
    if v.setup.limit > 0 {
      var id := v.base.worms[i].id;
      TotalChange(v.energy, v.energy.Keys, id, ValueAt(v.energy, id) - 1);
    }
  }

  /** A step that pays for its moves, keeps what was in order, and, where energy is limited, uses some up. */
  ghost predicate Spends(v: Variant, log: seq<Draft>, v': Variant) {
    && Follows(v, log, v')
    && v'.base.pending == v.base.pending
    && (v.setup.limit > 0 ==> Fuel(v') < Fuel(v))
  }

  lemma ApplySpends(v: Variant, id: Id, h: Heading)
    requires Apply(v, id, h).result.Ok?
    ensures Spends(v, Apply(v, id, h).result.value, Apply(v, id, h).after)
  {
    hide Books, Window, Apply, Expired, Move, NewEdge, Neighbor, LaterOf, PlayEffect,
        AliveSlots, Energetic, Paid, HasEnergy, SameButScore, WormIndex, NoNewDebt;
    var v1, v' := Expired(v), Apply(v, id, h).after;
    if Books(v) { ApplyKeepsBooks(v, id, h); }
    if Window(v) { WindowSlides(v, id, h); }
    ApplyEffect(v, id, h);
    ExpiredFrame(v);
    var i := WormIndex(v1.base.worms, id);
    ExpiredEnergy(v, v1);
    EnergyAfterPlay(v1, i, v');
    if Energetic(v) && UniqueIds(v.base.worms) { EnergyStaysValid(v1, i, v'); }
    FuelAfterPlay(v1, i, v');
    PaidForMove(v1, i, h.value, v');
    OverAfterPlay(v1, i, v');
    PaidAcross(v, v1, Apply(v, id, h).result.value, v');
  }

  lemma NotOverBefore(v: Variant, id: Id, h: Heading)
    requires Apply(v, id, h).result.Ok?
    ensures !v.base.over
  {
    hide Legal, Expired;
    AppliedExactly(v, id, h);
  }

  lemma ExpiredEnergy(v: Variant, w: Variant)
    requires w.setup == v.setup && w.energy == v.energy && SameButScore(v.base.worms, w.base.worms)
    ensures Energetic(v) ==> Energetic(w)
    ensures UniqueIds(v.base.worms) ==> UniqueIds(w.base.worms)
    ensures Fuel(w) == Fuel(v)
    ensures SameIdList(v.base.worms, w.base.worms) && NobodyRises(v.base.worms, w.base.worms)
  {
    AliveIgnoresScores(v.base.worms, w.base.worms);
    SameIdSet(v.base.worms, w.base.worms);
  }

  lemma PaidForMove(v: Variant, i: nat, d: Direction, v': Variant)
    requires PlayEffect(v, i, v') && Fuel(v') <= Fuel(v) && v.base.worms[i].alive
    requires v'.energy.Keys == v.energy.Keys && HasEnergy(v, v.base.worms[i].id)
    ensures Paid(v, Move(v.base, i, d).log, v')
  {
    hide MovesIn, Move, Fuel, AliveSlots;
    forall id ensures MovesIn(Move(v.base, i, d).log, id) == if id == v.base.worms[i].id then 1 else 0 {
      MovesOfMove(v.base, i, d, id);
    }
  }

  lemma OverAfterPlay(v: Variant, i: nat, v': Variant)
    requires PlayEffect(v, i, v')
    ensures v'.base.over ==> v.base.over || AliveSlots(v'.base.worms) == {}
    ensures v'.base.pending == v.base.pending && v'.setup == v.setup
  {
  }

  lemma PaidAcross(v: Variant, w: Variant, log: seq<Draft>, v': Variant)
    requires w.setup == v.setup && w.energy == v.energy && Fuel(w) == Fuel(v) && SameIdList(v.base.worms, w.base.worms)
    requires NobodyRises(v.base.worms, w.base.worms) && Paid(w, log, v')
    ensures Paid(v, log, v')
  {
    hide Fuel, MovesIn;
  }

  // ----- changes to the engine's part alone

  /** Taught rules, counted uses, deaths and the controller's own fields leave everything in order. */
  lemma FrameFollows(v: Variant, c: Core, log: seq<Draft>)
    requires SameLedger(v.base, c) && (c.over ==> v.base.over || AliveSlots(c.worms) == {})
    requires forall k :: 0 <= k < |log| ==> !log[k].body.WormMoved?
    ensures Follows(v, log, OnBase(v, c))
    ensures |AliveSlots(c.worms)| < |AliveSlots(v.base.worms)| ==> Fuel(OnBase(v, c)) < Fuel(v)
  {
    hide Books, MovesIn, Fuel, Energetic;
    if Books(v) { BooksFrame(v, c); }
    forall id ensures MovesIn(log, id) == 0 { NoMoves(log, id); }
    FuelFrame(v, c);
    if Energetic(v) { EnergyFrame(v, c); }
  }

  lemma FuelFrame(v: Variant, c: Core)
    requires SameLedger(v.base, c)
    ensures Fuel(OnBase(v, c)) == Fuel(v) - |AliveSlots(v.base.worms)| + |AliveSlots(c.worms)|
    ensures |AliveSlots(c.worms)| <= |AliveSlots(v.base.worms)|
  {
    assert AliveSlots(c.worms) <= AliveSlots(v.base.worms);
    SubsetSize(AliveSlots(c.worms), AliveSlots(v.base.worms));
  }

  lemma EnergyFrame(v: Variant, c: Core)
    requires Energetic(v) && SameLedger(v.base, c)
    ensures Energetic(OnBase(v, c))
  {
    hide AliveSlots;
    SameIdSet(v.base.worms, c.worms);
  }

  lemma FallFuel(c: Core, slot: nat)
    requires slot < |c.worms| && c.worms[slot].alive
    ensures SameLedger(c, Fall(c, slot)) && |AliveSlots(Fall(c, slot).worms)| < |AliveSlots(c.worms)|
    ensures Fall(c, slot).over == c.over && Fall(c, slot).pending == c.pending && Fall(c, slot).round == c.round
  {
    assert AliveSlots(Fall(c, slot).worms) == AliveSlots(c.worms) - {slot};
  }

  lemma FallSpends(v: Variant, slot: nat, e: Draft)
    requires slot < |v.base.worms| && v.base.worms[slot].alive && !e.body.WormMoved?
    ensures Spends(v, [e], OnBase(v, Fall(v.base, slot)))
  {
    hide SameLedger, Fall, Follows, Fuel;
    FallFuel(v.base, slot);
    FrameFollows(v, Fall(v.base, slot), [e]);
  }

  // ----- turns

  lemma SpendsAfter(v: Variant, c: Core, log: seq<Draft>, log': seq<Draft>, v': Variant)
    requires Follows(v, log, OnBase(v, c)) && Spends(OnBase(v, c), log', v') && c.pending == v.base.pending
    ensures Spends(v, log + log', v')
  {
    hide Fuel, MovesIn, Keeps;
    FollowsTwice(v, log, OnBase(v, c), log', v');
  }

  lemma PlaySpends(v: Variant, slot: nat, m: Mask, d: Direction)
    requires slot < |v.base.worms|
    ensures var r := Play(v, slot, m, d); r.GoesOn? ==> Spends(v, r.log, r.state)
  {
    hide Follows, Spends, Apply, Move;
    var counted := Count(v.base, slot, m);
    var used := [UseEvent(counted, slot, m, Go(d))];
    assert SameLedger(v.base, counted);
    FrameFollows(v, counted, used);
    var a := Apply(OnBase(v, counted), v.base.worms[slot].id, Some(d));
    if a.result.Ok? {
      ApplySpends(OnBase(v, counted), v.base.worms[slot].id, Some(d));
      SpendsAfter(v, counted, used, a.result.value, a.after);
    }
  }

  lemma AutomaticSpends(v: Variant, slot: nat, m: Mask, legal: seq<Direction>)
    requires slot < |v.base.worms| && legal != []
    ensures var r := PlayAutomatic(v, slot, m, legal); r.GoesOn? ==> Spends(v, r.log, r.state)
  {
    hide Follows, Spends, Play, Choose;
    var d := Choose(v, slot, legal);
    PlaySpends(v, slot, m, d);
    var learned := Learn(v.base, slot, m, Go(d));
    var news := [Emit(v.base, RuleLearned(v.base.worms[slot].id, slot, m, Go(d), "auto"))];
    assert SameLedger(v.base, learned);
    FrameFollows(v, learned, news);
    PlaySpends(OnBase(v, learned), slot, m, d);
    var r := Play(OnBase(v, learned), slot, m, d);
    if r.GoesOn? {
      SpendsAfter(v, learned, news, r.log, r.state);
    }
  }

  lemma FollowSpends(v: Variant, slot: nat, m: Mask, legal: seq<Direction>, a: Action)
    requires slot < |v.base.worms| && legal != []
    ensures var r := Follow(v, slot, m, legal, a); r.GoesOn? ==> Spends(v, r.log, r.state)
  {
    hide Spends, Play, Choose;
    if a.Go? {
      PlaySpends(v, slot, m, a.dir);
    }
    PlaySpends(v, slot, m, Choose(v, slot, legal));
  }

  /** A live worm's turn spends something or stalls; a dead worm's turn does nothing. */
  ghost predicate TurnOutcome(v: Variant, slot: nat, r: Served)
    requires slot < |v.base.worms|
  {
    && (r.GoesOn? ==> if v.base.worms[slot].alive then Spends(v, r.log, r.state) else r.state == v && r.log == [])
    && (r.Stalls? ==>
          && Follows(v, r.log, r.state) && r.state.energy == v.energy
          && r.state.base.pending.Some? && r.state.base.pending.value.slot == slot
          && r.state.base.worms == v.base.worms)
  }

  lemma TurnSpends(v: Variant, slot: nat, n: nat)
    requires slot < |v.base.worms|
    ensures TurnOutcome(v, slot, ServeTurn(v, slot, n))
  {
    hide Spends, Follows, Moves, PlayAutomatic, Follow, MaskAt;
    var w := v.base.worms[slot];
    var legal := Moves(v, w.id);
    if w.alive {
      FallSpends(v, slot, Emit(v.base, WormBlocked(w.id, w.position)));
      FallSpends(v, slot, Emit(v.base, WormDied(w.id, w.position)));
      if legal != [] {
        var m := MaskAt(v.base, w.position);
        AutomaticSpends(v, slot, m, legal);
        FollowSpends(v, slot, m, legal, RuleAt(w, m));
        var s := AwaitDecision(v.base, slot, m, n);
        assert SameLedger(v.base, s.core);
        FrameFollows(v, s.core, s.log);
      }
    }
  }

  // ----- rounds

  /** How a round from this slot on ends, stalled or closed. */
  ghost predicate RoundOutcome(v: Variant, slot: nat, f: Finished) {
    && Follows(v, f.log, f.state)
    && (f.state.base.pending.Some? ==> PendingInRange(f.state.base))
    && (f.state.base.pending.None? ==>
          && f.state.base.activeSlot == -1
          && (AliveSlots(f.state.base.worms) == {} ==> f.state.base.over)
          && (v.setup.limit > 0 && AliveFrom(v.base, slot) ==> Fuel(f.state) < Fuel(v)))
  }

  lemma FinishKeeps(v: Variant, slot: nat)
    requires v.base.pending.None? && slot >= |v.base.worms|
    ensures RoundOutcome(v, slot, Finished(OnBase(v, Finish(v.base).core), Finish(v.base).log))
  {
    hide Follows, Fuel;
    var f := Finish(v.base);
    assert SameLedger(v.base, f.core);
    FrameFollows(v, f.core, f.log);
  }

  lemma {:induction false} SlotsSpend(v: Variant, slot: nat, n: nat)
    requires v.base.pending.None? && ServeFrom(v, slot, n).Ok?
    ensures RoundOutcome(v, slot, ServeFrom(v, slot, n).value)
    decreases |v.base.worms| - slot
  {
    hide Follows, ServeTurn, RoundOutcome, TurnOutcome, Fuel, Finish;
    if slot >= |v.base.worms| {
      FinishKeeps(v, slot);
    } else {
      var at := v.base.(activeSlot := slot);
      assert SameLedger(v.base, at);
      FrameFollows(v, at, []);
      var w := OnBase(v, at);
      FuelFrame(v, at);
      TurnSpends(w, slot, n);
      var r := ServeTurn(w, slot, n);
      if r.Stalls? {
        StallEnds(v, slot, w, r);
      } else {
        TurnGoesOn(v, slot, w, r);
        SlotsSpend(r.state, slot + 1, n + |r.log|);
        RestOfRound(v, slot, w, r, ServeFrom(r.state, slot + 1, n + |r.log|).value);
      }
    }
  }

  lemma StallEnds(v: Variant, slot: nat, w: Variant, r: Served)
    requires slot < |v.base.worms| && w == OnBase(v, v.base.(activeSlot := slot)) && Follows(v, [], w)
    requires TurnOutcome(w, slot, r) && r.Stalls?
    ensures RoundOutcome(v, slot, Finished(r.state, r.log))
  {
    hide Follows, AliveSlots, Fuel, Spends;
    FollowsTwice(v, [], w, r.log, r.state);
    assert [] + r.log == r.log;
  }

  lemma TurnGoesOn(v: Variant, slot: nat, w: Variant, r: Served)
    requires slot < |v.base.worms| && v.base.pending.None? && w == OnBase(v, v.base.(activeSlot := slot))
    requires TurnOutcome(w, slot, r) && r.GoesOn?
    ensures r.state.base.pending.None? && |r.state.base.worms| == |v.base.worms|
  {
    hide Keeps, Fuel;
  }

  lemma RestOfRound(v: Variant, slot: nat, w: Variant, r: Served, f: Finished)
    requires slot < |v.base.worms| && w == OnBase(v, v.base.(activeSlot := slot))
    requires Follows(v, [], w) && Fuel(w) == Fuel(v)
    requires TurnOutcome(w, slot, r) && r.GoesOn?
    requires RoundOutcome(r.state, slot + 1, f)
    ensures RoundOutcome(v, slot, Finished(f.state, r.log + f.log))
  {
    hide Keeps, AliveSlots, Fuel, MovesIn;
    FollowsNothing(w);
    FollowsTwice(w, r.log, r.state, f.log, f.state);
    FollowsTwice(v, [], w, r.log + f.log, f.state);
    assert [] + (r.log + f.log) == r.log + f.log;
    if !w.base.worms[slot].alive && AliveFrom(v.base, slot) {
      var i :| slot <= i < |v.base.worms| && v.base.worms[i].alive;
      assert r.state.base.worms[i].alive;
    }
  }

  // ----- calls and whole runs

  datatype Call = CallAdvance | CallSubmit(h: Heading)

  ghost function Exec(v: Variant, n: nat, call: Call): Reply<Finished> {
    match call
    case CallAdvance => Advance(v, n)
    case CallSubmit(h) => Decide(v, n, h)
  }

  /** A round that begins after the first slot may close without serving anyone, but only once. */
  ghost function Late(v: Variant): int {
    if v.base.pending.None? && v.base.activeSlot > 0 then 1 else 0
  }

  ghost function Measure(v: Variant): int {
    3 * Fuel(v) + (if v.base.over then 0 else 1) + (if v.base.pending.None? then 1 else 0) + Late(v)
  }

  /** What a successful call leaves: moves paid, everything in order, and, with limited energy, a smaller measure. */
  ghost predicate CallOutcome(v: Variant, f: Finished) {
    && Follows(v, f.log, f.state)
    && (f.state.base.pending.None? ==> f.state.base.activeSlot == -1)
    && (v.setup.limit > 0 ==> Measure(f.state) < Measure(v))
  }

  lemma AdvanceOutcome(v: Variant, n: nat)
    requires Advance(v, n).Ok?
    ensures CallOutcome(v, Advance(v, n).value)
  {
    hide Follows, ServeFrom, Fuel;
    var start := if v.base.activeSlot >= 0 then v.base.activeSlot else 0;
    SlotsSpend(v, start, n);
    var f := Advance(v, n).value;
    if start == 0 && f.state.base.pending.None? && !AliveFrom(v.base, 0) {
      NobodyLeft(v, f);
    }
    FollowsFuel(v, f);
  }

  lemma FollowsFuel(v: Variant, f: Finished)
    requires Follows(v, f.log, f.state)
    ensures Fuel(f.state) <= Fuel(v) && f.state.setup == v.setup && f.state.energy.Keys == v.energy.Keys
  {
    hide Keeps;
  }

  /** A round that starts without live worms ends without any. */
  lemma NobodyLeft(v: Variant, f: Finished)
    requires !AliveFrom(v.base, 0) && Follows(v, f.log, f.state)
    ensures AliveSlots(f.state.base.worms) == {}
  {
    hide Fuel, Keeps;
  }

  lemma ResolveSpends(v: Variant, d: Direction)
    requires v.base.pending.Some? && PendingInRange(v.base) && Resolve(v, d).Ok?
    ensures var f := Resolve(v, d).value;
      && Follows(v, f.log, f.state) && !v.base.over
      && f.state.base.pending.None? && (v.setup.limit > 0 ==> Fuel(f.state) < Fuel(v))
  {
    hide Fuel, Apply, Move, MovesIn, Keeps;
    var p := v.base.pending.value;
    var w := v.base.worms[p.slot];
    var taught := Taught(v.base, d);
    var news := [Emit(v.base, RuleLearned(w.id, p.slot, p.mask, Go(d), "new")),
        UseEvent(taught, p.slot, p.mask, Go(d))];
    assert SameLedger(v.base, taught);
    FrameFollows(v, taught, news);
    ApplySpends(OnBase(v, taught), w.id, Some(d));
    NotOverBefore(OnBase(v, taught), w.id, Some(d));
    var a := Apply(OnBase(v, taught), w.id, Some(d));
    FollowsTwice(v, news, OnBase(v, taught), a.result.value, a.after);
  }

  lemma DecideOutcome(v: Variant, n: nat, h: Heading)
    requires Decide(v, n, h).Ok?
    ensures CallOutcome(v, Decide(v, n, h).value)
  {
    hide Follows, Fuel, ServeFrom, Resolve, Moves;
    var p := v.base.pending.value;
    ResolveSpends(v, h.value);
    var f := Resolve(v, h.value).value;
    SlotsSpend(f.state, p.slot + 1, n + |f.log|);
    var g := ServeFrom(f.state, p.slot + 1, n + |f.log|).value;
    FollowsTwice(v, f.log, f.state, g.log, g.state);
    FollowsFuel(f.state, g);
  }

  /** Whatever the state: every successful call pays for its moves and, with limited energy, lowers the measure. */
  lemma CallKeeps(v: Variant, n: nat, call: Call)
    requires Exec(v, n, call).Ok?
    ensures CallOutcome(v, Exec(v, n, call).value)
  {
    match call
    case CallAdvance => AdvanceOutcome(v, n);
    case CallSubmit(h) => DecideOutcome(v, n, h);
  }

  ghost function Run(v: Variant, n: nat, calls: seq<Call>): Reply<Finished>
    decreases |calls|
  {
    if calls == [] then Ok(Finished(v, []))
    else
      match Exec(v, n, calls[0])
      case Err(why) => Err(why)
      case Ok(f) => Prefixed(f.log, Run(f.state, n + |f.log|, calls[1..]))
  }

  /** Whatever the start: a run pays for its moves and keeps what was in order; limited energy bounds its length. */
  lemma {:induction false} RunFollows(v: Variant, n: nat, calls: seq<Call>)
    requires Run(v, n, calls).Ok?
    ensures var f := Run(v, n, calls).value;
      && Follows(v, f.log, f.state)
      && (v.setup.limit > 0 ==> |calls| <= Measure(v) - Measure(f.state))
    decreases |calls|
  {
    hide Exec, Follows, Measure;
    if calls == [] {
      FollowsNothing(v);
    } else {
      CallKeeps(v, n, calls[0]);
      var f := Exec(v, n, calls[0]).value;
      RunFollows(f.state, n + |f.log|, calls[1..]);
      var g := Run(f.state, n + |f.log|, calls[1..]).value;
      FollowsTwice(v, f.log, f.state, g.log, g.state);
      FollowsFuel(v, f);
    }
  }

  lemma {:induction false} TotalBounds(m: map<Id, int>, ids: set<Id>, limit: nat)
    requires forall id :: id in ids ==> id in m && 0 <= m[id] <= limit
    ensures 0 <= Total(m, ids) <= limit * |ids|
    decreases |ids|
  {
    if ids == {} {
    } else {
      var id := Pick(ids);
      TotalBounds(m, ids - {id}, limit);
      assert limit * |ids| == limit * |ids - {id}| + limit;
    }
  }

  lemma {:induction false} AliveCount(ws: seq<Worm>)
    ensures |AliveSlots(ws)| <= |ws|
    decreases |ws|
  {
    if ws == [] {
      assert AliveSlots(ws) == {};
    } else {
      var rest := ws[..|ws| - 1];
      AliveCount(rest);
      assert AliveSlots(ws) <= AliveSlots(rest) + {|ws| - 1};
      SubsetSize(AliveSlots(ws), AliveSlots(rest) + {|ws| - 1});
    }
  }

  /** Energy is limited, and nobody has less than none or more than the limit. */
  ghost predicate Limited(v: Variant) {
    v.setup.limit > 0 && forall id :: id in v.energy ==> 0 <= v.energy[id] <= v.setup.limit
  }

  lemma FuelBounds(v: Variant)
    requires Limited(v)
    ensures Fuel(v) <= v.setup.limit * |v.energy| + |v.base.worms|
  {
    hide AliveSlots, Total;
    AliveCount(v.base.worms);
    TotalBounds(v.energy, v.energy.Keys, v.setup.limit);
    assert |v.energy| == |v.energy.Keys|;
  }

  lemma {:induction false} TotalIsNatural(m: map<Id, int>, ids: set<Id>)
    requires forall id :: id in ids ==> id in m && m[id] >= 0
    ensures Total(m, ids) >= 0
    decreases |ids|
  {
    if ids == {} {
    } else {
      TotalIsNatural(m, ids - {Pick(ids)});
    }
  }

  lemma FuelIsNatural(v: Variant)
    requires forall id :: id in v.energy ==> v.energy[id] >= 0
    ensures Fuel(v) >= 0
  {
    TotalIsNatural(v.energy, v.energy.Keys);
  }

  /**
   * With limited energy a run from any state whose energies are within the limit has at most three calls for each
   * unit of energy and each life, two more, and one if it starts after the first slot.
   */
  lemma EnergyBoundsRuns(v: Variant, n: nat, calls: seq<Call>)
    requires Limited(v) && Run(v, n, calls).Ok?
    ensures |calls| <= 3 * Fuel(v) + 2 + Late(v)
    ensures |calls| <= 3 * (v.setup.limit * |v.energy| + |v.base.worms|) + 2 + Late(v)
  {
    hide Books, Window, Energetic, Run, Fuel, MovesIn;
    RunFollows(v, n, calls);
    FuelBounds(v);
    FuelIsNatural(Run(v, n, calls).value.state);
  }

  /** In a game whose energies pass the extension's own check that is a bound on its size alone. */
  lemma EnergyBoundsGames(v: Variant, n: nat, calls: seq<Call>)
    requires v.setup.limit > 0 && Energetic(v) && Run(v, n, calls).Ok?
    ensures |calls| <= 3 * ((v.setup.limit + 1) * |v.base.worms|) + 2 + Late(v)
  {
    hide Run, Ids, Fuel, AliveSlots;
    var limit, k := v.setup.limit, |v.base.worms|;
    EnergyBoundsRuns(v, n, calls);
    IdCount(v.base.worms);
    assert |v.energy| == |v.energy.Keys|;
    Scaled(limit, |v.energy|, k);
    assert (limit + 1) * k == limit * k + k;
  }

  lemma {:induction false} IdCount(ws: seq<Worm>)
    ensures |Ids(ws)| <= |ws|
    decreases |ws|
  {
    if ws == [] {
      assert Ids(ws) == {};
    } else {
      var rest := ws[..|ws| - 1];
      IdCount(rest);
      assert Ids(ws) == Ids(rest) + {ws[|ws| - 1].id};
    }
  }

  lemma Scaled(k: nat, a: nat, b: nat)
    requires a <= b
    ensures k * a <= k * b
  {
  }

  /**
   * Whatever the start, with limited energy every worm's energy at the end is what it had less the moves it has made; a
   * worm that was not in debt never is, so it makes no more moves than it had energy for.
   */
  lemma EnergyIsLessMoves(v: Variant, n: nat, calls: seq<Call>)
    requires v.setup.limit > 0 && Run(v, n, calls).Ok?
    ensures var f := Run(v, n, calls).value;
      && f.state.energy.Keys == v.energy.Keys
      && (forall id :: id in v.energy ==> f.state.energy[id] == v.energy[id] - MovesIn(f.log, id))
      && (forall id :: id in v.energy && v.energy[id] >= 0 ==> MovesIn(f.log, id) <= v.energy[id])
  {
    hide Books, Window, Energetic, Run, Fuel, MovesIn;
    RunFollows(v, n, calls);
  }

  /** From full energy, a worm's energy is the limit less the moves it has made, so it never makes more than that. */
  lemma EnergyIsLimitLessMoves(v: Variant, n: nat, calls: seq<Call>, id: Id)
    requires v.setup.limit > 0 && Run(v, n, calls).Ok?
    requires id in v.energy && v.energy[id] == v.setup.limit
    ensures var f := Run(v, n, calls).value;
      && id in f.state.energy && f.state.energy[id] == v.setup.limit - MovesIn(f.log, id)
      && MovesIn(f.log, id) <= v.setup.limit
  {
    hide Run, MovesIn;
    EnergyIsLessMoves(v, n, calls);
  }

  /** From books in order, the totals a recount would give are the totals kept, and every expiring trail is drawn. */
  lemma RunKeepsBooks(v: Variant, n: nat, calls: seq<Call>)
    requires Books(v) && Run(v, n, calls).Ok?
    ensures var w := Run(v, n, calls).value.state;
      && (forall p :: p in w.base.territories ==> w.base.territories[p].mask == SpokeMask(w.base, p))
      && (forall i :: 0 <= i < |w.base.worms| ==>
            && w.base.worms[i].score == |Owned(w.base.territories, w.base.worms[i].id)|
            && ValueAt(w.scores, w.base.worms[i].id) ==
               WeightSum(w.setup.terrain, Owned(w.base.territories, w.base.worms[i].id)))
      && (forall t :: t in w.teamScores ==> w.teamScores[t] == TeamSum(w.setup.teams, w.scores, t))
      && w.temporary.Keys <= w.base.trails.Keys
  {
    hide Run, Paid, Energetic, Measure, SpokeMask, Owned, Window;
    RunFollows(v, n, calls);
    var w := Run(v, n, calls).value.state;
    forall i | 0 <= i < |w.base.worms|
      ensures ValueAt(w.scores, w.base.worms[i].id) ==
              WeightSum(w.setup.terrain, Owned(w.base.territories, w.base.worms[i].id))
    {
      MoverScored(w, i);
      TalliedAt(w, w.base.worms[i].id);
    }
  }

  /** From a window of expiries, at most `ttl` trails ever wait to expire, each for its own tick. */
  lemma RunKeepsWindow(v: Variant, n: nat, calls: seq<Call>)
    requires Window(v) && Run(v, n, calls).Ok?
    ensures var w := Run(v, n, calls).value.state;
      Window(w) && Due(w) == {} && |w.temporary| <= v.setup.ttl
  {
    hide Run, Books, Energetic, Measure, Fuel, MovesIn, Window;
    RunFollows(v, n, calls);
    WindowIsSmall(Run(v, n, calls).value.state);
  }

  /** The whole invariant of a new game is kept along every run. */
  lemma RunKeepsGood(v: Variant, n: nat, calls: seq<Call>)
    requires Good(v) && Run(v, n, calls).Ok?
    ensures Good(Run(v, n, calls).value.state)
  {
    hide Run, Window, Energetic, Measure, Fuel, MovesIn, Books;
    RunFollows(v, n, calls);
    assert UniqueIds(v.base.worms) by { BooksNameWorms(v); }
    if v.base.over { StayDead(v, Run(v, n, calls).value.state); }
  }

  lemma BooksNameWorms(v: Variant)
    requires Books(v)
    ensures UniqueIds(v.base.worms)
  {
  }

  lemma StayDead(v: Variant, w: Variant)
    requires NobodyRises(v.base.worms, w.base.worms) && AliveSlots(v.base.worms) == {}
    ensures AliveSlots(w.base.worms) == {}
  {
  }

  // ----- new games

  /** `New`: no live expiries, full energy, and scores counted from the cells that are complete. */
  ghost function NewGame(setup: Setup, base: Core): Variant {
    var scores := map id | id in Ids(base.worms) :: WeightSum(setup.terrain, CompleteCells(base.territories, id));
    Variant(setup, base, map[], if setup.limit > 0 then map id | id in Ids(base.worms) :: setup.limit as int else map[],
            scores, map t | t in setup.teams.Values :: TeamSum(setup.teams, scores, t))
  }

  /** A new game on a sound position satisfies the whole invariant, whatever its terrain. */
  lemma NewGameIsGood(setup: Setup, base: Core)
    requires Sound(base) && (base.over ==> AliveSlots(base.worms) == {})
    requires forall id :: id in setup.teams ==> setup.teams[id] != NOBODY
    ensures var v := NewGame(setup, base);
      && Good(v)
      && (setup.limit > 0 ==> forall i :: 0 <= i < |base.worms| ==> ValueAt(v.energy, base.worms[i].id) == setup.limit)
  {
    hide Sound, WeightSum, TeamSum, Tallied, CompleteCells, Ids;
    var v := NewGame(setup, base);
    NewScores(setup, base);
    NewTallies(setup, base);
    assert Window(v);
    assert forall i :: 0 <= i < |base.worms| ==> base.worms[i].id in Ids(base.worms) by { IdsHold(base.worms); }
  }

  lemma IdsHold(ws: seq<Worm>)
    ensures forall i :: 0 <= i < |ws| ==> ws[i].id in Ids(ws)
  {
  }

  lemma NewScores(setup: Setup, base: Core)
    requires Sound(base)
    ensures var v := NewGame(setup, base); v.scores == Weighed(v, base.territories)
  {
    hide MasksInSync, AllOnBoard, Regular, WeightSum, TeamSum;
    var v := NewGame(setup, base);
    forall id | id in v.scores ensures CompleteCells(base.territories, id) == Owned(base.territories, id) {
      assert id != NOBODY by { assert id in Ids(base.worms); }
    }
  }

  lemma NewTallies(setup: Setup, base: Core)
    requires Sound(base) && forall id :: id in setup.teams ==> setup.teams[id] != NOBODY
    requires var v := NewGame(setup, base); v.scores == Weighed(v, base.territories)
    ensures Tallied(NewGame(setup, base))
  {
    hide MasksInSync, AllOnBoard, Regular, WeightSum, TeamSum, Ids;
  }
}
