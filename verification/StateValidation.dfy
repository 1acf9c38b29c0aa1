/** `Validate` and `ReciprocalOK`: what the engine checks of a state, and that no operation ever leads out of it. */
module StateValidation {
  import opened Geometry
  import opened HalfEdges
  import opened Identifiers
  import opened Engine
  import opened Ledger
  import opened Rounds
  import opened Progress
  import opened GameState
  import opened Masks
  import opened StartPositions
  import opened Wrappers

  predicate ValidSize(b: Board) {
    b.width >= 1 && b.height >= 1 && !(b.mode == ClassicRules && b.topology == Toroidal && b.height % 2 != 0)
  }

  ghost predicate LiveApart(c: Core) {
    c.board.mode == ModernRules ==>
      forall i, j :: 0 <= i < j < |c.worms| && c.worms[i].alive && c.worms[j].alive ==>
        c.worms[i].position != c.worms[j].position
  }

  /** A table of zeros is not checked. */
  ghost predicate TableAccepted(w: Worm) {
    (forall m: Mask :: RuleAt(w, m) == Go(East)) || ValidRules(w)
  }

  ghost predicate ValidWorm(b: Board, w: Worm) {
    ValidId(w.id) && (w.alive ==> InBounds(b, w.position)) && w.score >= 0 && TableAccepted(w)
  }

  ghost predicate ValidWorms(c: Core) {
    && |c.worms| <= 4 && UniqueIds(c.worms) && LiveApart(c)
    && forall i :: 0 <= i < |c.worms| ==> ValidWorm(c.board, c.worms[i])
  }

  ghost predicate SeenFrom(b: Board, p: Point, e: Edge) {
    exists d :: EdgeFrom(b, p, d) == e
  }

  ghost predicate ValidTrail(b: Board, e: Edge) {
    e.a != e.b && InBounds(b, e.a) && InBounds(b, e.b) && SeenFrom(b, e.a, e)
  }

  ghost predicate AllReciprocal(c: Core) {
    forall e :: e in c.trails ==> SeenFrom(c.board, e.a, e) && SeenFrom(c.board, e.b, e)
  }

  ghost predicate ValidCells(c: Core) {
    && (forall p :: p in c.territories && c.territories[p].mask == FULL ==>
          c.territories[p].owner != NOBODY && WormIndex(c.worms, c.territories[p].owner) >= 0)
    && forall i :: 0 <= i < |c.worms| ==> c.worms[i].score == |CompleteCells(c.territories, c.worms[i].id)|
  }

  /** The states `Validate` accepts. */
  ghost predicate Valid(c: Core) {
    && ValidSize(c.board) && ValidWorms(c) && (forall e :: e in c.trails ==> ValidTrail(c.board, e))
    && ValidCells(c) && AllReciprocal(c)
  }

  // ----- the checks

  method EmptyTable(w: Worm) returns (b: bool)
    ensures b <==> forall m: Mask :: RuleAt(w, m) == Go(East)
  {
    for n := 0 to 64
      invariant forall k: nat :: k < n ==> RuleAt(w, MaskOf(k)) == Go(East)
    {
      if RuleAt(w, MaskOf(n)) != Go(East) {
        return false;
      }
    }
    forall m: Mask ensures RuleAt(w, m) == Go(East) {
      MaskOfNumber(m);
      NumberIsBelow64(m);
    }
    return true;
  }

  method CheckTable(w: Worm) returns (ok: bool)
    ensures ok <==> TableAccepted(w)
  {
    hide ValidRules;
    var empty := EmptyTable(w);
    if empty {
      return true;
    }
    ok := ValidateRules(w);
  }

  method CheckSeen(b: Board, p: Point, e: Edge) returns (ok: bool)
    ensures ok <==> SeenFrom(b, p, e)
  {
    hide Neighbor;
    for k := 0 to 6
      invariant forall d :: d in DIRECTIONS[..k] ==> EdgeFrom(b, p, d) != e
    {
      assert DIRECTIONS[..k + 1] == DIRECTIONS[..k] + [DIRECTIONS[k]];
      if EdgeFrom(b, p, DIRECTIONS[k]) == e {
        return true;
      }
    }
    assert DIRECTIONS[..6] == DIRECTIONS;
    forall d: Direction ensures d in DIRECTIONS { EveryDirection(d); }
    return false;
  }

  method CheckWorm(b: Board, w: Worm) returns (ok: bool)
    ensures ok <==> ValidWorm(b, w)
  {
    hide TableAccepted, ValidId, InBounds;
    if !ValidId(w.id) || (w.alive && !InBounds(b, w.position)) || w.score < 0 {
      return false;
    }
    ok := CheckTable(w);
  }

  method CheckWorms(s: State) returns (ok: bool)
    ensures ok <==> ValidWorms(s.Value())
  {
    hide ValidWorm;
    if |s.worms| > 4 {
      return false;
    }
    var seen: set<Id> := {};
    var occupied: set<Point> := {};
    for i := 0 to |s.worms|
      invariant forall id :: id in seen <==> exists j :: 0 <= j < i && s.worms[j].id == id
      invariant s.board.mode == ModernRules ==>
                  forall p :: p in occupied <==> exists j :: 0 <= j < i && s.worms[j].alive && s.worms[j].position == p
      invariant forall j, k :: 0 <= j < k < i ==> s.worms[j].id != s.worms[k].id
      invariant s.board.mode == ModernRules ==>
                  forall j, k :: 0 <= j < k < i && s.worms[j].alive && s.worms[k].alive ==>
                      s.worms[j].position != s.worms[k].position
      invariant forall j :: 0 <= j < i ==> ValidWorm(s.board, s.worms[j])
    {
      var w := s.worms[i];
      var fine := CheckWorm(s.board, w);
      if !fine || w.id in seen {
        return false;
      }
      seen := seen + {w.id};
      if s.board.mode == ModernRules && w.alive {
        if w.position in occupied {
          return false;
        }
        occupied := occupied + {w.position};
      }
    }
    return true;
  }

  method CheckTrails(s: State) returns (ok: bool)
    ensures ok <==> forall e :: e in s.trails ==> ValidTrail(s.board, e)
  {
    hide SeenFrom;
    var left := s.trails.Keys;
    while left != {}
      invariant left <= s.trails.Keys
      invariant forall e :: e in s.trails && e !in left ==> ValidTrail(s.board, e)
    {
      var e :| e in left;
      left := left - {e};
      if e.a == e.b || !InBounds(s.board, e.a) || !InBounds(s.board, e.b) {
        return false;
      }
      var found := CheckSeen(s.board, e.a, e);
      if !found {
        return false;
      }
    }
    return true;
  }

  method ReciprocalOK(s: State) returns (ok: bool)
    ensures ok <==> AllReciprocal(s.Value())
  {
    hide SeenFrom;
    var left := s.trails.Keys;
    while left != {}
      invariant left <= s.trails.Keys
      invariant forall e :: e in s.trails && e !in left ==> SeenFrom(s.board, e.a, e) && SeenFrom(s.board, e.b, e)
    {
      var e :| e in left;
      left := left - {e};
      var a := CheckSeen(s.board, e.a, e);
      var b := CheckSeen(s.board, e.b, e);
      if !a || !b {
        return false;
      }
    }
    return true;
  }

  /** The completed cells counted for one owner among those looked at so far. */
  ghost function Counted(cells: map<Point, Territory>, left: set<Point>, id: Id): set<Point> {
    set p | p in cells && p !in left && cells[p].mask == FULL && cells[p].owner == id
  }

  ghost predicate KeysAreIds(m: map<Id, int>, ws: seq<Worm>) {
    forall id :: id in m <==> WormIndex(ws, id) >= 0
  }

  method ZeroScores(s: State) returns (expected: map<Id, int>)
    ensures KeysAreIds(expected, s.worms) && forall id :: id in expected ==> expected[id] == 0
  {
    expected := map[];
    for i := 0 to |s.worms|
      invariant forall id :: id in expected <==> exists j :: 0 <= j < i && s.worms[j].id == id
      invariant forall id :: id in expected ==> expected[id] == 0
    {
      expected := expected[s.worms[i].id := 0];
    }
  }

  /** Count the completed cells of each worm, unless one has no worm for its owner. */
  method CountComplete(s: State) returns (ok: bool, expected: map<Id, int>)
    ensures ok <==> forall p :: p in s.territories && s.territories[p].mask == FULL ==>
              s.territories[p].owner != NOBODY && WormIndex(s.worms, s.territories[p].owner) >= 0
    ensures ok ==> KeysAreIds(expected, s.worms)
    ensures ok ==> forall id :: id in expected ==> expected[id] == |CompleteCells(s.territories, id)|
  {
    hide WormIndex;
    expected := ZeroScores(s);
    var left := s.territories.Keys;
    forall id ensures Counted(s.territories, left, id) == {} {}
    while left != {}
      invariant left <= s.territories.Keys && KeysAreIds(expected, s.worms)
      invariant forall id :: id in expected ==> expected[id] == |Counted(s.territories, left, id)|
      invariant forall p :: p in s.territories && p !in left && s.territories[p].mask == FULL ==>
                  s.territories[p].owner != NOBODY && s.territories[p].owner in expected
    {
      var p :| p in left;
      CountedMore(s.territories, left, p);
      left := left - {p};
      var t := s.territories[p];
      if t.mask == FULL {
        if t.owner == NOBODY || t.owner !in expected {
          return false, expected;
        }
        expected := expected[t.owner := expected[t.owner] + 1];
      }
    }
    forall id ensures Counted(s.territories, {}, id) == CompleteCells(s.territories, id) {}
    ok := true;
  }

  method CheckCells(s: State) returns (ok: bool)
    ensures ok <==> ValidCells(s.Value())
  {
    hide CompleteCells;
    var expected;
    ok, expected := CountComplete(s);
    if !ok {
      return;
    }
    for i := 0 to |s.worms|
      invariant forall j :: 0 <= j < i ==> s.worms[j].score == |CompleteCells(s.territories, s.worms[j].id)|
    {
      assert WormIndex(s.worms, s.worms[i].id) >= 0;
      if expected[s.worms[i].id] != s.worms[i].score {
        return false;
      }
    }
  }

  lemma CountedMore(cells: map<Point, Territory>, left: set<Point>, p: Point)
    requires p in left && p in cells
    ensures forall id :: |Counted(cells, left - {p}, id)| ==
              |Counted(cells, left, id)| + if cells[p].mask == FULL && cells[p].owner == id then 1 else 0
  {
    forall id ensures |Counted(cells, left - {p}, id)| ==
              |Counted(cells, left, id)| + if cells[p].mask == FULL && cells[p].owner == id then 1 else 0
    {
      assert Counted(cells, left - {p}, id) ==
             Counted(cells, left, id) + if cells[p].mask == FULL && cells[p].owner == id then {p} else {};
    }
  }

  /** `Validate`, in the order of the source. */
  method Validate(s: State) returns (ok: bool)
    ensures ok <==> Valid(s.Value())
  {
    hide ValidWorms, ValidCells, AllReciprocal, ValidTrail;
    if !ValidSize(s.board) {
      return false;
    }
    ok := CheckWorms(s);
    if ok {
      ok := CheckTrails(s);
    }
    if ok {
      ok := CheckCells(s);
    }
    if ok {
      ok := ReciprocalOK(s);
    }
  }

  // ----- what validity means for the ledger

  /**
   * What a state has beyond `Validate`: cached masks in sync, no owner of an unfinished cell, and room around a
   * torus.
   */
  ghost predicate InSync(c: Core) {
    && MasksInSync(c)
    && (forall p :: p in c.territories && c.territories[p].owner != NOBODY ==> c.territories[p].mask == FULL)
    && (c.board.topology == Toroidal ==> c.board.width >= 3 && c.board.height >= 3)
  }

  /** What `Validate` asks beyond the ledger: few worms with proper names and tables, apart on modern boards. */
  ghost predicate Seated(c: Core) {
    |c.worms| <= 4 && LiveApart(c) && forall i :: 0 <= i < |c.worms| ==>
      ValidId(c.worms[i].id) && TableAccepted(c.worms[i])
  }

  lemma SeenMeansOnBoard(b: Board, e: Edge)
    requires ValidTrail(b, e)
    ensures OnBoard(b, e)
  {
    var d :| EdgeFrom(b, e.a, d) == e;
    EdgeEnds(e.a, Neighbor(b, e.a, d), e.a, e.b);
  }

  lemma OnBoardIsSeen(b: Board, e: Edge)
    requires Regular(b) && OnBoard(b, e)
    ensures ValidTrail(b, e) && SeenFrom(b, e.b, e)
  {
    hide Neighbor;
    var d :| Neighbor(b, e.a, d) == e.b;
    NeighborsDistinct(b, e.a, d, d);
    Reciprocal(b, e.a, d);
    EdgeEnds(e.b, e.a, e.a, e.b);
    assert EdgeFrom(b, e.a, d) == e && EdgeFrom(b, e.b, Opposite(d)) == e;
  }

  lemma CompleteIsOwned(c: Core, id: Id)
    requires id != NOBODY
    requires forall p :: p in c.territories && c.territories[p].owner != NOBODY ==> c.territories[p].mask == FULL
    ensures CompleteCells(c.territories, id) == Owned(c.territories, id)
  {
  }

  /** For a state in sync, `Validate` accepts exactly the sound states whose worms are seated properly. */
  lemma ValidMeansSound(c: Core)
    requires InSync(c)
    ensures Valid(c) <==> Sound(c) && Seated(c)
  {
    hide TableAccepted, SeenFrom, OnBoard, CompleteCells, Owned, InBounds, MasksInSync, LiveApart;
    if Valid(c) {
      forall e | e in c.trails ensures OnBoard(c.board, e) { SeenMeansOnBoard(c.board, e); }
      forall i | 0 <= i < |c.worms|
        ensures CompleteCells(c.territories, c.worms[i].id) == Owned(c.territories, c.worms[i].id)
      {
        CompleteIsOwned(c, c.worms[i].id);
      }
    }
    if Sound(c) && Seated(c) {
      forall e | e in c.trails ensures ValidTrail(c.board, e) && SeenFrom(c.board, e.b, e) {
        OnBoardIsSeen(c.board, e);
      }
      forall i | 0 <= i < |c.worms|
        ensures CompleteCells(c.territories, c.worms[i].id) == Owned(c.territories, c.worms[i].id)
      {
        CompleteIsOwned(c, c.worms[i].id);
      }
    }
  }

  lemma SoundIsInSync(c: Core)
    requires Sound(c)
    ensures InSync(c)
  {
  }

  lemma MoveStaysApart(c: Core, i: nat, d: Direction)
    requires i < |c.worms| && LiveApart(c)
    requires c.board.mode == ModernRules ==> !HasWorm(c, Neighbor(c.board, c.worms[i].position, d))
    ensures LiveApart(Move(c, i, d).core)
  {
    hide Neighbor, Settle, Refreshed, SettleNews;
    var c' := Move(c, i, d).core;
    assert c'.worms == c.worms[i := c'.worms[i]];
    assert c'.worms[i].position == Neighbor(c.board, c.worms[i].position, d);
  }

  lemma SameTables(w: Worm, w': Worm)
    requires w'.rules == w.rules
    ensures TableAccepted(w') == TableAccepted(w)
  {
    SameTable(w, w');
  }

  /** At most four worms, each with a proper name. */
  ghost predicate Seats(ws: seq<Worm>) {
    |ws| <= 4 && forall i :: 0 <= i < |ws| ==> ValidId(ws[i].id)
  }

  lemma NewWormsAreSeated(ws: seq<Worm>, starts: seq<Point>)
    requires |ws| <= 4 && |starts| == |ws| && forall i :: 0 <= i < |ws| ==> ws[i] == NewWorm(i, starts[i])
    ensures Seats(ws)
  {
    forall i | 0 <= i < |ws| ensures ValidId(ws[i].id) {
      ShortIsValid(ws[i].id);
    }
  }

  /** Every new game passes `Validate`, historical and modern. */
  lemma NewGameIsValid(b: Board, ws: seq<Worm>, starts: seq<Point>)
    requires Regular(b) && |ws| <= 4 && |starts| == |ws|
    requires forall i :: 0 <= i < |ws| ==> InBounds(b, starts[i]) && ws[i] == NewWorm(i, starts[i])
    requires b.mode == ModernRules ==> forall i, j :: 0 <= i < j < |ws| ==> starts[i] != starts[j]
    ensures Valid(FreshCore(b, ws)) && InSync(FreshCore(b, ws)) && Asked(FreshCore(b, ws))
  {
    hide Valid, InSync, Sound, ValidId, BetweenCalls;
    PlacedWorms(b, ws, starts);
    NewWormsAreSeated(ws, starts);
    SoundIsInSync(FreshCore(b, ws));
    ValidMeansSound(FreshCore(b, ws));
  }

  // ----- every call keeps the worms seated

  /** A pending decision that the engine has asked for: its mask is the worm's, and its worm has a table. */
  ghost predicate Asked(c: Core) {
    c.pending.Some? ==> PendingMatches(c) && ValidRules(c.worms[c.pending.value.slot])
  }

  ghost predicate OnlyCalls(ops: seq<Op>) {
    forall k :: 0 <= k < |ops| ==> ops[k].OpCall?
  }

  lemma StepStaysSeated(c: Core, id: Id, h: Heading)
    requires Seated(c) && Step(c, id, h).Ok?
    ensures Seated(Step(c, id, h).value.core)
  {
    hide Move, LiveApart, TableAccepted, ValidId, Neighbor;
    var i := WormIndex(c.worms, id);
    var c' := Step(c, id, h).value.core;
    MoveKeepsControl(c, i, h.value);
    MoveStaysApart(c, i, h.value);
    forall j | 0 <= j < |c.worms| ensures TableAccepted(c'.worms[j]) {
      SameTables(c.worms[j], c'.worms[j]);
    }
  }

  /** A move takes a valid state in sync to a valid state in sync. */
  lemma StepKeepsValid(c: Core, id: Id, h: Heading)
    requires Valid(c) && InSync(c) && Step(c, id, h).Ok?
    ensures Valid(Step(c, id, h).value.core) && InSync(Step(c, id, h).value.core)
  {
    hide Valid, InSync, Sound, Seated, Step;
    ValidMeansSound(c);
    StepKeepsSound(c, id, h);
    StepStaysSeated(c, id, h);
    SoundIsInSync(Step(c, id, h).value.core);
    ValidMeansSound(Step(c, id, h).value.core);
  }

  /** Nobody has moved or come alive, and every table is still accepted. */
  lemma FrameStaysSeated(c: Core, c': Core)
    requires Seated(c) && c'.board == c.board && SameWorms(c.worms, c'.worms)
    requires forall i :: 0 <= i < |c.worms| ==>
               c'.worms[i].position == c.worms[i].position && TableAccepted(c'.worms[i])
    ensures Seated(c')
  {
    hide TableAccepted, ValidId;
  }

  lemma ActStaysSeated(c: Core, slot: nat, m: Mask, a: Action)
    requires Seated(c) && slot < |c.worms| && Act(c, slot, m, a).Continue?
    ensures Seated(Act(c, slot, m, a).core)
  {
    hide Step, Seated, TableAccepted;
    var counted := Count(c, slot, m);
    CountStaysSeated(c, slot, m);
    StepStaysSeated(counted, c.worms[slot].id, Some(a.dir));
  }

  lemma CountStaysSeated(c: Core, slot: nat, m: Mask)
    requires Seated(c) && slot < |c.worms|
    ensures Seated(Count(c, slot, m))
  {
    hide TableAccepted, ValidId, LiveApart;
    var c' := Count(c, slot, m);
    forall j | 0 <= j < |c.worms| ensures TableAccepted(c'.worms[j]) {
      SameTables(c.worms[j], c'.worms[j]);
    }
    FrameStaysSeated(c, c');
  }

  /** A worm that has a table may learn any free direction. */
  lemma LearnStaysSeated(c: Core, slot: nat, m: Mask, d: Direction)
    requires Seated(c) && slot < |c.worms| && ValidRules(c.worms[slot]) && d !in m
    ensures Seated(Learn(c, slot, m, Go(d)))
  {
    hide ValidRules, ValidId, LiveApart;
    var c' := Learn(c, slot, m, Go(d));
    TeachKeepsValid(c.worms[slot], m, d);
    forall j | 0 <= j < |c.worms| ensures TableAccepted(c'.worms[j]) {
      if j == slot {
        assert c'.worms[j] == c.worms[j].(rules := c.worms[j].rules[m := Go(d)]);
      }
    }
    FrameStaysSeated(c, c');
  }

  lemma AutomaticStaysSeated(c: Core, slot: nat, m: Mask, a: Action)
    requires Seated(c) && slot < |c.worms| && ValidRules(c.worms[slot]) && Automatic(c, slot, m, a).Continue?
    ensures Seated(Automatic(c, slot, m, a).core)
  {
    hide Seated, Learn, ValidRules, Step;
    if c.worms[slot].frozen {
      ActStaysSeated(c, slot, m, a);
    } else {
      LearnStaysSeated(c, slot, m, a.dir);
      ActStaysSeated(Learn(c, slot, m, a), slot, m, a);
    }
  }

  lemma FallStaysSeated(c: Core, slot: nat)
    requires Seated(c) && slot < |c.worms|
    ensures Seated(Fall(c, slot))
  {
    hide TableAccepted, ValidId, LiveApart;
    var c' := Fall(c, slot);
    forall j | 0 <= j < |c.worms| ensures TableAccepted(c'.worms[j]) {
      SameTables(c.worms[j], c'.worms[j]);
    }
    FrameStaysSeated(c, c');
  }

  /** A table that asks or chooses anywhere is not a table of zeros. */
  lemma AskingIsValid(w: Worm, m: Mask)
    requires TableAccepted(w) && RuleAt(w, m) != Go(East)
    ensures ValidRules(w)
  {
  }

  lemma TurnStaysSeated(c: Core, slot: nat, n: nat)
    requires Seated(c) && slot < |c.worms| && !TakeTurn(c, slot, n).Fail?
    ensures var r := TakeTurn(c, slot, n);
      Seated(r.core) && (r.Stall? ==> r.core.worms == c.worms && ValidRules(c.worms[slot]))
  {
    hide Act, Automatic, LegalMoves, MaskAt, TableAccepted, ValidRules, ChooseAuto, ValidId, LiveApart;
    var w := c.worms[slot];
    var m := MaskAt(c, w.position);
    var a := RuleAt(w, m);
    if w.alive && LegalMoves(c, w.id) == [] {
      FallStaysSeated(c, slot);
    } else if w.alive {
      match a
      case GetNew =>
        AskingIsValid(w, m);
        FrameStaysSeated(c, TakeTurn(c, slot, n).core);
      case DoAI =>
        AskingIsValid(w, m);
        AutomaticStaysSeated(c, slot, m, ActionOf(ChooseAuto(c, slot)));
      case Die => FallStaysSeated(c, slot);
      case _ => ActStaysSeated(c, slot, m, a);
    }
  }

  lemma {:induction false} SlotsStaySeated(c: Core, slot: nat, n: nat)
    requires Seated(c) && c.pending.None? && Slots(c, slot, n).Ok?
    ensures var c' := Slots(c, slot, n).value.core; Seated(c') && Asked(c')
    decreases |c.worms| - slot
  {
    hide TakeTurn, Seated, ValidRules, Asked, PendingMatches;
    if slot >= |c.worms| {
      assert Seated(Finish(c).core) && Asked(Finish(c).core) by { FinishStaysSeated(c); }
    } else {
      var at := c.(activeSlot := slot);
      assert Seated(at) by { ControlStaysSeated(c, at); }
      TurnStaysSeated(at, slot, n);
      TurnPending(at, slot, n);
      var r := TakeTurn(at, slot, n);
      if r.Continue? {
        SlotsStaySeated(r.core, slot + 1, n + |r.log|);
      } else {
        StallIsAsked(at, slot, n);
      }
    }
  }

  lemma ControlStaysSeated(c: Core, c': Core)
    requires Seated(c) && c'.board == c.board && c'.worms == c.worms
    ensures Seated(c')
  {
    hide TableAccepted, ValidId;
    FrameStaysSeated(c, c');
  }

  lemma FinishStaysSeated(c: Core)
    requires Seated(c) && c.pending.None?
    ensures Seated(Finish(c).core) && Asked(Finish(c).core)
  {
    hide TableAccepted, ValidId;
    ControlStaysSeated(c, Finish(c).core);
  }

  lemma StallIsAsked(c: Core, slot: nat, n: nat)
    requires slot < |c.worms| && c.activeSlot == slot && TakeTurn(c, slot, n).Stall?
    requires var r := TakeTurn(c, slot, n); r.core.worms == c.worms && ValidRules(c.worms[slot])
    ensures Asked(TakeTurn(c, slot, n).core)
  {
    hide TakeTurn, ValidRules, PendingMatches, Later;
    TurnKeeps(c, slot, n);
  }

  lemma CallStaysSeated(c: Core, n: nat, call: Call)
    requires Seated(c) && UniqueIds(c.worms) && Asked(c) && Exec(c, n, call).Ok?
    ensures var c' := Exec(c, n, call).value.core; Seated(c') && Asked(c')
  {
    hide Seated, Asked, Slots, Answer, LegalMoves;
    match call
    case CallAdvance => SlotsStaySeated(c, if c.activeSlot >= 0 then c.activeSlot else 0, n);
    case CallSubmit(h) =>
      AnswerStaysSeated(c, h.value);
      AnswerKeeps(c, h.value);
      var a := Answer(c, h.value).value;
      SlotsStaySeated(a.core, c.pending.value.slot + 1, n + |a.log|);
  }

  lemma AnswerStaysSeated(c: Core, d: Direction)
    requires Seated(c) && UniqueIds(c.worms) && Asked(c) && c.pending.Some? && PendingInRange(c) && Answer(c, d).Ok?
    requires d in LegalMoves(c, c.worms[c.pending.value.slot].id)
    ensures Seated(Answer(c, d).value.core)
  {
    hide Seated, Step, LegalMoves, ValidRules, MaskAt;
    var p := c.pending.value;
    IndexOfSlot(c.worms, p.slot);
    LegalIsFree(c, p.slot, d);
    LearnStaysSeated(c, p.slot, p.mask, d);
    var learned := Learn(c, p.slot, p.mask, Go(d)).(pending := None, activeSlot := p.slot + 1);
    ControlStaysSeated(Learn(c, p.slot, p.mask, Go(d)), learned);
    CountStaysSeated(learned, p.slot, p.mask);
    StepStaysSeated(Taught(c, d), c.worms[p.slot].id, Some(d));
  }

  /**
   * Historical or modern, torus or bounded: along every run of rounds and decisions from a valid state in sync, whose
   * pending decision, if any, is one the engine has asked for, each state passes `Validate`.
   */
  lemma {:induction false} RunStaysValid(c: Core, n: nat, ops: seq<Op>)
    requires Valid(c) && InSync(c) && Asked(c) && OnlyCalls(ops) && Play(c, n, ops).Ok?
    ensures var c' := Play(c, n, ops).value.core; Valid(c') && InSync(c') && Asked(c')
    decreases |ops|
  {
    hide Valid, InSync, Sound, Exec, Asked, Seated, Later, BetweenCalls;
    if ops == [] {
    } else {
      var r := Exec(c, n, ops[0].call).value;
      assert Sound(c) && Seated(c) by { ValidMeansSound(c); }
      CallKeeps(c, n, ops[0].call);
      assert Sound(r.core) by { LaterIsSound(c, r.core); }
      assert UniqueIds(c.worms) by { SoundIdsDiffer(c); }
      CallStaysSeated(c, n, ops[0].call);
      SoundIsInSync(r.core);
      ValidMeansSound(r.core);
      RunStaysValid(r.core, n + |r.log|, ops[1..]);
    }
  }

  lemma LaterIsSound(c: Core, c': Core)
    requires Later(c, c') && Sound(c)
    ensures Sound(c')
  {
    hide Sound;
  }

  lemma SoundIdsDiffer(c: Core)
    requires Sound(c)
    ensures UniqueIds(c.worms)
  {
  }

  // ----- trails placed by a setup or an import

  ghost predicate Insertable(c: Core, a: Point, b: Point) {
    && InBounds(c.board, a) && InBounds(c.board, b) && a != b
    && SeenFrom(c.board, a, NewEdge(a, b)) && NewEdge(a, b) !in c.trails
  }

  /** The trail drawn and both cells' masks refreshed; nobody is credited. */
  ghost function Inserted(c: Core, a: Point, b: Point, owner: Id): Core {
    var trails := c.trails[NewEdge(a, b) := owner];
    var s, t := CellAt(c.territories, a), CellAt(c.territories, b);
    c.(trails := trails,
       territories := c.territories[a := s.(mask := Spokes(c.board, trails, a) + s.mask)]
                                   [b := t.(mask := Spokes(c.board, trails, b) + t.mask)])
  }

  method InsertTrail(s: State, a: Point, b: Point, owner: Id) returns (ok: bool)
    modifies s
    ensures if Insertable(old(s.Value()), a, b)
            then s.Value() == Inserted(old(s.Value()), a, b, owner) && ok == AllReciprocal(s.Value())
            else !ok && s.Value() == old(s.Value())
    ensures s.events == old(s.events)
  {
    hide SeenFrom, Neighbor, Spokes, AllReciprocal;
    if !InBounds(s.board, a) || !InBounds(s.board, b) || a == b {
      return false;
    }
    var e := NewEdge(a, b);
    var found := CheckSeen(s.board, a, e);
    if !found || e in s.trails {
      return false;
    }
    s.trails := s.trails[e := owner];
    var m := s.CellMask(a);
    s.territories := s.territories[a := CellAt(s.territories, a).(mask := m)];
    var m' := s.CellMask(b);
    s.territories := s.territories[b := CellAt(s.territories, b).(mask := m')];
    ok := ReciprocalOK(s);
  }

  ghost predicate Completes(c: Core, p: Point, d: Direction) {
    CellAt(c.territories, p).mask + {d} == FULL
  }

  /** The two cells of a free edge have no owner yet, and each gains one spoke. */
  lemma InsertSite(c: Core, a: Point, d: Direction, owner: Id)
    requires Sound(c) && InBounds(c.board, a) && InBounds(c.board, Neighbor(c.board, a, d))
    requires EdgeFrom(c.board, a, d) !in c.trails
    ensures var b := Neighbor(c.board, a, d); var trails := c.trails[EdgeFrom(c.board, a, d) := owner];
      && a != b && a in c.territories && b in c.territories
      && c.territories[a].owner == NOBODY && c.territories[b].owner == NOBODY
      && Spokes(c.board, trails, a) == c.territories[a].mask + {d}
      && Spokes(c.board, trails, b) == c.territories[b].mask + {Opposite(d)}
  {
    hide Regular, Neighbor, ScoresCountCells, OwnersAreWorms, WormsPlaced;
    var b := Neighbor(c.board, a, d);
    CellsAreInBounds(c.board, a);
    CellsAreInBounds(c.board, b);
    NeighborsDistinct(c.board, a, d, d);
    EveryDirection(d);
    EveryDirection(Opposite(d));
    Reciprocal(c.board, a, d);
    EdgeEnds(b, a, a, b);
    assert d !in SpokeMask(c, a) && Opposite(d) !in SpokeMask(c, b);
    SpokesAfterTrail(c.board, c.trails, a, d, owner, a);
    SpokesAfterTrail(c.board, c.trails, a, d, owner, b);
  }

  lemma InsertedCells(c: Core, a: Point, d: Direction, owner: Id)
    requires Sound(c) && InBounds(c.board, a) && InBounds(c.board, Neighbor(c.board, a, d))
    requires EdgeFrom(c.board, a, d) !in c.trails
    ensures var b := Neighbor(c.board, a, d); var c' := Inserted(c, a, b, owner);
      && a != b && a in c.territories && b in c.territories
      && c.territories[a].owner == NOBODY && c.territories[b].owner == NOBODY
      && MasksInSync(c')
      && c'.territories == c.territories[a := c.territories[a].(mask := c.territories[a].mask + {d})]
                                        [b := c.territories[b].(mask := c.territories[b].mask + {Opposite(d)})]
  {
    hide Neighbor, Spokes, OwnedWhenFull, ScoresCountCells, OwnersAreWorms, WormsPlaced;
    var b := Neighbor(c.board, a, d);
    InsertSite(c, a, d, owner);
    var c' := Inserted(c, a, b, owner);
    var s, t := c.territories[a], c.territories[b];
    assert s.mask + {d} + s.mask == s.mask + {d};
    assert t.mask + {Opposite(d)} + t.mask == t.mask + {Opposite(d)};
    forall p | p in c.territories && p != a && p != b
      ensures Spokes(c.board, c'.trails, p) == Spokes(c.board, c.trails, p)
    {
      CellsAreInBounds(c.board, p);
      SpokesAfterTrail(c.board, c.trails, a, d, owner, p);
    }
  }

  /**
   * An inserted trail keeps the ledger exactly when it completes neither of its cells: a cell it completes has no
   * owner.
   */
  lemma InsertedIsSoundExactly(c: Core, a: Point, d: Direction, owner: Id)
    requires Sound(c) && Insertable(c, a, Neighbor(c.board, a, d))
    ensures var b := Neighbor(c.board, a, d);
      && AllReciprocal(Inserted(c, a, b, owner))
      && (Sound(Inserted(c, a, b, owner)) <==> !Completes(c, a, d) && !Completes(c, b, Opposite(d)))
  {
    hide Neighbor, MasksInSync, SeenFrom, Regular, Inserted;
    var b := Neighbor(c.board, a, d);
    var c' := Inserted(c, a, b, owner);
    InsertedCells(c, a, d, owner);
    InsertedFrame(c, a, b, owner);
    EdgeFromOnBoard(c.board, a, d);
    forall e | e in c'.trails ensures SeenFrom(c.board, e.a, e) && SeenFrom(c.board, e.b, e) {
      OnBoardIsSeen(c.board, e);
    }
    forall id ensures Owned(c'.territories, id) == Owned(c.territories, id) {}
    if Completes(c, a, d) {
      assert c'.territories[a].owner == NOBODY && c'.territories[a].mask == FULL;
    }
    if Completes(c, b, Opposite(d)) {
      assert c'.territories[b].owner == NOBODY && c'.territories[b].mask == FULL;
    }
  }

  lemma InsertedFrame(c: Core, a: Point, b: Point, owner: Id)
    ensures var c' := Inserted(c, a, b, owner);
      c'.board == c.board && c'.worms == c.worms && c'.trails == c.trails[NewEdge(a, b) := owner]
  {
  }
}
