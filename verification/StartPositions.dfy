/** New games: controllers' rule tables, and generated boards with their shuffled starts. */
module StartPositions {
  import opened Geometry
  import opened Masks
  import opened HalfEdges
  import opened BoardScan
  import opened Engine
  import opened Ledger
  import opened Progress
  import opened Rounds
  import opened Wrappers

  // ----- rule tables

  /** The free directions of a mask, in order. */
  function Exits(m: Mask): (ds: seq<Direction>)
    ensures forall d :: d in ds <==> d in DIRECTIONS && d !in m
  {
    ExitsAmong(m, DIRECTIONS)
  }

  function ExitsAmong(m: Mask, dirs: seq<Direction>): (ds: seq<Direction>)
    ensures forall d :: d in ds <==> d in dirs && d !in m
  {
    if dirs == [] then [] else (if dirs[0] in m then [] else [dirs[0]]) + ExitsAmong(m, dirs[1..])
  }

  /** The table with the exits of the first k single-exit masks forced. */
  function ForcedUpTo(rules: map<Mask, Action>, k: nat): map<Mask, Action>
    requires k <= 6
  {
    if k == 0 then rules
    else ForcedUpTo(rules, k - 1)[FULL - {DIRECTIONS[k - 1]} := Go(DIRECTIONS[k - 1])]
  }

  function WithForced(rules: map<Mask, Action>): map<Mask, Action> {
    ForcedUpTo(rules, 6)[FULL := Die]
  }

  /** The first n masks in order of number, each with an exit drawn from the stream, and the stream's last word. */
  function WildUpTo(seed: bv64, n: nat): (map<Mask, Action>, bv64) {
    if n == 0 then (map[], seed)
    else
      var (r, x) := WildUpTo(seed, n - 1);
      var exits := Exits(MaskOf(n - 1));
      if exits == [] then (r[MaskOf(n - 1) := Die], x)
      else
        var y := XorShift(x);
        (r[MaskOf(n - 1) := Go(exits[Below(y, |exits|)])], y)
  }

  function UniformUpTo(a: Action, n: nat): map<Mask, Action> {
    if n == 0 then map[] else UniformUpTo(a, n - 1)[MaskOf(n - 1) := a]
  }

  /** The table a kind of controller starts from; a worm that is asleep or plays remembered rules keeps its own. */
  function InitialTable(w: Worm, kind: ControllerKind, seed: nat): map<Mask, Action> {
    match kind
    case KindNew => WithForced(UniformUpTo(GetNew, 64))
    case KindAuto => WithForced(UniformUpTo(DoAI, 64))
    case KindWild => WithForced(WildUpTo(Word(seed), 64).0)
    case _ => WithForced(w.rules)
  }

  /** A worm with its controller installed, before its table is validated. */
  function Configured(w: Worm, kind: ControllerKind, seed: nat): Worm {
    var resets := kind == KindNew || kind == KindAuto;
    w.(controller := kind, seed := seed, previous := None,
       crix := if w.crix == Some(East) && w.previous == Some(East) then None else w.crix,
       alive := kind != KindAsleep, frozen := !resets && (kind == KindWild || w.frozen),
       rules := InitialTable(w, kind, seed), uses := if resets then map[] else w.uses)
  }

  // ----- what the tables hold

  ghost predicate SingleExit(m: Mask) {
    exists d: Direction :: m == FULL - {d}
  }

  ghost predicate Forced(rules: map<Mask, Action>) {
    && (forall d: Direction :: FULL - {d} in rules && rules[FULL - {d}] == Go(d))
    && FULL in rules && rules[FULL] == Die
  }

  lemma OneExit(d: Direction)
    ensures FULL - {d} != FULL && forall e: Direction :: FULL - {e} == FULL - {d} ==> e == d
  {
    EveryDirection(d);
    forall e: Direction | FULL - {e} == FULL - {d} ensures e == d {
      EveryDirection(e);
    }
  }

  lemma {:induction false} ForcedUpToAt(rules: map<Mask, Action>, k: nat)
    requires k <= 6
    ensures var r := ForcedUpTo(rules, k);
      && (forall m: Mask :: !SingleExit(m) ==> (m in r <==> m in rules) && (m in rules ==> r[m] == rules[m]))
      && forall d: Direction :: d in DIRECTIONS[..k] ==> FULL - {d} in r && r[FULL - {d}] == Go(d)
  {
    if k == 0 {
    } else {
      ForcedUpToAt(rules, k - 1);
      OneExit(DIRECTIONS[k - 1]);
      assert DIRECTIONS[..k] == DIRECTIONS[..k - 1] + [DIRECTIONS[k - 1]];
      assert SingleExit(FULL - {DIRECTIONS[k - 1]});
    }
  }

  /** Single exits and the closed cell are forced; every other entry is kept. */
  lemma WithForcedAt(rules: map<Mask, Action>)
    ensures Forced(WithForced(rules))
    ensures var r := WithForced(rules);
      forall m: Mask :: !SingleExit(m) && m != FULL ==> (m in r <==> m in rules) && (m in rules ==> r[m] == rules[m])
  {
    ForcedUpToAt(rules, 6);
    assert DIRECTIONS[..6] == DIRECTIONS;
    forall d: Direction ensures d in DIRECTIONS && FULL - {d} != FULL {
      EveryDirection(d);
      OneExit(d);
    }
  }

  /** Every entry of a wild table is an exit of its mask, or death where there is none. */
  lemma {:induction false} WildUpToAt(seed: bv64, n: nat)
    ensures var r := WildUpTo(seed, n).0;
      && (forall k: nat :: k < n ==> MaskOf(k) in r)
      && forall m: Mask :: m in r ==> if Exits(m) == [] then r[m] == Die else r[m].Go? && r[m].dir !in m
  {
    hide XorShift, Below, MaskOf;
    if n == 0 {
    } else {
      WildUpToAt(seed, n - 1);
    }
  }

  lemma {:induction false} UniformUpToAt(a: Action, n: nat)
    ensures var r := UniformUpTo(a, n);
      (forall k: nat :: k < n ==> MaskOf(k) in r) && forall m: Mask :: m in r ==> r[m] == a
  {
    hide MaskOf;
    if n == 0 {
    } else {
      UniformUpToAt(a, n - 1);
    }
  }

  /** A table with an entry for each of the 64 numbers has one for every mask. */
  lemma EveryMaskIn(rules: map<Mask, Action>)
    requires forall k: nat :: k < 64 ==> MaskOf(k) in rules
    ensures forall m: Mask :: m in rules
  {
    hide MaskOf;
    forall m: Mask ensures m in rules {
      MaskOfNumber(m);
      NumberIsBelow64(m);
    }
  }

  lemma OnlyFullHasNoExit(m: Mask)
    ensures Exits(m) == [] <==> m == FULL
  {
    var exits := Exits(m);
    assert forall k :: 0 <= k < |exits| ==> exits[k] in exits;
    if exits == [] {
      forall d: Direction ensures d in m <==> d in FULL {
        EveryDirection(d);
        assert d in m by { assert d !in exits; }
      }
    }
  }

  ghost predicate SafeAt(rules: map<Mask, Action>, m: Mask) {
    m in rules && (rules[m] in {GetNew, DoAI, Die} || (rules[m].Go? && rules[m].dir !in m))
  }

  lemma ForcedIsValid(w: Worm)
    requires Forced(w.rules)
    requires forall m: Mask :: !SingleExit(m) && m != FULL ==> SafeAt(w.rules, m)
    ensures ValidRules(w)
  {
    forall m: Mask ensures !RuleAt(w, m).Malformed? && !DirectionBlocked(m, RuleAt(w, m)) {
      if d: Direction :| m == FULL - {d} {
        assert RuleAt(w, FULL - {d}) == Go(d);
      } else {
        assert m != FULL ==> SafeAt(w.rules, m);
      }
    }
  }

  lemma UniformTableAt(a: Action)
    ensures var r := WithForced(UniformUpTo(a, 64));
      Forced(r) && forall m: Mask :: !SingleExit(m) && m != FULL ==> m in r && r[m] == a
  {
    hide WithForced, UniformUpTo, MaskOf, Forced, SingleExit;
    var rules := UniformUpTo(a, 64);
    UniformUpToAt(a, 64);
    EveryMaskIn(rules);
    WithForcedAt(rules);
  }

  lemma WildTableAt(seed: bv64)
    ensures var r := WithForced(WildUpTo(seed, 64).0);
      Forced(r) && forall m: Mask :: !SingleExit(m) && m != FULL ==> m in r && r[m].Go? && r[m].dir !in m
  {
    hide WithForced, WildUpTo, MaskOf, Forced, SingleExit, Exits;
    var rules := WildUpTo(seed, 64).0;
    WildUpToAt(seed, 64);
    EveryMaskIn(rules);
    WithForcedAt(rules);
    forall m: Mask ensures Exits(m) == [] <==> m == FULL { OnlyFullHasNoExit(m); }
  }

  /** New and automatic worms ask, or choose, at every mask with more than one exit; wild worms never do either. */
  lemma InitialTableAt(w: Worm, kind: ControllerKind, seed: nat)
    ensures Forced(InitialTable(w, kind, seed))
    ensures var r := InitialTable(w, kind, seed);
      forall m: Mask :: !SingleExit(m) && m != FULL ==>
        && (kind == KindNew ==> m in r && r[m] == GetNew)
        && (kind == KindAuto ==> m in r && r[m] == DoAI)
        && (kind == KindWild ==> m in r && r[m].Go? && r[m].dir !in m)
        && (kind !in {KindNew, KindAuto, KindWild} ==>
              (m in r <==> m in w.rules) && (m in w.rules ==> r[m] == w.rules[m]))
  {
    hide WithForced, WildUpTo, UniformUpTo, Forced, SingleExit;
    UniformTableAt(GetNew);
    UniformTableAt(DoAI);
    WildTableAt(Word(seed));
    WithForcedAt(w.rules);
  }

  /** New, automatic and wild worms always get a valid table. */
  lemma KindsWithOwnTablesAreValid(w: Worm, kind: ControllerKind, seed: nat)
    requires kind in {KindNew, KindAuto, KindWild}
    ensures ValidRules(Configured(w, kind, seed))
  {
    hide InitialTable, ValidRules, Forced;
    InitialTableAt(w, kind, seed);
    ForcedIsValid(Configured(w, kind, seed));
  }

  // ----- the loops that build them

  /** `installForced`. */
  method InstallForced(rules: map<Mask, Action>) returns (r: map<Mask, Action>)
    ensures r == WithForced(rules)
  {
    r := rules;
    for k := 0 to 6
      invariant r == ForcedUpTo(rules, k)
    {
      r := r[FULL - {DIRECTIONS[k]} := Go(DIRECTIONS[k])];
    }
    r := r[FULL := Die];
  }

  /** `fillWild`. */
  method FillWild(seed: bv64) returns (r: map<Mask, Action>)
    ensures r == WildUpTo(seed, 64).0
  {
    hide XorShift, Below, MaskOf;
    r := map[];
    var x := seed;
    for n := 0 to 64
      invariant (r, x) == WildUpTo(seed, n)
    {
      var m := MaskOf(n);
      if n == 63 {
        FullNumber();
        OnlyFullHasNoExit(m);
        r := r[m := Die];
      } else {
        var exits := Exits(m);
        if |exits| == 0 {
          r := r[m := Die];
        } else {
          x := XorShift(x);
          r := r[m := Go(exits[Below(x, |exits|)])];
        }
      }
    }
  }

  /** A table in which every entry is the same sentinel. */
  method Uniform(a: Action) returns (r: map<Mask, Action>)
    ensures r == UniformUpTo(a, 64)
  {
    r := map[];
    for n := 0 to 64
      invariant r == UniformUpTo(a, n)
    {
      r := r[MaskOf(n) := a];
    }
  }

  method InitialRules(w: Worm, kind: ControllerKind, seed: nat) returns (rules: map<Mask, Action>)
    ensures rules == InitialTable(w, kind, seed)
  {
    hide WithForced, WildUpTo, UniformUpTo;
    match kind {
      case KindNew =>
        var asked := Uniform(GetNew);
        rules := InstallForced(asked);
      case KindAuto =>
        var asked := Uniform(DoAI);
        rules := InstallForced(asked);
      case KindWild =>
        var wild := FillWild(Word(seed));
        rules := InstallForced(wild);
      case _ =>
        rules := InstallForced(w.rules);
    }
  }

  /** `ValidateRules`, mask by mask. */
  method ValidateRules(w: Worm) returns (ok: bool)
    ensures ok <==> ValidRules(w)
  {
    for n := 0 to 64
      invariant forall k: nat :: k < n ==>
                  !RuleAt(w, MaskOf(k)).Malformed? && !DirectionBlocked(MaskOf(k), RuleAt(w, MaskOf(k)))
    {
      var m := MaskOf(n);
      var a := RuleAt(w, m);
      if a.Malformed? || (a.Go? && a.dir in m) {
        return false;
      }
    }
    forall m: Mask ensures !RuleAt(w, m).Malformed? && !DirectionBlocked(m, RuleAt(w, m)) {
      MaskOfNumber(m);
      NumberIsBelow64(m);
    }
    for k := 0 to 6
      invariant forall d: Direction :: d in DIRECTIONS[..k] ==> RuleAt(w, FULL - {d}) == Go(d)
    {
      assert DIRECTIONS[..k + 1] == DIRECTIONS[..k] + [DIRECTIONS[k]];
      if RuleAt(w, FULL - {DIRECTIONS[k]}) != Go(DIRECTIONS[k]) {
        return false;
      }
    }
    assert DIRECTIONS[..6] == DIRECTIONS;
    forall d: Direction ensures RuleAt(w, FULL - {d}) == Go(d) { EveryDirection(d); }
    return RuleAt(w, FULL) == Die;
  }

  /** `ConfigureWorm`: the worm is configured exactly if its table, with the forced entries, is valid. */
  method ConfigureWorm(w: Worm, kind: ControllerKind, seed: nat) returns (r: Option<Worm>)
    ensures r == if ValidRules(Configured(w, kind, seed)) then Some(Configured(w, kind, seed)) else None
  {
    hide ValidRules, InitialTable;
    var rules := InitialRules(w, kind, seed);
    var v := w.(controller := kind, seed := seed);
    if v.crix == Some(East) && v.previous == Some(East) {
      v := v.(crix := None);
    }
    v := v.(previous := None, alive := kind != KindAsleep, rules := rules);
    if kind == KindNew || kind == KindAuto {
      v := v.(frozen := false, uses := map[]);
    } else if kind == KindWild {
      v := v.(frozen := true);
    }
    var ok := ValidateRules(v);
    return if ok then Some(v) else None;
  }

  lemma SameTable(w: Worm, v: Worm)
    requires v.rules == w.rules
    ensures ValidRules(v) == ValidRules(w)
    ensures forall m: Mask :: RuleAt(v, m) == RuleAt(w, m)
  {
    forall m: Mask ensures RuleAt(v, m) == RuleAt(w, m) {}
    assert forall d: Direction :: RuleAt(v, FULL - {d}) == RuleAt(w, FULL - {d});
  }

  ghost predicate AllConfigurable(worms: seq<Worm>, kinds: seq<ControllerKind>, seed: nat) {
    |kinds| == |worms| && forall i :: 0 <= i < |worms| ==> ValidRules(Configured(worms[i], kinds[i], seed + i))
  }

  /** `ConfigureControllers`: all worms, or none of them. */
  method ConfigureControllers(worms: seq<Worm>, kinds: seq<ControllerKind>, seed: nat)
    returns (ok: bool, ws: seq<Worm>)
    ensures ok <==> AllConfigurable(worms, kinds, seed)
    ensures !ok ==> ws == worms
    ensures ok ==> |ws| == |worms| && ValidTables(ws)
    ensures ok ==> forall i :: 0 <= i < |ws| ==> ws[i] == Configured(worms[i], kinds[i], seed + i)
  {
    hide ValidRules, Configured;
    if |kinds| != |worms| {
      return false, worms;
    }
    ws := worms;
    for i := 0 to |worms|
      invariant |ws| == |worms| && ws[i..] == worms[i..]
      invariant forall j :: 0 <= j < i ==>
                  ws[j] == Configured(worms[j], kinds[j], seed + j) && ValidRules(ws[j])
    {
      assert ws[i] == ws[i..][0] == worms[i];
      var w := ConfigureWorm(ws[i], kinds[i], seed + i);
      if w.None? {
        return false, worms;
      }
      ws := ws[i := w.value];
    }
    ok := true;
  }

  // ----- generated boards

  /** The exchange of two elements. */
  function Swapped(s: seq<Point>, i: nat, j: nat): seq<Point>
    requires i < |s| && j < |s|
  {
    s[i := s[j]][j := s[i]]
  }

  /** The shuffle: from the last place down, each place trades with a drawn place at or below it. */
  function Shuffled(s: seq<Point>, i: nat, x: bv64): (t: seq<Point>)
    requires i < |s| || s == []
    ensures |t| == |s|
    decreases i
  {
    if i == 0 || s == [] then s
    else
      var y := XorShift(x);
      Shuffled(Swapped(s, i, Below(y, i + 1)), i - 1, y)
  }

  lemma SwappedElements(s: seq<Point>, i: nat, j: nat)
    requires i < |s| && j < |s| && NoDuplicates(s)
    ensures NoDuplicates(Swapped(s, i, j)) && Elements(Swapped(s, i, j)) == Elements(s)
  {
    var t := Swapped(s, i, j);
    forall p ensures p in t <==> p in s {
      if p in s {
        var k :| 0 <= k < |s| && s[k] == p;
        assert t[if k == i then j else if k == j then i else k] == p;
      }
    }
  }

  /** The shuffle loses no point and repeats none. */
  lemma {:induction false} ShuffledElements(s: seq<Point>, i: nat, x: bv64)
    requires (i < |s| || s == []) && NoDuplicates(s)
    ensures NoDuplicates(Shuffled(s, i, x)) && Elements(Shuffled(s, i, x)) == Elements(s)
    decreases i
  {
    hide XorShift, Below;
    if i > 0 && s != [] {
      var y := XorShift(x);
      var t := Swapped(s, i, Below(y, i + 1));
      SwappedElements(s, i, Below(y, i + 1));
      ShuffledElements(t, i - 1, y);
    }
  }

  method ShuffleInPlace(points: array<Point>, seed: bv64)
    modifies points
    ensures points[..] == Shuffled(old(points[..]), if points.Length == 0 then 0 else points.Length - 1, seed)
  {
    hide XorShift, Below;
    var x := seed;
    var i := points.Length - 1;
    while i > 0
      invariant points.Length > 0 ==> 0 <= i < points.Length
      invariant points.Length > 0 ==>
                  Shuffled(points[..], i, x) == Shuffled(old(points[..]), points.Length - 1, seed)
      invariant points.Length == 0 ==> points[..] == old(points[..])
    {
      x := XorShift(x);
      var j := Below(x, i + 1);
      ghost var before := points[..];
      points[i], points[j] := points[j], points[i];
      assert points[..] == Swapped(before, i, j);
      i := i - 1;
    }
  }

  datatype BoardConfig = BoardConfig(mode: RulesMode, width: int, height: int, participants: int, seed: bv64)

  const CLASSIC_SIZE: int := 18

  const CENTRE := Point(9, 9)

  const HISTORICAL := Board(CLASSIC_SIZE, CLASSIC_SIZE, Toroidal, ClassicRules)

  /** What `GenerateBoard` accepts; a historical board may leave its size open. */
  predicate BoardAccepted(cfg: BoardConfig) {
    && 1 <= cfg.participants <= 4
    && if cfg.mode == ClassicRules then cfg.width in {0, CLASSIC_SIZE} && cfg.height in {0, CLASSIC_SIZE}
       else cfg.width >= 1 && cfg.height >= 1 && cfg.participants <= cfg.width * cfg.height
  }

  function NewWorm(i: nat, p: Point): Worm
    requires i < 10
  {
    Worm(Name("worm-" + ['0' + i as char]), NOBODY, p, true, 0, None, None, KindNew, map[], map[], 0, false)
  }

  /** The first worm of a new game, at the historical start. */
  const LONER := NewWorm(0, CENTRE)

  ghost function EmptyCells(b: Board): map<Point, Territory> {
    map p | p in Cells(b) :: Territory({}, NOBODY, NOBODY)
  }

  ghost function FreshCore(b: Board, worms: seq<Worm>): Core {
    Core(b, 0, 0, worms, map[], EmptyCells(b), -1, None, false)
  }

  /** A new game with named, placed worms is a start from which every theorem about runs applies. */
  lemma FreshIsSound(b: Board, worms: seq<Worm>)
    requires Regular(b) && UniqueIds(worms)
    requires forall i :: 0 <= i < |worms| ==> worms[i].id != NOBODY && worms[i].score == 0
    requires forall i :: 0 <= i < |worms| && worms[i].alive ==> InBounds(b, worms[i].position)
    ensures Sound(FreshCore(b, worms)) && BetweenCalls(FreshCore(b, worms))
  {
    var c := FreshCore(b, worms);
    assert c.territories.Keys == Cells(b);
    forall p ensures SpokeMask(c, p) == {} {}
    forall id | id != NOBODY ensures Owned(c.territories, id) == {} {}
  }

  method PlaceCells(b: Board) returns (points: seq<Point>, cells: map<Point, Territory>)
    requires b.width >= 0 && b.height >= 0
    ensures points == RowMajor(b)
    ensures NoDuplicates(points) && Elements(points) == Cells(b) && |points| == b.width * b.height
    ensures cells == EmptyCells(b)
  {
    points := BoardScan.Points(b);
    cells := map[];
    for i := 0 to |points|
      invariant forall p :: p in cells <==> p in points[..i]
      invariant forall p :: p in cells ==> cells[p] == Territory({}, NOBODY, NOBODY)
    {
      assert points[..i + 1] == points[..i] + [points[i]];
      cells := cells[points[i] := Territory({}, NOBODY, NOBODY)];
    }
    assert points[..|points|] == points;
    forall p ensures p in cells <==> p in Cells(b) {
      assert p in Elements(points) <==> p in points;
    }
  }

  lemma PlacedWorms(b: Board, worms: seq<Worm>, starts: seq<Point>)
    requires Regular(b) && |worms| <= 4 && |worms| <= |starts|
    requires forall j :: 0 <= j < |worms| ==> InBounds(b, starts[j]) && worms[j] == NewWorm(j, starts[j])
    ensures Sound(FreshCore(b, worms)) && BetweenCalls(FreshCore(b, worms))
  {
    hide BetweenCalls, Sound;
    forall i, j | 0 <= i < j < |worms| ensures worms[i].id != worms[j].id {
      assert worms[i].id.text[5] == '0' + i as char && worms[j].id.text[5] == '0' + j as char;
    }
    forall i | 0 <= i < |worms| ensures worms[i].id != NOBODY {
      assert |worms[i].id.text| == 6;
    }
    FreshIsSound(b, worms);
  }

  /** The drawn starts of a modern board: a permutation of its cells. */
  method DrawStarts(points: seq<Point>, seed: bv64) returns (starts: seq<Point>)
    requires NoDuplicates(points) && points != []
    ensures starts == Shuffled(points, |points| - 1, seed)
    ensures NoDuplicates(starts) && Elements(starts) == Elements(points) && |starts| == |points|
  {
    var drawn := new Point[|points|](i requires 0 <= i < |points| => points[i]);
    assert drawn[..] == points;
    ShuffleInPlace(drawn, seed);
    starts := drawn[..];
    ShuffledElements(points, |points| - 1, seed);
  }

  lemma StartsAreCells(b: Board, starts: seq<Point>)
    requires NoDuplicates(starts) && Elements(starts) == Cells(b)
    ensures forall i :: 0 <= i < |starts| ==> InBounds(b, starts[i])
    ensures forall i, j :: 0 <= i < j < |starts| ==> starts[i] != starts[j]
  {
    forall i | 0 <= i < |starts| ensures InBounds(b, starts[i]) {
      assert starts[i] in Elements(starts);
      CellsAreInBounds(b, starts[i]);
    }
  }

  /** The cells of a modern board in the order in which its worms are placed on them. */
  ghost function DrawnStarts(b: Board, seed: bv64): (starts: seq<Point>)
    requires RowMajor(b) != []
    ensures |starts| == |RowMajor(b)|
  {
    Shuffled(RowMajor(b), |RowMajor(b)| - 1, seed)
  }

  /** `GenerateBoard`: modern starts are the distinct cells the seed draws; historical worms share the centre. */
  method GenerateBoard(cfg: BoardConfig) returns (r: Option<Core>)
    ensures r.Some? <==> BoardAccepted(cfg)
    ensures r.Some? ==> Sound(r.value) && BetweenCalls(r.value) && r.value == FreshCore(r.value.board, r.value.worms)
    ensures r.Some? ==> |r.value.worms| == cfg.participants
    ensures r.Some? ==> forall i :: 0 <= i < cfg.participants ==>
            r.value.worms[i] == NewWorm(i, r.value.worms[i].position)
    ensures r.Some? && cfg.mode == ClassicRules ==>
              && r.value.board == HISTORICAL
              && forall i :: 0 <= i < cfg.participants ==> r.value.worms[i].position == CENTRE
    ensures r.Some? && cfg.mode == ModernRules ==>
              && r.value.board == Board(cfg.width, cfg.height, Bounded, ModernRules)
              && cfg.participants <= |RowMajor(r.value.board)|
              && (forall i :: 0 <= i < cfg.participants ==>
                    r.value.worms[i].position == DrawnStarts(r.value.board, cfg.seed)[i])
              && forall i, j :: 0 <= i < j < cfg.participants ==> r.value.worms[i].position != r.value.worms[j].position
  {
    hide Sound, BetweenCalls, RowMajor, Shuffled, EmptyCells, NoDuplicates, Elements;
    if !(1 <= cfg.participants <= 4) {
      return None;
    }
    var board;
    if cfg.mode == ClassicRules {
      var width := if cfg.width == 0 then CLASSIC_SIZE else cfg.width;
      var height := if cfg.height == 0 then CLASSIC_SIZE else cfg.height;
      if width != CLASSIC_SIZE || height != CLASSIC_SIZE {
        return None;
      }
      board := HISTORICAL;
    } else {
      if cfg.width < 1 || cfg.height < 1 {
        return None;
      }
      board := Board(cfg.width, cfg.height, Bounded, ModernRules);
    }
    var points, cells := PlaceCells(board);
    var starts: seq<Point>;
    if cfg.mode == ModernRules {
      if |points| < cfg.participants {
        return None;
      }
      starts := DrawStarts(points, cfg.seed);
      StartsAreCells(board, starts);
    } else {
      starts := seq(cfg.participants, _ => CENTRE);
    }
    var worms: seq<Worm> := [];
    for i := 0 to cfg.participants
      invariant |worms| == i && forall j :: 0 <= j < i ==> worms[j] == NewWorm(j, starts[j])
    {
      worms := worms + [NewWorm(i, starts[i])];
    }
    PlacedWorms(board, worms, starts);
    return Some(Core(board, 0, 0, worms, map[], cells, -1, None, false));
  }

  /**
   * From a new game on a historical torus with valid tables there is a run to the end, and it takes at most three calls
   * for each edge and each worm, and two more.
   */
  lemma NewGameEnds(b: Board, worms: seq<Worm>, n: nat) returns (ops: seq<Op>)
    requires Regular(b) && b.topology == Toroidal && b.mode == ClassicRules && UniqueIds(worms) && ValidTables(worms)
    requires forall i :: 0 <= i < |worms| ==> worms[i].id != NOBODY && worms[i].score == 0
    requires forall i :: 0 <= i < |worms| && worms[i].alive ==> InBounds(b, worms[i].position)
    ensures var r := Play(FreshCore(b, worms), n, ops); r.Ok? && Ended(r.value.core)
    ensures forall k :: 0 <= k < |ops| ==> ops[k].OpCall?
    ensures |ops| <= 9 * (b.width * b.height) + 3 * |AliveSlots(worms)| + 2
  {
    hide Play, Sound, ValidTables, AliveSlots, Grounded;
    var c := FreshCore(b, worms);
    FreshIsSound(b, worms);
    SoundIsGrounded(c);
    ops := GameEnds(c, n);
    RunIsBounded(c, n, ops);
  }
}
