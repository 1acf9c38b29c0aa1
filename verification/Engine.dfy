/**
 * The rules of internal/engine as functions on values: one move, one slot's turn, a round, and a submitted decision.
 * Each function returns the next core state and the events it emits, as drafts that `Stamp` numbers when they are
 * appended to a log. The class `State` of module GameState performs the same operations in place.
 */
module Engine {
  import opened Geometry
  import opened Wrappers

  /** Identities and colours; the source converts the one into the other, and an empty one stands for none. */
  datatype Name = Name(text: string)

  type Id = Name

  type Color = Name

  const NOBODY := Name("")

  datatype RejectReason =
    | UnknownWorm | DeadWorm | InvalidDirection | OccupiedSpoke | OutOfBounds | OccupiedDestination
    | ExistingTrail | GameOver | PendingDecision | FrozenUnknown

  datatype Error =
    | Rejected(reason: RejectReason)
    | IllegalRule(worm: Id, mask: Mask, action: Action)
    | BadReplay(why: string)
    | Crash  // the source indexes out of range

  type Outcome<+T> = Result<T, Error>

  /** A remembered action; `Malformed` is any code that is neither a direction nor a sentinel. */
  datatype Action = Go(dir: Direction) | GetNew | DoAI | Die | Malformed(code: int)

  datatype ControllerKind = KindNew | KindAuto | KindWild | KindSame | KindNamed | KindAsleep

  /** Rule and use tables are arrays of 64 in the source: a mask with no entry holds the array's zero value. */
  datatype Worm = Worm(
    id: Id, color: Color, position: Point, alive: bool, score: int, previous: Heading, crix: Heading,
    controller: ControllerKind, rules: map<Mask, Action>, uses: map<Mask, nat>, seed: nat, frozen: bool)

  datatype Territory = Territory(mask: Mask, color: Color, owner: Id)

  datatype Decision = Decision(worm: Id, mask: Mask, slot: int, request: nat, reason: string, frozen: bool)

  /** Everything in a state except its event log. */
  datatype Core = Core(
    board: Board, tick: nat, round: nat, worms: seq<Worm>, trails: map<Edge, Id>, territories: map<Point, Territory>,
    activeSlot: int, pending: Option<Decision>, over: bool)

  datatype Body =
    | TrailClaimed(worm: Id, from: Point, to: Point, edge: Edge, color: Color, mask: Mask)
    | TerritoryColorChanged(worm: Id, territory: Point, color: Color, mask: Mask)
    | TerritoryCaptured(worm: Id, territory: Point, color: Color, scoreDelta: int, mask: Mask)
    | WormMoved(worm: Id, from: Point, to: Point, edge: Edge, color: Color)
    | WormDied(worm: Id, to: Point)
    | WormBlocked(worm: Id, to: Point)
    | RuleLearned(worm: Id, slot: int, mask: Mask, action: Action, provenance: string)
    | RuleUsed(worm: Id, slot: int, mask: Mask, action: Action, count: nat)
    | DecisionPending(worm: Id, mask: Mask, slot: int, request: nat, reason: string)
    | RoundCompleted
    | GameEnded
    | Unsupported(kind: string)

  /** An event before it has a place in a log. */
  datatype Draft = Draft(tick: nat, round: nat, body: Body)

  datatype Event = Event(version: int, number: nat, tick: nat, round: nat, body: Body)

  datatype Game = Game(core: Core, events: seq<Event>)

  /** A successful operation: the state after it and the events it emitted. */
  datatype Done = Done(core: Core, log: seq<Draft>)

  const EVENT_VERSION := 1

  const UNKNOWN_PATTERN := "unknown_pattern"

  const USE_COUNT_MODULUS: nat := 0x1_0000_0000

  function Emit(c: Core, body: Body): Draft {
    Draft(c.tick, c.round, body)
  }

  /** The events a log of length n receives for the drafts. */
  function Stamp(n: nat, log: seq<Draft>): (events: seq<Event>)
    ensures |events| == |log|
  {
    seq(|log|, i requires 0 <= i < |log| => Event(EVENT_VERSION, n + i + 1, log[i].tick, log[i].round, log[i].body))
  }

  // ----- reading a state

  /** The mask recomputed from the trails alone. */
  function Spokes(b: Board, trails: map<Edge, Id>, p: Point): Mask {
    set d | d in FULL && EdgeFrom(b, p, d) in trails
  }

  function SpokeMask(c: Core, p: Point): Mask {
    Spokes(c.board, c.trails, p)
  }

  function CellAt(cells: map<Point, Territory>, p: Point): Territory {
    if p in cells then cells[p] else Territory({}, NOBODY, NOBODY)
  }

  /** The mask a controller sees: the trails, and whatever the territory has cached. */
  function MaskAt(c: Core, p: Point): Mask {
    SpokeMask(c, p) + CellAt(c.territories, p).mask
  }

  function WormIndex(ws: seq<Worm>, id: Id): (i: int)
    ensures -1 <= i < |ws|
    ensures i >= 0 ==> ws[i].id == id && forall j :: 0 <= j < i ==> ws[j].id != id
    ensures i < 0 ==> forall j :: 0 <= j < |ws| ==> ws[j].id != id
  {
    if ws == [] then -1
    else if ws[0].id == id then 0
    else var j := WormIndex(ws[1..], id); if j < 0 then -1 else j + 1
  }

  predicate HasWorm(c: Core, p: Point) {
    exists i :: 0 <= i < |c.worms| && c.worms[i].alive && c.worms[i].position == p
  }

  predicate IsLegal(c: Core, from: Point, d: Direction) {
    var to := Neighbor(c.board, from, d);
    && d !in MaskAt(c, from)
    && InBounds(c.board, to)
    && !(c.board.mode == ModernRules && HasWorm(c, to))
  }

  function LegalAmong(c: Core, from: Point, dirs: seq<Direction>): (ds: seq<Direction>)
    ensures forall d :: d in ds <==> d in dirs && IsLegal(c, from, d)
    ensures |ds| <= |dirs|
  {
    if dirs == [] then []
    else (if IsLegal(c, from, dirs[0]) then [dirs[0]] else []) + LegalAmong(c, from, dirs[1..])
  }

  function LegalMoves(c: Core, id: Id): seq<Direction> {
    var i := WormIndex(c.worms, id);
    if i < 0 || !c.worms[i].alive then [] else LegalAmong(c, c.worms[i].position, DIRECTIONS)
  }

  ghost function AliveSlots(ws: seq<Worm>): set<nat> {
    set i: nat | i < |ws| && ws[i].alive
  }

  function RuleAt(w: Worm, m: Mask): Action {
    if m in w.rules then w.rules[m] else Go(East)
  }

  function UsesAt(w: Worm, m: Mask): nat {
    if m in w.uses then w.uses[m] else 0
  }

  function TrailColor(w: Worm): Color {
    if w.color == NOBODY then w.id else w.color
  }

  // ----- one move

  function WithWorm(c: Core, i: nat, w: Worm): Core
    requires i < |c.worms|
  {
    c.(worms := c.worms[i := w])
  }

  function Fall(c: Core, i: nat): Core
    requires i < |c.worms|
  {
    WithWorm(c, i, c.worms[i].(alive := false, crix := None))
  }

  /** A cell completes for the worm that draws its last spoke while nobody owns it. */
  predicate Captures(t: Territory, m: Mask) {
    m == FULL && t.owner == NOBODY
  }

  /** A cell whose mask has become m: captured, recoloured, or only refreshed. */
  function Settle(t: Territory, m: Mask, id: Id, color: Color): Territory {
    if Captures(t, m) then Territory(m, color, id)
    else if t.owner == NOBODY then Territory(m, color, NOBODY)
    else Territory(m, t.color, t.owner)
  }

  function SettleNews(t: Territory, m: Mask, id: Id, color: Color, p: Point): seq<Body> {
    if Captures(t, m) then [TerritoryCaptured(id, p, color, 1, FULL)]
    else if m != FULL && t.owner == NOBODY then [TerritoryColorChanged(id, p, color, m)]
    else []
  }

  function Points(t: Territory, m: Mask): int {
    if Captures(t, m) then 1 else 0
  }

  /** The mask of cell p after the trails have become `trails`. */
  function Refreshed(b: Board, trails: map<Edge, Id>, cells: map<Point, Territory>, p: Point): Mask {
    CellAt(cells, p).mask + Spokes(b, trails, p)
  }

  function EmitAll(tick: nat, round: nat, bodies: seq<Body>): (log: seq<Draft>)
    ensures |log| == |bodies|
  {
    seq(|bodies|, i requires 0 <= i < |bodies| => Draft(tick, round, bodies[i]))
  }

  /** A legal move: source trail, source capture, position, destination capture, and death in a completed cell. */
  function Move(c: Core, i: nat, d: Direction): (r: Done)
    requires i < |c.worms|
    ensures |r.core.worms| == |c.worms| && r.core.board == c.board
  {
    var w := c.worms[i];
    var color := TrailColor(w);
    var from := w.position;
    var to := Neighbor(c.board, from, d);
    var edge := NewEdge(from, to);
    var trails := c.trails[edge := w.id];
    var source := CellAt(c.territories, from);
    var sourceMask := Refreshed(c.board, trails, c.territories, from);
    var cells := c.territories[from := Settle(source, sourceMask, w.id, color)];
    var target := CellAt(cells, to);
    var targetMask := Refreshed(c.board, trails, cells, to);
    var dies := targetMask == FULL;
    var w' := w.(position := to, previous := Some(d), crix := if dies then None else Some(Opposite(d)),
                 alive := w.alive && !dies, score := w.score + Points(source, sourceMask) + Points(target, targetMask));
    var bodies := [TrailClaimed(w.id, from, to, edge, color, sourceMask)]
                  + SettleNews(source, sourceMask, w.id, color, from)
                  + SettleNews(target, targetMask, w.id, color, to)
                  + [WormMoved(w.id, from, to, edge, color)]
                  + if dies then [WormDied(w.id, to)] else [];
    Done(c.(tick := c.tick + 1, trails := trails, worms := c.worms[i := w'],
            territories := cells[to := Settle(target, targetMask, w.id, color)]),
         EmitAll(c.tick + 1, c.round, bodies))
  }

  function Step(c: Core, id: Id, h: Heading): (r: Outcome<Done>)
    ensures r.Ok? ==> |r.value.core.worms| == |c.worms| && r.value.core.board == c.board
  {
    var i := WormIndex(c.worms, id);
    if c.over then Err(Rejected(GameOver))
    else if i < 0 then Err(Rejected(UnknownWorm))
    else if !c.worms[i].alive then Err(Rejected(DeadWorm))
    else if h.None? then Err(Rejected(InvalidDirection))
    else
      var from := c.worms[i].position;
      var to := Neighbor(c.board, from, h.value);
      if h.value in MaskAt(c, from) then Err(Rejected(OccupiedSpoke))
      else if !InBounds(c.board, to) then Err(Rejected(OutOfBounds))
      else if c.board.mode == ModernRules && HasWorm(c, to) then Err(Rejected(OccupiedDestination))
      else if NewEdge(from, to) in c.trails then Err(Rejected(ExistingTrail))
      else Ok(Move(c, i, h.value))
  }

  // ----- the automatic controller

  datatype AutoScore = AutoScore(capture: int, collision: int, survival: int)

  predicate Better(a: AutoScore, b: AutoScore) {
    || a.capture > b.capture
    || (a.capture == b.capture && a.collision < b.collision)
    || (a.capture == b.capture && a.collision == b.collision && a.survival > b.survival)
  }

  ghost function Colliders(c: Core, slot: nat, to: Point): set<nat> {
    set i: nat | i < |c.worms| && i != slot && c.worms[i].alive && c.worms[i].position == to
  }

  /** What a trial move in direction d is worth to the worm. */
  ghost function Rate(c: Core, slot: nat, d: Direction): AutoScore
    requires slot < |c.worms| && Step(c, c.worms[slot].id, Some(d)).Ok?
  {
    var w := c.worms[slot];
    var trial := Step(c, w.id, Some(d)).value.core;
    AutoScore(trial.worms[slot].score - w.score,
              |Colliders(c, slot, Neighbor(c.board, w.position, d))|,
              |LegalMoves(trial, w.id)|)
  }

  /** The running best score and the directions that tie for it, after looking at `moves` in order. */
  ghost function Weigh(c: Core, slot: nat, moves: seq<Direction>, best: AutoScore, ties: seq<Direction>)
    : (AutoScore, seq<Direction>)
    requires slot < |c.worms|
  {
    if moves == [] then (best, ties)
    else if Step(c, c.worms[slot].id, Some(moves[0])).Err? then Weigh(c, slot, moves[1..], best, ties)
    else
      var score := Rate(c, slot, moves[0]);
      if Better(score, best) then Weigh(c, slot, moves[1..], score, [moves[0]])
      else if score == best then Weigh(c, slot, moves[1..], best, ties + [moves[0]])
      else Weigh(c, slot, moves[1..], best, ties)
  }

  const WORST := AutoScore(-1, 0x4000_0000, -1)

  function XorShift(x: bv64): bv64 {
    var a := if x == 0 then 0x9e3779b97f4a7c15 else x;
    var b := a ^ (a << 13);
    var d := b ^ (b >> 7);
    d ^ (d << 17)
  }

  /** A word reduced to one of n choices. */
  function Below(x: bv64, n: nat): (k: nat)
    requires n > 0
    ensures k < n
  {
    Residue(x as nat, n)
  }

  function Residue(w: nat, n: nat): (k: nat)
    requires n > 0
    ensures k < n
  {
    w % n
  }

  /** The seeded draw that breaks a tie between n directions. */
  function DrawAt(seed: nat, round: nat, tick: nat, slot: nat, n: nat): (k: nat)
    requires n > 0
    ensures k < n
  {
    var x := Word(seed) ^ (Word(round + 1) << 32) ^ (Word(tick + 1) << 16) ^ Word(slot + 1);
    Below(XorShift(x), n)
  }

  function Draw(c: Core, slot: nat, n: nat): (k: nat)
    requires slot < |c.worms| && n > 0
    ensures k < n
  {
    DrawAt(c.worms[slot].seed, c.round, c.tick, slot, n)
  }

  function Word(x: nat): bv64 {
    (x % 0x1_0000_0000_0000_0000) as bv64
  }

  ghost function ChooseAuto(c: Core, slot: nat): Heading
    requires slot < |c.worms|
  {
    var moves := LegalMoves(c, c.worms[slot].id);
    if moves == [] then None
    else
      var ties := Weigh(c, slot, moves, WORST, []).1;
      if |ties| == 0 then Some(moves[0])
      else if |ties| == 1 then Some(ties[0])
      else Some(ties[Draw(c, slot, |ties|)])
  }

  // ----- rounds

  datatype Turn = Continue(core: Core, log: seq<Draft>) | Stall(core: Core, log: seq<Draft>) | Fail(error: Error)

  function ActionOf(h: Heading): Action {
    match h case Some(d) => Go(d) case None => Malformed(6)
  }

  function Learn(c: Core, slot: nat, m: Mask, a: Action): Core
    requires slot < |c.worms|
  {
    WithWorm(c, slot, c.worms[slot].(rules := c.worms[slot].rules[m := a]))
  }

  function Count(c: Core, slot: nat, m: Mask): Core
    requires slot < |c.worms|
  {
    var w := c.worms[slot];
    WithWorm(c, slot, w.(uses := w.uses[m := (UsesAt(w, m) + 1) % USE_COUNT_MODULUS]))
  }

  function UseEvent(c: Core, slot: nat, m: Mask, a: Action): Draft
    requires slot < |c.worms|
  {
    Emit(c, RuleUsed(c.worms[slot].id, slot, m, a, UsesAt(c.worms[slot], m)))
  }

  /** Carry out a remembered action that is not a sentinel. */
  function Act(c: Core, slot: nat, m: Mask, a: Action): (r: Turn)
    requires slot < |c.worms|
    ensures !r.Stall?
    ensures r.Continue? ==> |r.core.worms| == |c.worms| && r.core.board == c.board
  {
    var w := c.worms[slot];
    if !a.Go? || a.dir in m then Fail(IllegalRule(w.id, m, a))
    else
      var counted := Count(c, slot, m);
      var r := Step(counted, w.id, Some(a.dir));
      if r.Err? then Fail(r.error)
      else Continue(r.value.core, [UseEvent(counted, slot, m, a)] + r.value.log)
  }

  /** An automatic choice: a worm that is not frozen remembers it before acting on it. */
  function Automatic(c: Core, slot: nat, m: Mask, a: Action): (r: Turn)
    requires slot < |c.worms|
    ensures !r.Stall?
    ensures r.Continue? ==> |r.core.worms| == |c.worms| && r.core.board == c.board
  {
    var w := c.worms[slot];
    if w.frozen then Act(c, slot, m, a)
    else
      var r := Act(Learn(c, slot, m, a), slot, m, a);
      if r.Fail? then r else Continue(r.core, [Emit(c, RuleLearned(w.id, slot, m, a, "auto"))] + r.log)
  }

  function AwaitDecision(c: Core, slot: nat, m: Mask, n: nat): Turn
    requires slot < |c.worms|
  {
    var w := c.worms[slot];
    Stall(c.(pending := Some(Decision(w.id, m, slot, n + 1, UNKNOWN_PATTERN, w.frozen))),
          [Emit(c, DecisionPending(w.id, m, slot, n + 1, UNKNOWN_PATTERN))])
  }

  /** Follow the remembered action of a live worm that has a legal move, when the log already holds n events. */
  ghost function Obey(c: Core, slot: nat, m: Mask, a: Action, n: nat): (r: Turn)
    requires slot < |c.worms|
    ensures !r.Fail? ==> |r.core.worms| == |c.worms| && r.core.board == c.board
  {
    match a
    case GetNew => AwaitDecision(c, slot, m, n)
    case DoAI => Automatic(c, slot, m, ActionOf(ChooseAuto(c, slot)))
    case Die => Continue(Fall(c, slot), [Emit(c, WormDied(c.worms[slot].id, c.worms[slot].position))])
    case _ => Act(c, slot, m, a)
  }

  /** One slot's part of a round. */
  ghost function TakeTurn(c: Core, slot: nat, n: nat): (r: Turn)
    requires slot < |c.worms|
    ensures !r.Fail? ==> |r.core.worms| == |c.worms| && r.core.board == c.board
  {
    var w := c.worms[slot];
    if !w.alive then Continue(c, [])
    else if LegalMoves(c, w.id) == [] then Continue(Fall(c, slot), [Emit(c, WormBlocked(w.id, w.position))])
    else Obey(c, slot, MaskAt(c, w.position), RuleAt(w, MaskAt(c, w.position)), n)
  }

  ghost function Finish(c: Core): Done {
    var c' := c.(activeSlot := -1, round := c.round + 1);
    var ended := AliveSlots(c.worms) == {};
    Done(c'.(over := c.over || ended), [Emit(c', RoundCompleted)] + if ended then [Emit(c', GameEnded)] else [])
  }

  /** The rest of a round from a slot on: up to its end, a stall, or an error. */
  ghost function Slots(c: Core, slot: nat, n: nat): (r: Outcome<Done>)
    ensures r.Ok? ==> |r.value.core.worms| == |c.worms| && r.value.core.board == c.board
    decreases |c.worms| - slot
  {
    if slot >= |c.worms| then Ok(Finish(c))
    else
      match TakeTurn(c.(activeSlot := slot), slot, n)
      case Fail(e) => Err(e)
      case Stall(c', log) => Ok(Done(c', log))
      case Continue(c', log) => After(log, Slots(c', slot + 1, n + |log|))
  }

  function After(log: seq<Draft>, r: Outcome<Done>): Outcome<Done> {
    match r case Ok(d) => Ok(Done(d.core, log + d.log)) case Err(e) => Err(e)
  }

  ghost function AdvanceRound(c: Core, n: nat): Outcome<Done> {
    if c.pending.Some? then Err(Rejected(PendingDecision))
    else if c.over then Err(Rejected(GameOver))
    else Slots(c, if c.activeSlot >= 0 then c.activeSlot else 0, n)
  }

  /** The source indexes the worm slots with the pending decision's slot. */
  predicate PendingInRange(c: Core) {
    c.pending.Some? ==> 0 <= c.pending.value.slot < |c.worms|
  }

  /** The state in which the submitted direction is played: rule taught, decision resolved, use counted. */
  function Taught(c: Core, d: Direction): Core
    requires PendingInRange(c) && c.pending.Some?
  {
    var p := c.pending.value;
    Count(Learn(c, p.slot, p.mask, Go(d)).(pending := None, activeSlot := p.slot + 1), p.slot, p.mask)
  }

  /** The pending worm learns the direction and makes the move. */
  function Answer(c: Core, d: Direction): (r: Outcome<Done>)
    requires PendingInRange(c) && c.pending.Some?
    ensures r.Ok? ==> |r.value.core.worms| == |c.worms| && r.value.core.board == c.board
  {
    var p := c.pending.value;
    var w := c.worms[p.slot];
    var taught := Taught(c, d);
    After([Emit(c, RuleLearned(w.id, p.slot, p.mask, Go(d), "new")), UseEvent(taught, p.slot, p.mask, Go(d))],
          Step(taught, w.id, Some(d)))
  }

  ghost function Submit(c: Core, n: nat, h: Heading): Outcome<Done> {
    if c.pending.None? then Err(Rejected(PendingDecision))
    else if !PendingInRange(c) then Err(Crash)
    else
      var p := c.pending.value;
      var w := c.worms[p.slot];
      if p.frozen || w.frozen then Err(Rejected(FrozenUnknown))
      else if h.None? then Err(Rejected(InvalidDirection))
      else if h.value !in LegalMoves(c, w.id) then Err(Rejected(OccupiedSpoke))
      else
        var r := Answer(c, h.value);
        if r.Err? then r
        else After(r.value.log, Slots(r.value.core, p.slot + 1, n + |r.value.log|))
  }

  // ----- valid rule tables

  predicate DirectionBlocked(m: Mask, a: Action) {
    a.Go? && a.dir in m
  }

  /** `ValidateRules`: no remembered direction is occupied, and the forced exits and the full mask are as fixed. */
  ghost predicate ValidRules(w: Worm) {
    && (forall m: Mask :: !RuleAt(w, m).Malformed? && !DirectionBlocked(m, RuleAt(w, m)))
    && (forall d: Direction :: RuleAt(w, FULL - {d}) == Go(d))
    && RuleAt(w, FULL) == Die
  }

  predicate UniqueIds(ws: seq<Worm>) {
    forall i, j :: 0 <= i < j < |ws| ==> ws[i].id != ws[j].id
  }

  lemma IndexOfSlot(ws: seq<Worm>, i: nat)
    requires UniqueIds(ws) && i < |ws|
    ensures WormIndex(ws, ws[i].id) == i
  {
  }
}
