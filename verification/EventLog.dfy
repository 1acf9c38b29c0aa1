/** Event sourcing: `Replay` rebuilds the state, log included, from the events any run of the engine has emitted. */
module EventLog {
  import opened Geometry
  import opened Engine
  import opened Wrappers

  // ----- applying one recorded event

  function FirstDirection(b: Board, from: Point, to: Point, dirs: seq<Direction>): Heading {
    if dirs == [] then None
    else if Neighbor(b, from, dirs[0]) == to then Some(dirs[0])
    else FirstDirection(b, from, to, dirs[1..])
  }

  /** The direction a recorded move took: the first one that leads from its origin to its end. */
  function RecordedDirection(c: Core, worm: Id, from: Point, to: Point, edge: Edge): Outcome<Direction> {
    var i := WormIndex(c.worms, worm);
    if i < 0 then Err(BadReplay("unknown worm"))
    else if c.worms[i].position != from then Err(BadReplay("origin"))
    else if edge != NewEdge(from, to) then Err(BadReplay("edge"))
    else
      var d := FirstDirection(c.board, from, to, DIRECTIONS);
      if d.Some? then Ok(d.value) else Err(BadReplay("not neighbours"))
  }

  function ApplyColor(c: Core, p: Point, color: Color, mask: Mask): Core {
    var t := CellAt(c.territories, p);
    c.(territories := c.territories[p := Territory(mask, if t.owner == NOBODY then color else t.color, t.owner)])
  }

  function ApplyCapture(c: Core, worm: Id, p: Point, color: Color, delta: int, mask: Mask): Outcome<Core> {
    var i := WormIndex(c.worms, worm);
    if i < 0 then Err(BadReplay("unknown worm"))
    else Ok(c.(territories := c.territories[p := Territory(mask, color, worm)],
               worms := c.worms[i := c.worms[i].(score := c.worms[i].score + delta)]))
  }

  function ApplyMove(c: Core, worm: Id, from: Point, to: Point, edge: Edge): Outcome<Core> {
    var i := WormIndex(c.worms, worm);
    if i < 0 || !c.worms[i].alive then Err(BadReplay("not alive"))
    else
      var d := RecordedDirection(c, worm, from, to, edge);
      if d.Err? then Err(d.error)
      else Ok(WithWorm(c, i, c.worms[i].(position := to, previous := Some(d.value), crix := Some(Opposite(d.value)))))
  }

  function ApplyDeath(c: Core, worm: Id, to: Point): Outcome<Core> {
    var i := WormIndex(c.worms, worm);
    if i < 0 then Err(BadReplay("unknown worm"))
    else if to != c.worms[i].position then Err(BadReplay("origin"))
    else Ok(Fall(c, i))
  }

  /** A learned rule also resolves the pending decision it answers. */
  function ApplyLearned(c: Core, worm: Id, mask: Mask, action: Action): Outcome<Core> {
    var i := WormIndex(c.worms, worm);
    if i < 0 then Err(BadReplay("unknown worm"))
    else
      var c' := Learn(c, i, mask, action);
      if c.pending.Some? && c.pending.value.worm == worm && c.pending.value.mask == mask
      then Ok(c'.(pending := None, activeSlot := c.pending.value.slot + 1))
      else Ok(c')
  }

  function ApplyUsed(c: Core, worm: Id, mask: Mask, count: nat): Outcome<Core> {
    var i := WormIndex(c.worms, worm);
    if i < 0 then Err(BadReplay("unknown worm"))
    else Ok(WithWorm(c, i, c.worms[i].(uses := c.worms[i].uses[mask := count])))
  }

  function ApplyPending(c: Core, worm: Id, mask: Mask, slot: int, request: nat, reason: string): Outcome<Core> {
    var i := WormIndex(c.worms, worm);
    if i < 0 || slot != i then Err(BadReplay("slot"))
    else Ok(c.(pending := Some(Decision(worm, mask, slot, request, reason, c.worms[i].frozen)), activeSlot := slot))
  }

  function ApplyRound(c: Core, round: nat): Outcome<Core> {
    if round != c.round + 1 then Err(BadReplay("round"))
    else if c.pending.Some? then Err(BadReplay("pending"))
    else Ok(c.(round := round, activeSlot := -1))
  }

  function ApplyBody(c: Core, e: Draft): Outcome<Core> {
    match e.body
    case TerritoryColorChanged(_, p, color, mask) => Ok(ApplyColor(c, p, color, mask))
    case TerritoryCaptured(worm, p, color, delta, mask) => ApplyCapture(c, worm, p, color, delta, mask)
    case WormMoved(worm, from, to, edge, _) => ApplyMove(c, worm, from, to, edge)
    case WormDied(worm, to) => ApplyDeath(c, worm, to)
    case WormBlocked(worm, to) => ApplyDeath(c, worm, to)
    case RuleLearned(worm, _, mask, action, _) => ApplyLearned(c, worm, mask, action)
    case RuleUsed(worm, _, mask, _, count) => ApplyUsed(c, worm, mask, count)
    case DecisionPending(worm, mask, slot, request, reason) => ApplyPending(c, worm, mask, slot, request, reason)
    case RoundCompleted => ApplyRound(c, e.round)
    case GameEnded => Ok(c.(over := true))
    case TrailClaimed(_, _, _, _, _, _) => Err(BadReplay("tick"))
    case Unsupported(_) => Err(BadReplay("unsupported"))
  }

  /** A trail starts the next tick; every other event belongs to the current one. */
  function Apply(c: Core, e: Draft): Outcome<Core> {
    if e.body.TrailClaimed? then
      if e.body.edge != NewEdge(e.body.from, e.body.to) then Err(BadReplay("edge"))
      else if e.tick != c.tick + 1 then Err(BadReplay("tick"))
      else if e.body.edge in c.trails then Err(BadReplay("existing edge"))
      else Ok(c.(tick := c.tick + 1, trails := c.trails[e.body.edge := e.body.worm]))
    else if e.tick != c.tick then Err(BadReplay("tick"))
    else ApplyBody(c, e)
  }

  function ApplyAll(c: Core, log: seq<Draft>): Outcome<Core>
    decreases |log|
  {
    if log == [] then Ok(c)
    else match Apply(c, log[0])
      case Err(e) => Err(e)
      case Ok(c') => ApplyAll(c', log[1..])
  }

  // ----- the whole of Replay, with its metadata checks and the legacy form

  function DraftOf(e: Event): Draft {
    Draft(e.tick, e.round, e.body)
  }

  function Drafts(events: seq<Event>): (log: seq<Draft>)
    ensures |log| == |events|
  {
    seq(|events|, i requires 0 <= i < |events| => DraftOf(events[i]))
  }

  /** Event k of a replay onto a log of n events has a known version and the next sequence number. */
  predicate InSequence(n: nat, events: seq<Event>) {
    forall k :: 0 <= k < |events| ==> events[k].version in {0, EVENT_VERSION} && events[k].number == n + k + 1
  }

  predicate Legacy(events: seq<Event>) {
    forall k :: 0 <= k < |events| ==> events[k].body.WormMoved?
  }

  /** The place in a move's log of the event `Step` returns. */
  function ReturnedAt(log: seq<Draft>): int {
    if log != [] && log[|log| - 1].body.WormDied? then |log| - 2 else |log| - 1
  }

  function StepRecorded(g: Game, e: Event): Outcome<Done> {
    if !e.body.WormMoved? then Err(BadReplay("type"))
    else match RecordedDirection(g.core, e.body.worm, e.body.from, e.body.to, e.body.edge)
      case Err(error) => Err(error)
      case Ok(d) => Step(g.core, e.body.worm, Some(d))
  }

  function Append(g: Game, r: Done): Game {
    Game(r.core, g.events + Stamp(|g.events|, r.log))
  }

  /** The probe of a legacy stream: event k may carry its own sequence number or the one its re-executed move gets. */
  predicate ProbeAccepts(g: Game, n: nat, events: seq<Event>)
    decreases |events|
  {
    events == [] ||
    (var e := events[0];
     && e.version in {0, EVENT_VERSION}
     && match StepRecorded(g, e)
        case Ok(r) =>
          && (e.number == n + 1 || e.number == |g.events| + ReturnedAt(r.log) + 1)
          && ProbeAccepts(Append(g, r), n + 1, events[1..])
        case Err(_) => e.number == n + 1 && ProbeAccepts(g, n + 1, events[1..]))
  }

  function ReplayMoves(g: Game, events: seq<Event>): Outcome<Game>
    decreases |events|
  {
    if events == [] then Ok(g)
    else match StepRecorded(g, events[0])
      case Err(e) => Err(e)
      case Ok(r) => ReplayMoves(Append(g, r), events[1..])
  }

  function Replay(g: Game, events: seq<Event>): Outcome<Game> {
    if events == [] then Ok(g)
    else if Legacy(events) then
      if ProbeAccepts(g, |g.events|, events) then ReplayMoves(g, events) else Err(BadReplay("metadata"))
    else if !InSequence(|g.events|, events) then Err(BadReplay("metadata"))
    else match ApplyAll(g.core, Drafts(events))
      case Err(e) => Err(e)
      case Ok(c) => Ok(Game(c, g.events + events))
  }
}
