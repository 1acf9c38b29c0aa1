/** Which recorded events a replay accepts, and what each of them says about the state after it. */
module ReplayRefusals {
  import opened Geometry
  import opened Engine
  import opened EventLog
  import opened MoveLaws
  import opened Wrappers

  /** The same state with the worm in place i changed. */
  ghost predicate WithOne(c: Core, i: int, w: Worm, c': Core) {
    0 <= i < |c.worms| && c' == c.(worms := c.worms[i := w])
  }

  /** The cell's new content, everything else as before. */
  ghost predicate WithCellAs(c: Core, p: Point, mask: Mask, color: Color, owner: Id, c': Core) {
    c' == c.(territories := c.territories[p := Territory(mask, color, owner)], worms := c'.worms)
  }

  /** Some direction leads from one cell to the other. */
  ghost predicate Adjacent(b: Board, p: Point, q: Point) {
    exists d: Direction :: Neighbor(b, p, d) == q
  }

  /** A trail event is accepted exactly on the next tick, for the edge between its ends, if that edge is free. */
  lemma TrailEvents(c: Core, e: Draft)
    requires e.body.TrailClaimed?
    ensures var t := e.body; var r := Apply(c, e);
      && (r.Ok? <==> t.edge == NewEdge(t.from, t.to) && e.tick == c.tick + 1 && t.edge !in c.trails)
      && (r.Ok? ==> r.value == c.(tick := c.tick + 1, trails := c.trails[t.edge := t.worm]))
  {
  }

  /** Every other event belongs to the current tick. */
  lemma LateEvents(c: Core, e: Draft)
    requires !e.body.TrailClaimed? && e.tick != c.tick
    ensures Apply(c, e).Err?
  {
  }

  /** A recoloured cell keeps the colour of an owner; a captured one takes the colour and the owner, who scores. */
  lemma CellEvents(c: Core, e: Draft)
    requires e.tick == c.tick
    ensures e.body.TerritoryColorChanged? ==>
              var t := CellAt(c.territories, e.body.territory); var r := Apply(c, e);
              && r.Ok? && r.value.worms == c.worms
              && WithCellAs(c, e.body.territory, e.body.mask,
                            if t.owner == NOBODY then e.body.color else t.color, t.owner, r.value)
    ensures e.body.TerritoryCaptured? ==>
              var r := Apply(c, e);
              if forall i :: 0 <= i < |c.worms| ==> c.worms[i].id != e.body.worm then r.Err?
              else
                && r.Ok? && WithCellAs(c, e.body.territory, e.body.mask, e.body.color, e.body.worm, r.value)
                && exists i :: Named(c.worms, e.body.worm, i) && r.value.worms
                     == c.worms[i := c.worms[i].(score := c.worms[i].score + e.body.scoreDelta)]
  {
    if e.body.TerritoryCaptured? {
      var i := WormIndex(c.worms, e.body.worm);
      assert i >= 0 ==> Named(c.worms, e.body.worm, i);
    }
  }

  /** A move event is accepted exactly from where its live worm stands, along the edge to a neighbour. */
  lemma MoveEvents(c: Core, e: Draft)
    requires e.body.WormMoved? && e.tick == c.tick
    ensures var m := e.body; var r := Apply(c, e);
      && (r.Ok? <==>
            && (exists i :: Named(c.worms, m.worm, i) && c.worms[i].alive && c.worms[i].position == m.from)
            && m.edge == NewEdge(m.from, m.to) && Adjacent(c.board, m.from, m.to))
      && (r.Ok? ==> exists i, d: Direction ::
            && Named(c.worms, m.worm, i) && Neighbor(c.board, m.from, d) == m.to
            && WithOne(c, i, c.worms[i].(position := m.to, previous := Some(d), crix := Some(Opposite(d))), r.value))
  {
    hide Neighbor, NewEdge;
    var m := e.body;
    FirstDirectionExists(c.board, m.from, m.to, DIRECTIONS);
    var i := WormIndex(c.worms, m.worm);
    if i >= 0 { assert Named(c.worms, m.worm, i); }
    if d: Direction :| Neighbor(c.board, m.from, d) == m.to { EveryDirection(d); }
  }

  lemma {:induction false} FirstDirectionExists(b: Board, p: Point, q: Point, dirs: seq<Direction>)
    ensures var h := FirstDirection(b, p, q, dirs);
      && (h.Some? ==> Neighbor(b, p, h.value) == q)
      && (h.None? ==> forall d :: d in dirs ==> Neighbor(b, p, d) != q)
    decreases |dirs|
  {
    hide Neighbor;
    if dirs == [] {
    } else {
      FirstDirectionExists(b, p, q, dirs[1..]);
    }
  }

  /** A death is accepted exactly where its worm stands, whichever way it is reported. */
  lemma DeathEvents(c: Core, e: Draft)
    requires (e.body.WormDied? || e.body.WormBlocked?) && e.tick == c.tick
    ensures var m := e.body; var r := Apply(c, e);
      && (r.Ok? <==> exists i :: Named(c.worms, m.worm, i) && c.worms[i].position == m.to)
      && (r.Ok? ==> exists i :: Named(c.worms, m.worm, i)
                               && WithOne(c, i, c.worms[i].(alive := false, crix := None), r.value))
  {
    var i := WormIndex(c.worms, e.body.worm);
    assert i >= 0 ==> Named(c.worms, e.body.worm, i);
  }

  /** Rules and uses are accepted for known worms; a learned rule resolves the pending decision it answers. */
  lemma RuleEvents(c: Core, e: Draft)
    requires (e.body.RuleLearned? || e.body.RuleUsed?) && e.tick == c.tick
    ensures Apply(c, e).Ok? <==> exists i :: Named(c.worms, e.body.worm, i)
    ensures e.body.RuleLearned? && Apply(c, e).Ok? ==>
              var answers := c.pending.Some? && c.pending.value.worm == e.body.worm &&
                  c.pending.value.mask == e.body.mask;
              exists i :: Named(c.worms, e.body.worm, i) &&
                WithOne(if answers then c.(pending := None, activeSlot := c.pending.value.slot + 1) else c, i,
                        c.worms[i].(rules := c.worms[i].rules[e.body.mask := e.body.action]), Apply(c, e).value)
    ensures e.body.RuleUsed? && Apply(c, e).Ok? ==>
              exists i :: Named(c.worms, e.body.worm, i) &&
                WithOne(c, i, c.worms[i].(uses := c.worms[i].uses[e.body.mask := e.body.count]), Apply(c, e).value)
  {
    var i := WormIndex(c.worms, e.body.worm);
    assert i >= 0 ==> Named(c.worms, e.body.worm, i);
  }

  /** A question must come from its worm's slot, and a round must end in its turn with no question open. */
  lemma RoundEvents(c: Core, e: Draft)
    requires e.tick == c.tick
    ensures e.body.DecisionPending? ==>
              var q := e.body; var r := Apply(c, e);
              && (r.Ok? <==> Named(c.worms, q.worm, q.slot))
              && (r.Ok? ==> r.value == c.(activeSlot := q.slot,
                                         pending := Some(Decision(q.worm, q.mask, q.slot, q.request, q.reason,
                                                                  c.worms[q.slot].frozen))))
    ensures e.body.RoundCompleted? ==>
              && (Apply(c, e).Ok? <==> e.round == c.round + 1 && c.pending.None?)
              && (Apply(c, e).Ok? ==> Apply(c, e).value == c.(round := c.round + 1, activeSlot := -1))
    ensures e.body.GameEnded? ==> Apply(c, e) == Ok(c.(over := true))
    ensures e.body.Unsupported? ==> Apply(c, e).Err?
  {
    if e.body.DecisionPending? {
      var i := WormIndex(c.worms, e.body.worm);
      assert i >= 0 ==> Named(c.worms, e.body.worm, i);
    }
  }

  /**
   * A full log is accepted exactly if it is numbered on from the state's own, in known versions, and every event
   * fits.
   */
  lemma LogsAreNumbered(g: Game, events: seq<Event>)
    requires exists k :: 0 <= k < |events| && !events[k].body.WormMoved?
    ensures var r := Replay(g, events);
      && (r.Ok? <==>
            && (forall k :: 0 <= k < |events| ==>
                  events[k].number == |g.events| + 1 + k && (events[k].version == 0 || events[k].version == 1))
            && ApplyAll(g.core, Drafts(events)).Ok?)
      && (r.Ok? ==> r.value.events == g.events + events)
  {
    hide ApplyAll, Drafts;
    var k :| 0 <= k < |events| && !events[k].body.WormMoved?;
  }

  /**
   * A lone move record is accepted under its own number or under the one its re-executed move gets, and re-executed.
   */
  lemma LoneMoveRecords(g: Game, e: Event)
    requires e.body.WormMoved?
    ensures var again := StepRecorded(g, e);
      && (Replay(g, [e]).Ok? <==>
            && again.Ok? && (e.version == 0 || e.version == 1)
            && (e.number == |g.events| + 1 || e.number == |g.events| + 1 + ReturnedAt(again.value.log)))
      && (Replay(g, [e]).Ok? ==> Replay(g, [e]).value.core == again.value.core)
  {
    hide StepRecorded, ReturnedAt, Stamp;
    assert [e][1..] == [];
    var again := StepRecorded(g, e);
    if again.Ok? {
      assert ProbeAccepts(Append(g, again.value), |g.events| + 1, []);
      assert ReplayMoves(Append(g, again.value), []) == Ok(Append(g, again.value));
    }
  }

  /** Events are applied one after the other, and the first that does not fit ends the replay. */
  lemma {:induction false} AppliedInOrder(c: Core, a: seq<Draft>, b: seq<Draft>)
    ensures ApplyAll(c, a + b)
         == match ApplyAll(c, a) case Err(e) => Err(e) case Ok(c') => ApplyAll(c', b)
    decreases |a|
  {
    hide Apply;
    if a == [] {
      assert a + b == b;
    } else {
      assert (a + b)[0] == a[0] && (a + b)[1..] == a[1..] + b;
      if Apply(c, a[0]).Ok? { AppliedInOrder(Apply(c, a[0]).value, a[1..], b); }
    }
  }
}
