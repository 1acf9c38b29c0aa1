/** The legacy form of Replay, which re-executes bare move records, agrees with the full replay on runs of moves. */
module LegacyReplay {
  import opened Geometry
  import opened Engine
  import opened Progress
  import opened Ledger
  import opened EventLog
  import opened EventSourcing
  import opened StrandedDecision
  import opened Wrappers

  /** The `worm_moved` records of a stream, in order. */
  function MovesOf(events: seq<Event>): seq<Event> {
    if events == [] then []
    else (if events[0].body.WormMoved? then [events[0]] else []) + MovesOf(events[1..])
  }

  lemma {:induction false} MovesOfConcat(a: seq<Event>, b: seq<Event>)
    ensures MovesOf(a + b) == MovesOf(a) + MovesOf(b)
    decreases |a|
  {
    if a == [] {
      assert a + b == b;
    } else {
      assert (a + b)[1..] == a[1..] + b;
      MovesOfConcat(a[1..], b);
    }
  }

  lemma {:induction false} MovesOfNone(a: seq<Event>)
    requires forall k :: 0 <= k < |a| ==> !a[k].body.WormMoved?
    ensures MovesOf(a) == []
    decreases |a|
  {
    if a == [] {
    } else {
      MovesOfNone(a[1..]);
    }
  }

  /** The only move record of a stream that has one at k. */
  lemma MovesOfOne(a: seq<Event>, k: nat)
    requires k < |a| && forall j :: 0 <= j < |a| ==> (a[j].body.WormMoved? <==> j == k)
    ensures MovesOf(a) == [a[k]]
  {
    assert a == a[..k] + ([a[k]] + a[k + 1..]);
    MovesOfConcat(a[..k], [a[k]] + a[k + 1..]);
    MovesOfConcat([a[k]], a[k + 1..]);
    MovesOfNone(a[..k]);
    MovesOfNone(a[k + 1..]);
    assert [a[k]][1..] == [];
  }

  /** A move's log holds exactly one move record, where `Step` returns it, with the move's own origin and end. */
  lemma MoveRecord(c: Core, i: nat, d: Direction)
    requires i < |c.worms| && c.worms[i].position != Target(c, i, d)
    ensures var log := Move(c, i, d).log; var at := ReturnedAt(log); var w := c.worms[i];
      && 0 <= at < |log|
      && (forall j :: 0 <= j < |log| ==> (log[j].body.WormMoved? <==> j == at))
      && log[at].body ==
          WormMoved(w.id, w.position, Target(c, i, d), NewEdge(w.position, Target(c, i, d)), TrailColor(w))
  {
    hide Neighbor, Refreshed, Move, SettleNews, NewEdge, CellAt;
    var w := c.worms[i];
    var from, to := w.position, Target(c, i, d);
    var trails := c.trails[NewEdge(from, to) := w.id];
    OneOfNews(CellAt(c.territories, from), Refreshed(c.board, trails, c.territories, from), w.id, TrailColor(w), from);
    OneOfNews(CellAt(c.territories, to), Refreshed(c.board, trails, c.territories, to), w.id, TrailColor(w), to);
    var news, more := MoveBodies(c, i, d);
    assert forall k :: 0 <= k < |news| ==> news[k] in news;
    assert forall k :: 0 <= k < |more| ==> more[k] in more;
  }

  lemma OneOfNews(t: Territory, m: Mask, id: Id, color: Color, p: Point)
    ensures var news := SettleNews(t, m, id, color, p);
      |news| <= 1 && forall b :: b in news ==> !b.WormMoved? && !b.WormDied?
  {
  }

  /** Re-executing the record of a move repeats the move. */
  lemma RecordRepeats(g: Game, id: Id, h: Heading)
    requires Placed(g.core) && Step(g.core, id, h).Ok?
    ensures var r := Step(g.core, id, h).value;
      var at := ReturnedAt(r.log);
      && 0 <= at < |r.log|
      && MovesOf(Stamp(|g.events|, r.log)) == [Stamp(|g.events|, r.log)[at]]
      && StepRecorded(g, Stamp(|g.events|, r.log)[at]) == Ok(r)
  {
    hide Neighbor, Placed, Move, Regular, Refreshed;
    var c := g.core;
    var i := WormIndex(c.worms, id);
    var d := h.value;
    PlacedSite(c, i, d);
    MoveRecord(c, i, d);
    IndexOfPlaced(c, i);
    var log := Move(c, i, d).log;
    MovesOfOne(Stamp(|g.events|, log), ReturnedAt(log));
    EveryDirection(d);
    FirstDirectionFinds(c.board, c.worms[i].position, d, DIRECTIONS);
  }

  /** The move records of a run of moves pass the probe and rebuild the final state by re-execution. */
  lemma {:induction false} LegacyRun(g: Game, ops: seq<Op>, n: nat) returns (log: seq<Draft>)
    requires Placed(g.core) && Run(g, ops).Ok? && OnlySteps(ops)
    ensures Plain(log)
    ensures var g' := Run(g, ops).value; var moves := MovesOf(Stamp(|g.events|, log));
      && g'.events == g.events + Stamp(|g.events|, log)
      && ProbeAccepts(g, n, moves) && ReplayMoves(g, moves) == Ok(g')
      && |moves| == |ops| && Legacy(moves)
    decreases |ops|
  {
    hide Placed, Step, Stamp, MovesOf, StepRecorded, ReturnedAt, Plain;
    if ops == [] {
      log := [];
      StampNothing(|g.events|);
      MovesOfNone([]);
      NothingIsPlain();
    } else {
      var r := Step(g.core, ops[0].id, ops[0].h).value;
      RecordRepeats(g, ops[0].id, ops[0].h);
      StepStaysPlaced(g.core, ops[0].id, ops[0].h);
      StepIsPlain(g.core, ops[0].id, ops[0].h);
      var rest := LegacyRun(Append(g, r), ops[1..], n + 1);
      log := r.log + rest;
      StampConcat(|g.events|, r.log, rest);
      AnchoredConcat(r.log, rest);
      MovesOfConcat(Stamp(|g.events|, r.log), Stamp(|g.events| + |r.log|, rest));
      var e := Stamp(|g.events|, r.log)[ReturnedAt(r.log)];
      StampedAt(|g.events|, r.log, ReturnedAt(r.log));
      var moves := MovesOf(Stamp(|g.events|, log));
      var others := MovesOf(Stamp(|g.events| + |r.log|, rest));
      assert moves == [e] + others && moves[0] == e && moves[1..] == others;
      MovesOnly(Stamp(|g.events|, log));
    }
  }

  lemma StepStaysPlaced(c: Core, id: Id, h: Heading)
    requires Placed(c) && Step(c, id, h).Ok?
    ensures Placed(Step(c, id, h).value.core)
  {
    hide Placed, Step;
    StepFaithful(c, id, h);
  }

  lemma StampedAt(n: nat, log: seq<Draft>, k: nat)
    requires k < |log|
    ensures Stamp(n, log)[k].number == n + k + 1 && Stamp(n, log)[k].version == EVENT_VERSION
  {
  }

  lemma {:induction false} MovesOnly(events: seq<Event>)
    ensures Legacy(MovesOf(events))
    decreases |events|
  {
    if events == [] {
    } else {
      MovesOnly(events[1..]);
    }
  }

  /**
   * For every run of moves, replaying only its move records rebuilds the final state; so it agrees with replaying the
   * full log exactly when that is exact too, which `ReplayIsExact` decides.
   */
  lemma TwoReplaysAgree(g: Game, ops: seq<Op>)
    requires Placed(g.core) && Run(g, ops).Ok? && OnlySteps(ops)
    ensures var g' := Run(g, ops).value; var emitted := Emitted(g, g');
      && |MovesOf(emitted)| == |ops|
      && Replay(g, MovesOf(emitted)) == Ok(g')
      && (Replay(g, emitted) == Replay(g, MovesOf(emitted)) <==> Spares(g.core.territories, Drafts(emitted)))
  {
    hide Placed, ProbeAccepts, ReplayMoves, MovesOf, Legacy, Stamp, Spares, Plain, Stranded, Drafts;
    var log := LegacyRun(g, ops, |g.events|);
    ReplayIsExact(g, ops);
    var g' := Run(g, ops).value;
    assert Emitted(g, g') == Stamp(|g.events|, log);
    DraftsOfStamp(|g.events|, log);
    PlainStrandsNothing(g.core.pending, log);
  }
}
