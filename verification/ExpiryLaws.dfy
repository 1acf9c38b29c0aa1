/** How long a trail of a variant game lasts, what its expiry takes, and what a move earns and costs. */
module ExpiryLaws {
  import opened Geometry
  import opened Engine
  import opened Ledger
  import opened MoveLaws
  import opened Variants
  import opened VariantMoves
  import opened VariantRuns
  import opened Wrappers

  /** The trail's time has come: it was given an expiry, and that is no later than `now`. */
  ghost predicate Gone(v: Variant, e: Edge, now: int) {
    e in v.temporary && v.temporary[e] <= now
  }

  // ----- the life of a trail

  lemma ExpiredTrails(v: Variant)
    ensures var w := Expired(v);
      && w.base.board == v.base.board && w.base.tick == v.base.tick && w.setup == v.setup
      && (forall e :: e in w.base.trails <==> e in v.base.trails && !Gone(v, e, v.base.tick))
      && (forall e :: e in w.base.trails ==> w.base.trails[e] == v.base.trails[e])
      && (forall e :: e in w.temporary <==> e in v.temporary && !Gone(v, e, v.base.tick))
      && (forall e :: e in w.temporary ==> w.temporary[e] == v.temporary[e])
  {
    hide Without;
    WithoutFrame(v, Due(v));
  }

  /** Of the other trails those are still there whose expiry has not been reached, and nobody has touched them. */
  ghost predicate OthersLast(v: Variant, w: Variant, mine: Edge) {
    && (forall e :: e != mine ==> (e in w.base.trails <==> e in v.base.trails && !Gone(v, e, w.base.tick)))
    && (forall e :: e != mine && e in w.base.trails ==> w.base.trails[e] == v.base.trails[e])
    && (forall e :: e != mine ==> (e in w.temporary <==> e in v.temporary && !Gone(v, e, w.base.tick)))
    && (forall e :: e != mine && e in w.temporary ==> w.temporary[e] == v.temporary[e])
  }

  /**
   * An accepted move draws one trail. With a lifetime it is dated that long after the new tick, without one it stays
   * for good; every other trail is still there exactly if the new tick has not reached its expiry.
   */
  lemma TrailsAfterMove(v: Variant, id: Id, h: Heading)
    requires Apply(v, id, h).result.Ok?
    ensures h.Some? && 0 <= WormIndex(v.base.worms, id)
    ensures var w := Apply(v, id, h).after; var from := v.base.worms[WormIndex(v.base.worms, id)].position;
      var mine := NewEdge(from, Neighbor(v.base.board, from, h.value));
      && w.base.tick == v.base.tick + 1
      && mine in w.base.trails && w.base.trails[mine] == id
      && (if v.setup.ttl > 0 then mine in w.temporary && w.temporary[mine] == w.base.tick + v.setup.ttl
          else mine !in w.temporary)
      && OthersLast(v, w, mine)
  {
    hide Apply, Expired, Completed, Move, Neighbor, NewEdge, PlayEffect, OthersLast, DatedWith, LaterOf, Gone, MarkedAs;
    var v1 := Expired(v);
    ExpiredTrails(v);
    ExpiredFrame(v);
    AliveIgnoresScores(v.base.worms, v1.base.worms);
    ApplyUnfolds(v, id, h);
    ApplyEffect(v, id, h);
    var i := WormIndex(v1.base.worms, id);
    TrailsAfterPlay(v1, i, h.value);
    var mine := EdgeFrom(v.base.board, v.base.worms[i].position, h.value);
    MarkedMeans(v1, Apply(v, id, h).after, mine, id);
    LastsThrough(v, v1, Apply(v, id, h).after, mine);
  }

  lemma LastsThrough(v: Variant, v1: Variant, w: Variant, mine: Edge)
    requires v1.base.tick == v.base.tick && w.base.tick == v.base.tick + 1
    requires forall e :: e in v1.base.trails <==> e in v.base.trails && !Gone(v, e, v.base.tick)
    requires forall e :: e in v1.base.trails ==> v1.base.trails[e] == v.base.trails[e]
    requires forall e :: e in v1.temporary <==> e in v.temporary && !Gone(v, e, v.base.tick)
    requires forall e :: e in v1.temporary ==> v1.temporary[e] == v.temporary[e]
    requires OthersLast(v1, w, mine)
    ensures OthersLast(v, w, mine)
  {
  }

  /** The new trail and its date. */
  ghost predicate MarkedAs(v: Variant, w: Variant, mine: Edge, id: Id) {
    && w.base.tick == v.base.tick + 1 && mine in w.base.trails && w.base.trails[mine] == id
    && if v.setup.ttl > 0 then mine in w.temporary && w.temporary[mine] == w.base.tick + v.setup.ttl
       else mine !in w.temporary
  }

  lemma MarkedMeans(v: Variant, w: Variant, mine: Edge, id: Id)
    requires MarkedAs(v, w, mine, id)
    ensures w.base.tick == v.base.tick + 1 && mine in w.base.trails && w.base.trails[mine] == id
    ensures if v.setup.ttl > 0 then mine in w.temporary && w.temporary[mine] == w.base.tick + v.setup.ttl
            else mine !in w.temporary
  {
  }

  lemma TrailsAfterPlay(v: Variant, i: nat, d: Direction)
    requires i < |v.base.worms| && HasEnergy(v, v.base.worms[i].id)
    requires EdgeFrom(v.base.board, v.base.worms[i].position, d) !in v.temporary
    ensures var w := Completed(v, i, d, Move(v.base, i, d));
      var mine := EdgeFrom(v.base.board, v.base.worms[i].position, d);
      OthersLast(v, w, mine) && MarkedAs(v, w, mine, v.base.worms[i].id)
  {
    hide Move, VariantMoves.Played, NewEdge, Neighbor, Expired, Delta, Gone, OthersLast, MarkedAs;
    var p := VariantMoves.Played(v, i, d, Move(v.base, i, d));
    TrailsPlayed(v, i, d);
    ExpiredTrails(p);
    OthersLastAfter(v, p, Completed(v, i, d, Move(v.base, i, d)),
                    EdgeFrom(v.base.board, v.base.worms[i].position, d), v.base.worms[i].id);
  }

  lemma TrailsPlayed(v: Variant, i: nat, d: Direction)
    requires i < |v.base.worms| && HasEnergy(v, v.base.worms[i].id)
    ensures var p := VariantMoves.Played(v, i, d, Move(v.base, i, d)); var id := v.base.worms[i].id;
      var mine := EdgeFrom(v.base.board, v.base.worms[i].position, d);
      && p.setup == v.setup && p.base.tick == v.base.tick + 1 && p.base.trails == v.base.trails[mine := id]
      && p.temporary == if v.setup.ttl > 0 then v.temporary[mine := v.base.tick + 1 + v.setup.ttl] else v.temporary
  {
    hide Move, Drained, Neighbor, NewEdge, CaptureWeight, Captured, AliveSlots, EveryBit;
    var r := Move(v.base, i, d);
    var id := v.base.worms[i].id;
    MoveDisplaces(v.base, i, d);
    DrainedEffect(Scored(v, r.core, id, r.log), i, id);
  }

  lemma OthersLastAfter(v: Variant, p: Variant, w: Variant, mine: Edge, id: Id)
    requires mine !in v.temporary
    requires p.setup == v.setup && p.base.tick == v.base.tick + 1 && p.base.trails == v.base.trails[mine := id]
    requires p.temporary == if v.setup.ttl > 0 then v.temporary[mine := v.base.tick + 1 + v.setup.ttl] else v.temporary
    requires w.base.tick == p.base.tick
    requires forall e :: e in w.base.trails <==> e in p.base.trails && !Gone(p, e, p.base.tick)
    requires forall e :: e in w.base.trails ==> w.base.trails[e] == p.base.trails[e]
    requires forall e :: e in w.temporary <==> e in p.temporary && !Gone(p, e, p.base.tick)
    requires forall e :: e in w.temporary ==> w.temporary[e] == p.temporary[e]
    ensures OthersLast(v, w, mine) && MarkedAs(v, w, mine, id)
  {
  }

  // ----- what expiry takes

  /**
   * While the books are in order, expiry takes from each cell the spokes of the trails that are gone and no others. A
   * cell that has lost a spoke has no owner, and no colour either if it had an owner; every other cell keeps both.
   */
  lemma CellsAfterExpiry(v: Variant, p: Point)
    requires Kept(v) && p in v.base.territories
    ensures p in Expired(v).base.territories
    ensures var t, t' := v.base.territories[p], Expired(v).base.territories[p];
      && (forall d: Direction :: d in t'.mask <==>
            d in t.mask && !Gone(v, EdgeFrom(v.base.board, p, d), v.base.tick))
      && (if t'.mask == t.mask || t.owner == NOBODY then t'.owner == t.owner && t'.color == t.color
          else t'.owner == NOBODY && t'.color == NOBODY)
  {
    hide Without, NewEdge, Neighbor, Recount, Sound, Tallied;
    WithoutRecounts(v, Due(v));
    RecountedAt(v, Due(v), p);
    FadedExactly(v, p);
  }

  lemma RecountedAt(v: Variant, es: set<Edge>, p: Point)
    requires p in v.base.territories
    ensures p in Recounted(v, es).base.territories
    ensures Recounted(v, es).base.territories[p] == FadedCells(v.base, es)[p]
  {
  }

  lemma FadedExactly(v: Variant, p: Point)
    requires Sound(v.base) && p in v.base.territories
    ensures var t, t' := v.base.territories[p], FadedCells(v.base, Due(v))[p];
      && (forall d: Direction :: d in t'.mask <==>
            d in t.mask && !Gone(v, EdgeFrom(v.base.board, p, d), v.base.tick))
      && (if t'.mask == t.mask || t.owner == NOBODY then t'.owner == t.owner && t'.color == t.color
          else t'.owner == NOBODY && t'.color == NOBODY)
  {
    hide NewEdge, Neighbor;
    forall d: Direction ensures d in FULL { EveryDirection(d); }
    var t := v.base.territories[p];
    assert t.owner != NOBODY ==> t.mask == FULL;
  }

  /** Whatever the state, expiry gives nobody a point and takes nobody's score below zero. */
  lemma ScoresStayAboveZero(v: Variant, i: nat)
    requires i < |v.base.worms|
    ensures var w := Expired(v);
      && w.base.worms[i].score <= v.base.worms[i].score
      && (v.base.worms[i].score >= 0 ==> w.base.worms[i].score >= 0)
  {
    hide Without;
    WithoutLowers(v, Due(v), i);
  }

  lemma {:induction false} WithoutLowers(v: Variant, es: set<Edge>, i: nat)
    requires i < |v.base.worms|
    ensures var w := Without(v, es);
      && w.base.worms[i].score <= v.base.worms[i].score
      && (v.base.worms[i].score >= 0 ==> w.base.worms[i].score >= 0)
    decreases |es|
  {
    hide FadeAt, HeadingTo;
    if es != {} {
      var e := Pick(es);
      WithoutLowers(v, es - {e}, i);
      var w := Without(v, es - {e});
      FadeLowers(Dropped(w, e), e.a, HeadingTo(w.base.board, e.a, e.b), i);
      FadeLowers(FadeAt(Dropped(w, e), e.a, HeadingTo(w.base.board, e.a, e.b)), e.b,
                 HeadingTo(w.base.board, e.b, e.a), i);
    }
  }

  lemma FadeLowers(v: Variant, p: Point, d: Direction, i: nat)
    requires i < |v.base.worms|
    ensures var w := FadeAt(v, p, d);
      && w.base.worms[i].score <= v.base.worms[i].score
      && (v.base.worms[i].score >= 0 ==> w.base.worms[i].score >= 0)
  {
    hide Reduced, WeightOf, TeamOf, Faded;
  }

  // ----- what a move earns

  /** A cell counts its configured weight, and one where none, or zero, is configured. */
  ghost function Prize(t: Terrain, p: Point): int {
    if p in t.weights then (if t.weights[p] == 0 then 1 else t.weights[p]) else 1
  }

  /** Where trails are permanent, a move earns the weights of the cells it completes, for the worm and for its team. */
  lemma MovesEarnWeights(v: Variant, id: Id, h: Heading)
    requires Kept(v) && v.setup.ttl == 0 && v.temporary == map[] && Apply(v, id, h).result.Ok?
    ensures h.Some? && 0 <= WormIndex(v.base.worms, id)
    ensures var a := Apply(v, id, h).after;
      var from := v.base.worms[WormIndex(v.base.worms, id)].position; var to := Neighbor(v.base.board, from, h.value);
      from in v.base.territories && to in v.base.territories
      && var earned := (if EveryBit(v.base.territories[from].mask + {h.value}) then Prize(v.setup.terrain, from) else 0)
                       + (if EveryBit(v.base.territories[to].mask + {Opposite(h.value)})
                          then Prize(v.setup.terrain, to) else 0);
      && id in v.scores && a.scores == v.scores[id := v.scores[id] + earned]
      && (if id in v.setup.teams then
            v.setup.teams[id] in v.teamScores
            && a.teamScores == v.teamScores[v.setup.teams[id] := v.teamScores[v.setup.teams[id]] + earned]
          else a.teamScores == v.teamScores)
  {
    hide Apply, Expired, Completed, Move, Neighbor, NewEdge, PlayEffect, Sound, Tallied, Delta, EveryBit, Prize,
        CaptureWeight, LaterOf, MaskAt, CanMove, HasEnergy;
    NothingExpires(v);
    var i := WormIndex(v.base.worms, id);
    ApplyUnfolds(v, id, h);
    ApplyEffect(v, id, h);
    EarnedByMove(v, i, h.value);
    MoverHasScore(v, i);
    PermanentPlay(v, i, h.value);
  }

  lemma NothingExpires(v: Variant)
    requires v.temporary == map[]
    ensures Expired(v) == v
  {
    assert Due(v) == {};
  }

  lemma EarnedByMove(v: Variant, i: nat, d: Direction)
    requires Kept(v) && CanMove(v.base, i, d)
    ensures var c := v.base; var from := c.worms[i].position; var to := Neighbor(c.board, from, d);
      from in c.territories && to in c.territories
      && var earned := (if EveryBit(c.territories[from].mask + {d}) then Prize(v.setup.terrain, from) else 0)
                       + (if EveryBit(c.territories[to].mask + {Opposite(d)}) then Prize(v.setup.terrain, to) else 0);
      && CaptureWeight(v.setup.terrain, Move(c, i, d).log) == earned && Delta(v, i, Move(c, i, d)) == earned
  {
    hide Move, Neighbor, CaptureWeight, Captured, Tallied, Delta, EveryBit, Sound;
    MoveSite(v.base, i, d);
    MoveMasks(v.base, i, d);
    MoverIsNamed(v.base, i);
    CapturesOfMove(v.base, v.setup.terrain, i, d);
    DeltaIsWeight(v, i, d);
    EveryBitIsFull(v.base.territories[v.base.worms[i].position].mask + {d});
    EveryBitIsFull(v.base.territories[Target(v.base, i, d)].mask + {Opposite(d)});
  }

  lemma MoverHasScore(v: Variant, i: nat)
    requires Kept(v) && i < |v.base.worms|
    ensures v.base.worms[i].id in v.scores
    ensures v.base.worms[i].id in v.setup.teams ==>
              v.setup.teams[v.base.worms[i].id] != NOBODY && v.setup.teams[v.base.worms[i].id] in v.teamScores
  {
    hide Sound, Weighed;
    assert v.base.worms[i].id in Ids(v.base.worms);
  }

  lemma PermanentPlay(v: Variant, i: nat, d: Direction)
    requires i < |v.base.worms| && HasEnergy(v, v.base.worms[i].id) && v.setup.ttl == 0 && v.temporary == map[]
    requires v.base.worms[i].id in v.scores
    requires var id := v.base.worms[i].id; id in v.setup.teams ==> v.setup.teams[id] != NOBODY
    requires var id := v.base.worms[i].id; id in v.setup.teams ==> v.setup.teams[id] in v.teamScores
    ensures var w := Completed(v, i, d, Move(v.base, i, d)); var id := v.base.worms[i].id;
      && w.scores == v.scores[id := v.scores[id] + CaptureWeight(v.setup.terrain, Move(v.base, i, d).log)]
      && w.teamScores == if id in v.setup.teams
                         then v.teamScores[v.setup.teams[id] :=
                                v.teamScores[v.setup.teams[id]] + Delta(v, i, Move(v.base, i, d))]
                         else v.teamScores
  {
    hide Move, Drained, Neighbor, NewEdge, Delta, CaptureWeight, Captured, AliveSlots, Expired;
    var r := Move(v.base, i, d);
    var id := v.base.worms[i].id;
    ScoredAtOnce(v, r.core, id, r.log);
    DrainedEffect(Scored(v, r.core, id, r.log), i, id);
    NothingExpires(VariantMoves.Played(v, i, d, r));
  }

  // ----- what a move costs

  /**
   * With limited energy a move costs its worm one unit and nobody else anything. The worm is alive afterwards exactly
   * if the move has not closed it in and it has energy left, and the game is over exactly if its last unit was the
   * last life.
   */
  lemma MovesCostEnergy(v: Variant, id: Id, h: Heading)
    requires v.setup.limit > 0 && Apply(v, id, h).result.Ok?
    ensures h.Some? && 0 <= WormIndex(v.base.worms, id) && id in v.energy && v.energy[id] > 0
    ensures var w := Apply(v, id, h).after; var i := WormIndex(v.base.worms, id);
      var closed := Move(Expired(v).base, i, h.value).core;
      && w.energy == v.energy[id := v.energy[id] - 1]
      && (w.base.worms[i].alive <==> closed.worms[i].alive && w.energy[id] > 0)
      && (w.energy[id] == 0 ==> w.base.worms[i].crix == None)
      && (w.energy[id] > 0 ==> w.base.worms[i].crix == closed.worms[i].crix)
      && (w.base.over <==> w.energy[id] == 0 && forall j :: 0 <= j < |w.base.worms| ==> !w.base.worms[j].alive)
  {
    hide Apply, Expired, Completed, Move, Neighbor, NewEdge, PlayEffect, LaterOf, DatedWith, Due;
    var v1 := Expired(v);
    ExpiredFrame(v);
    AliveIgnoresScores(v.base.worms, v1.base.worms);
    ApplyUnfolds(v, id, h);
    ApplyEffect(v, id, h);
    AppliedExactly(v, id, h);
    ExpiredOver(v);
    CostOfPlay(v1, WormIndex(v1.base.worms, id), h.value);
  }

  lemma CostOfPlay(v: Variant, i: nat, d: Direction)
    requires i < |v.base.worms| && v.setup.limit > 0 && HasEnergy(v, v.base.worms[i].id) && !v.base.over
    ensures var w := Completed(v, i, d, Move(v.base, i, d)); var id := v.base.worms[i].id;
      var closed := Move(v.base, i, d).core;
      && w.energy == v.energy[id := v.energy[id] - 1]
      && (w.base.worms[i].alive <==> closed.worms[i].alive && w.energy[id] > 0)
      && (w.energy[id] == 0 ==> w.base.worms[i].crix == None)
      && (w.energy[id] > 0 ==> w.base.worms[i].crix == closed.worms[i].crix)
      && (w.base.over <==> w.energy[id] == 0 && forall j :: 0 <= j < |w.base.worms| ==> !w.base.worms[j].alive)
  {
    hide Move, Drained, Neighbor, NewEdge, Delta, CaptureWeight, Captured, Expired;
    var r := Move(v.base, i, d);
    var id := v.base.worms[i].id;
    MoveOthers(v.base, i, d);
    var s := Scored(v, r.core, id, r.log);
    DrainCosts(s, i, id);
    var p := VariantMoves.Played(v, i, d, r);
    ExpiredFrame(p);
  }

  lemma NobodyAlive(ws: seq<Worm>)
    ensures AliveSlots(ws) == {} <==> forall j :: 0 <= j < |ws| ==> !ws[j].alive
  {
    if j :| 0 <= j < |ws| && ws[j].alive { assert j in AliveSlots(ws); }
  }

  lemma DrainCosts(v: Variant, i: nat, id: Id)
    requires i < |v.base.worms| && v.setup.limit > 0 && HasEnergy(v, id) && !v.base.over
    ensures var w := Drained(v, i, id);
      && |w.base.worms| == |v.base.worms| && w.energy == v.energy[id := v.energy[id] - 1]
      && (w.base.worms[i].alive <==> v.base.worms[i].alive && w.energy[id] > 0)
      && (w.energy[id] == 0 ==> w.base.worms[i].crix == None)
      && (w.energy[id] > 0 ==> w.base.worms[i].crix == v.base.worms[i].crix)
      && (w.base.over <==> w.energy[id] == 0 && forall j :: 0 <= j < |w.base.worms| ==> !w.base.worms[j].alive)
  {
    hide AliveSlots;
    NobodyAlive(Fall(v.base, i).worms);
  }
}
