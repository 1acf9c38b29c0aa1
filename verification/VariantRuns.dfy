/**
 * What every variant run keeps: exact books, a window of live expiries, and energy that bounds how long a game can
 * last.
 */
module VariantRuns {
  import opened Geometry
  import opened HalfEdges
  import opened Engine
  import opened Ledger
  import opened Variants
  import opened VariantMoves

  // ----- the window of expiries

  ghost predicate Distinct(m: map<Edge, nat>) {
    forall e, f :: e in m && f in m && m[e] == m[f] ==> e == f
  }

  /** Every live expiry falls due at its own tick, after now and at most `ttl` ahead. */
  ghost predicate Window(v: Variant) {
    && Distinct(v.temporary)
    && forall e :: e in v.temporary ==> v.base.tick < v.temporary[e] <= v.base.tick + v.setup.ttl
  }

  /** In a window nothing is due, and no more than `ttl` trails are live. */
  lemma WindowIsSmall(v: Variant)
    requires Window(v)
    ensures Due(v) == {} && |v.temporary| <= v.setup.ttl
  {
    var times := set e | e in v.temporary :: v.temporary[e];
    SameSizeImage(v.temporary, v.temporary.Keys);
    assert v.temporary.Keys == set e | e in v.temporary;
    assert times == set e | e in v.temporary.Keys :: v.temporary[e];
    SpanSize(v.base.tick, v.setup.ttl);
    SubsetSize(times, Span(v.base.tick, v.setup.ttl));
  }

  lemma {:induction false} SameSizeImage(m: map<Edge, nat>, es: set<Edge>)
    requires Distinct(m) && es <= m.Keys
    ensures |set e | e in es :: m[e]| == |es|
    decreases |es|
  {
    var image := set e | e in es :: m[e];
    if es == {} {
      assert image == {};
    } else {
      var e := Pick(es);
      SameSizeImage(m, es - {e});
      assert image == (set f | f in es - {e} :: m[f]) + {m[e]};
    }
  }

  /** The n ticks after a tick. */
  ghost function Span(from: nat, n: nat): set<nat> {
    if n == 0 then {} else Span(from, n - 1) + {from + n}
  }

  lemma {:induction false} SpanSize(from: nat, n: nat)
    ensures |Span(from, n)| == n
    ensures forall k: nat :: k in Span(from, n) <==> from < k <= from + n
    decreases n
  {
    if n == 0 {
    } else {
      SpanSize(from, n - 1);
    }
  }

  lemma {:induction false} AtMostOne(s: set<Edge>)
    requires forall e, f :: e in s && f in s ==> e == f
    ensures |s| <= 1
  {
    if e :| e in s {
      assert s == {e};
    }
  }

  // ----- the effect of one accepted move

  /** What playing a move does to the clock, the lives and the energy. */
  ghost predicate PlayEffect(v: Variant, i: nat, v': Variant) {
    && i < |v.base.worms| == |v'.base.worms|
    && var id := v.base.worms[i].id;
    && v'.setup == v.setup
    && (forall j :: 0 <= j < |v.base.worms| ==>
          v'.base.worms[j].id == v.base.worms[j].id && (j != i ==> v'.base.worms[j].alive == v.base.worms[j].alive))
    && v'.base.tick == v.base.tick + 1 && v'.base.round == v.base.round && v'.base.pending == v.base.pending
    && v'.base.activeSlot == v.base.activeSlot
    && (v'.base.over ==> v.base.over || AliveSlots(v'.base.worms) == {})
    && v'.energy == (if v.setup.limit == 0 then v.energy else v.energy[id := ValueAt(v.energy, id) - 1])
    && (v.setup.limit > 0 && ValueAt(v.energy, id) == 1 ==> !v'.base.worms[i].alive)
  }

  function DatedWith(v: Variant, e: Edge): map<Edge, nat> {
    if v.setup.ttl > 0 then v.temporary[e := v.base.tick + 1 + v.setup.ttl] else v.temporary
  }

  /** The live expiries one tick later, with the new trail's among them. */
  function LaterOf(v: Variant, e: Edge): map<Edge, nat> {
    var dated := DatedWith(v, e);
    map f | f in dated && dated[f] > v.base.tick + 1 :: dated[f]
  }

  lemma MoveOthers(c: Core, i: nat, d: Direction)
    requires i < |c.worms|
    ensures var c' := Move(c, i, d).core;
      && c'.worms == c.worms[i := c'.worms[i]] && c'.worms[i].id == c.worms[i].id
      && c'.board == c.board && c'.tick == c.tick + 1 && c'.round == c.round && c'.activeSlot == c.activeSlot
      && c'.pending == c.pending && c'.over == c.over
  {
    hide Settle, Refreshed, Neighbor, SettleNews, CellAt;
  }

  lemma DrainedEffect(v: Variant, i: nat, id: Id)
    requires i < |v.base.worms| && HasEnergy(v, id)
    ensures var v' := Drained(v, i, id);
      && v' == v.(energy := v'.energy, base := v.base.(worms := v'.base.worms, over := v'.base.over))
      && |v'.base.worms| == |v.base.worms|
      && v'.base.worms == v.base.worms[i := v'.base.worms[i]] && v'.base.worms[i].id == v.base.worms[i].id
      && (v'.base.over ==> v.base.over || AliveSlots(v'.base.worms) == {})
      && v'.energy == (if v.setup.limit == 0 then v.energy else v.energy[id := ValueAt(v.energy, id) - 1])
      && (v.setup.limit > 0 && ValueAt(v.energy, id) == 1 ==> !v'.base.worms[i].alive)
  {
  }

  lemma PlayedEffect(v: Variant, i: nat, d: Direction)
    requires i < |v.base.worms| && HasEnergy(v, v.base.worms[i].id)
    ensures var v' := Played(v, i, d, Move(v.base, i, d));
      && PlayEffect(v, i, v')
      && v'.temporary == DatedWith(v, EdgeFrom(v.base.board, v.base.worms[i].position, d))
  {
    hide Move, Drained, Neighbor, CaptureWeight, AliveSlots, NewEdge;
    var r := Move(v.base, i, d);
    var id := v.base.worms[i].id;
    MoveOthers(v.base, i, d);
    DrainedEffect(Scored(v, r.core, id, r.log), i, id);
  }

  lemma AliveIgnoresScores(ws: seq<Worm>, ws': seq<Worm>)
    requires SameButScore(ws, ws')
    ensures AliveSlots(ws') == AliveSlots(ws)
    ensures forall id :: WormIndex(ws', id) == WormIndex(ws, id)
  {
    SameIds(ws, ws');
  }

  lemma ExpiredFrame(v: Variant)
    ensures var w := Expired(v);
      && w.setup == v.setup && w.energy == v.energy
      && w.temporary == v.temporary - Due(v)
      && SameClock(v.base, w.base) && SameButScore(v.base.worms, w.base.worms)
  {
    hide Without;
    WithoutFrame(v, Due(v));
  }

  lemma PlayEffectExpires(v: Variant, i: nat, v2: Variant, w: Variant)
    requires PlayEffect(v, i, v2)
    requires w.setup == v2.setup && w.energy == v2.energy
    requires SameClock(v2.base, w.base) && SameButScore(v2.base.worms, w.base.worms)
    ensures PlayEffect(v, i, w)
  {
    hide AliveSlots;
    AliveIgnoresScores(v2.base.worms, w.base.worms);
  }

  /** A played move, its second expiry and the credit to the team. */
  lemma CompletedEffect(v: Variant, i: nat, d: Direction)
    requires i < |v.base.worms| && HasEnergy(v, v.base.worms[i].id)
    ensures var v' := Completed(v, i, d, Move(v.base, i, d));
      && PlayEffect(v, i, v')
      && v'.temporary == LaterOf(v, EdgeFrom(v.base.board, v.base.worms[i].position, d))
  {
    hide Expired, Move, Played, Neighbor, NewEdge, Delta, AliveSlots, PlayEffect, SameClock, SameButScore;
    PlayedEffect(v, i, d);
    var v2 := Played(v, i, d, Move(v.base, i, d));
    ExpiredFrame(v2);
    var v' := Completed(v, i, d, Move(v.base, i, d));
    PlayEffectExpires(v, i, v2, v');
    assert v'.temporary == v2.temporary - Due(v2);
    assert v2.base.tick == v.base.tick + 1 by { PlayTicks(v, i, v2); }
  }

  lemma PlayTicks(v: Variant, i: nat, v': Variant)
    requires PlayEffect(v, i, v')
    ensures v'.base.tick == v.base.tick + 1 && v'.setup == v.setup
  {
  }

  lemma LegalMeans(v: Variant, id: Id, h: Heading)
    requires Legal(v, id, h)
    ensures var i := WormIndex(v.base.worms, id);
      && i >= 0 && h.Some? && v.base.worms[i].alive && v.base.worms[i].id == id && HasEnergy(v, id)
      && EdgeFrom(v.base.board, v.base.worms[i].position, h.value) !in v.temporary
  {
    hide MaskAt, Neighbor, NewEdge;
  }

  /** An accepted move is a move on the expired variant. */
  lemma ApplyEffect(v: Variant, id: Id, h: Heading)
    requires Apply(v, id, h).result.Ok?
    ensures var v1 := Expired(v); var i := WormIndex(v1.base.worms, id);
      && i >= 0 && h.Some? && v1.base.worms[i].alive && v1.base.worms[i].id == id && HasEnergy(v1, id)
      && var e := EdgeFrom(v1.base.board, v1.base.worms[i].position, h.value);
      && e !in v1.temporary
      && PlayEffect(v1, i, Apply(v, id, h).after) && Apply(v, id, h).after.temporary == LaterOf(v1, e)
      && Apply(v, id, h).result.value == Move(v1.base, i, h.value).log
  {
    hide Apply, Expired, Legal, Move, Completed, Neighbor, NewEdge, PlayEffect, LaterOf, HasEnergy, WormIndex;
    ApplyUnfolds(v, id, h);
    var v1 := Expired(v);
    LegalMeans(v1, id, h);
    CompletedEffect(v1, WormIndex(v1.base.worms, id), h.value);
  }

  /** The window slides: the new trail's expiry is the one new element, and what falls due has left it. */
  lemma WindowSlides(v: Variant, id: Id, h: Heading)
    requires Window(v)
    ensures Window(Apply(v, id, h).after)
  {
    hide Apply, Expired, Window, NewEdge, Neighbor, PlayEffect, LaterOf, WormIndex;
    var v1 := Expired(v);
    ExpiredFrame(v);
    WindowShrinks(v, v1);
    if Apply(v, id, h).result.Err? {
      ApplyUnfolds(v, id, h);
    } else {
      ApplyEffect(v, id, h);
      var i := WormIndex(v1.base.worms, id);
      PlayTicks(v1, i, Apply(v, id, h).after);
      WindowShifts(v1, EdgeFrom(v1.base.board, v1.base.worms[i].position, h.value), Apply(v, id, h).after);
    }
  }

  lemma WindowShrinks(v: Variant, w: Variant)
    requires Window(v) && w.setup == v.setup && w.base.tick == v.base.tick && w.temporary == v.temporary - Due(v)
    ensures Window(w)
  {
  }

  lemma WindowShifts(v: Variant, e: Edge, w: Variant)
    requires Window(v) && w.setup == v.setup && w.base.tick == v.base.tick + 1
    requires e !in v.temporary && w.temporary == LaterOf(v, e)
    ensures Window(w)
  {
  }

  /** In a window each of the two expiries of a move removes at most one trail, so their order cannot matter. */
  lemma AtMostOneDue(v: Variant, i: nat, d: Direction)
    requires Window(v) && i < |v.base.worms| && HasEnergy(v, v.base.worms[i].id)
    requires EdgeFrom(v.base.board, v.base.worms[i].position, d) !in v.temporary
    ensures |Due(v)| == 0 && |Due(Played(v, i, d, Move(v.base, i, d)))| <= 1
  {
    hide Move, Played, Neighbor, NewEdge, PlayEffect;
    WindowIsSmall(v);
    PlayedEffect(v, i, d);
    PlayTicks(v, i, Played(v, i, d, Move(v.base, i, d)));
    AtMostOne(Due(Played(v, i, d, Move(v.base, i, d))));
  }
}
