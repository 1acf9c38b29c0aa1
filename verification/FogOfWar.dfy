/** Fog of war: the level-by-level search of internal/extension, and what an observer may see of the board. */
module FogOfWar {
  import opened Geometry
  import opened HalfEdges
  import opened BoardScan
  import opened Variants

  /** The greatest value of the source's integer type, its answer for a cell that cannot be reached. */
  const UNREACHABLE: nat := 0x7fff_ffff_ffff_ffff

  ghost predicate Adjacent(b: Board, p: Point, q: Point) {
    InBounds(b, q) && exists d :: Neighbor(b, p, d) == q
  }

  /** A walk from neighbour to neighbour that stays on the board once it has left its first point. */
  ghost predicate IsWalk(b: Board, walk: seq<Point>) {
    walk != [] && forall i :: 0 < i < |walk| ==> Adjacent(b, walk[i - 1], walk[i])
  }

  /** Some walk of n steps joins the two points. */
  ghost predicate Joined(b: Board, from: Point, to: Point, n: nat) {
    exists walk :: IsWalk(b, walk) && |walk| == n + 1 && walk[0] == from && walk[n] == to
  }

  /** The points that some walk of at most n steps reaches. */
  ghost predicate Within(b: Board, from: Point, to: Point, n: int) {
    exists k: nat :: k <= n && Joined(b, from, to, k)
  }

  /** n is the length of a shortest walk. */
  ghost predicate Shortest(b: Board, from: Point, to: Point, n: nat) {
    Joined(b, from, to, n) && forall k: nat :: Joined(b, from, to, k) ==> n <= k
  }

  lemma JoinedToItself(b: Board, p: Point, q: Point)
    ensures Joined(b, p, q, 0) <==> p == q
  {
    assert IsWalk(b, [p]);
  }

  lemma OneStepFurther(b: Board, from: Point, p: Point, q: Point, n: nat)
    requires Joined(b, from, p, n) && Adjacent(b, p, q)
    ensures Joined(b, from, q, n + 1)
  {
    var walk :| IsWalk(b, walk) && |walk| == n + 1 && walk[0] == from && walk[n] == p;
    var longer := walk + [q];
    assert IsWalk(b, longer) && longer[n + 1] == q;
  }

  lemma LastStep(b: Board, from: Point, q: Point, n: nat) returns (p: Point)
    requires Joined(b, from, q, n + 1)
    ensures Joined(b, from, p, n) && Adjacent(b, p, q)
  {
    var walk :| IsWalk(b, walk) && |walk| == n + 2 && walk[0] == from && walk[n + 1] == q;
    p := walk[n];
    assert Adjacent(b, walk[n + 1 - 1], walk[n + 1]);
    assert IsWalk(b, walk[..n + 1]);
  }

  lemma NextDoor(b: Board, from: Point, p: Point, q: Point, n: int)
    requires Adjacent(b, p, q)
    ensures Within(b, from, p, n) ==> Within(b, from, q, n + 1)
  {
    hide Joined, Adjacent;
    if Within(b, from, p, n) {
      var k: nat :| k <= n && Joined(b, from, p, k);
      OneStepFurther(b, from, p, q, k);
    }
  }

  lemma OneLevelMore(b: Board, from: Point, q: Point, n: nat)
    ensures Within(b, from, q, n) <==> Within(b, from, q, n - 1) || Joined(b, from, q, n)
  {
    hide Joined;
    if Within(b, from, q, n) {
      var k: nat :| k <= n && Joined(b, from, q, k);
    }
    if Within(b, from, q, n - 1) {
      var k: nat :| k <= n - 1 && Joined(b, from, q, k);
    }
  }

  // ----- levels of the search

  /** What the search knows before it looks at level d: everything nearer, and the points of the level before. */
  ghost predicate Explored(b: Board, from: Point, seen: set<Point>, frontier: seq<Point>, d: nat)
    requires d > 0
  {
    && (forall p :: p in seen <==> Within(b, from, p, d - 1))
    && (forall p :: p in frontier <==> Joined(b, from, p, d - 1) && (d > 1 ==> !Within(b, from, p, d - 2)))
  }

  /** The in-bounds neighbours of the first i frontier points, and of point i in the first k directions. */
  ghost predicate Scanned(b: Board, frontier: seq<Point>, i: nat, k: nat, q: Point) {
    && InBounds(b, q)
    && exists j, e :: 0 <= j < |frontier| && 0 <= e < 6 && (j < i || (j == i && e < k))
         && Neighbor(b, frontier[j], DIRECTIONS[e]) == q
  }

  lemma Start(b: Board, from: Point)
    ensures Explored(b, from, {from}, [from], 1)
  {
    forall p ensures Joined(b, from, p, 0) <==> p == from { JoinedToItself(b, from, p); }
    forall p ensures Within(b, from, p, 0) <==> p == from {
      assert Within(b, from, p, 0) <==> Joined(b, from, p, 0);
    }
  }

  lemma ScannedIsAdjacent(b: Board, frontier: seq<Point>, q: Point)
    ensures Scanned(b, frontier, |frontier|, 0, q) <==> exists p :: p in frontier && Adjacent(b, p, q)
  {
    if p :| p in frontier && Adjacent(b, p, q) {
      var d :| Neighbor(b, p, d) == q;
      EveryDirection(d);
      var e :| 0 <= e < 6 && DIRECTIONS[e] == d;
      var j :| 0 <= j < |frontier| && frontier[j] == p;
      assert Scanned(b, frontier, |frontier|, 0, q);
    }
    if Scanned(b, frontier, |frontier|, 0, q) {
      var j, e :| 0 <= j < |frontier| && 0 <= e < 6 && Neighbor(b, frontier[j], DIRECTIONS[e]) == q;
      assert frontier[j] in frontier && Adjacent(b, frontier[j], q);
    }
  }

  /** A point is first reached in d steps exactly if it is not seen yet and adjacent to the frontier. */
  lemma NextLevel(b: Board, from: Point, seen: set<Point>, frontier: seq<Point>, d: nat, q: Point)
    requires d > 0 && Explored(b, from, seen, frontier, d)
    ensures q !in seen ==> (Joined(b, from, q, d) <==> exists p :: p in frontier && Adjacent(b, p, q))
  {
    hide Joined, Adjacent;
    if q !in seen && Joined(b, from, q, d) {
      var p := LastStep(b, from, q, d - 1);
      NextDoor(b, from, p, q, d - 2);
      assert p in frontier;
    }
    if p :| p in frontier && Adjacent(b, p, q) {
      OneStepFurther(b, from, p, q, d - 1);
    }
  }

  lemma Deepen(b: Board, from: Point, seen: set<Point>, frontier: seq<Point>, d: nat,
               seen': set<Point>, next: seq<Point>)
    requires d > 0 && Explored(b, from, seen, frontier, d)
    requires forall q :: q in next <==> q !in seen && Scanned(b, frontier, |frontier|, 0, q)
    requires forall q :: q in seen' <==> q in seen || q in next
    ensures Explored(b, from, seen', next, d + 1)
  {
    hide Joined, Adjacent, Scanned, Within;
    forall q ensures (q in seen' <==> Within(b, from, q, d))
                     && (q in next <==> Joined(b, from, q, d) && !Within(b, from, q, d - 1)) {
      ScannedIsAdjacent(b, frontier, q);
      NextLevel(b, from, seen, frontier, d, q);
      assert q in seen <==> Within(b, from, q, d - 1);
      OneLevelMore(b, from, q, d);
    }
  }

  /** Once a level is empty nothing further out is ever reached. */
  lemma {:induction false} NothingBeyond(b: Board, from: Point, seen: set<Point>, d: nat, q: Point, n: nat)
    requires d > 0 && Explored(b, from, seen, [], d) && Joined(b, from, q, n)
    ensures q in seen
    decreases n
  {
    hide Joined, Adjacent;
    if n <= d - 1 {
      assert Within(b, from, q, d - 1);
    } else {
      var p := LastStep(b, from, q, n - 1);
      NothingBeyond(b, from, seen, d, p, n - 1);
      var frontier: seq<Point> := [];
      assert p !in frontier;
      OneLevelMore(b, from, p, d - 1);
      NextDoor(b, from, p, q, d - 2);
    }
  }

  lemma SeenIsBounded(b: Board, from: Point, seen: set<Point>)
    requires forall p :: p in seen ==> p == from || InBounds(b, p)
    ensures |seen| <= |Cells(b) + {from}|
  {
    forall p | p in seen ensures p in Cells(b) + {from} { CellsAreInBounds(b, p); }
    SubsetSize(seen, Cells(b) + {from});
  }

  /** The number of steps to a cell, found level by level. */
  method Distance(b: Board, from: Point, to: Point) returns (n: nat)
    ensures (exists k: nat :: Joined(b, from, to, k)) ==> Shortest(b, from, to, n)
    ensures (forall k: nat :: !Joined(b, from, to, k)) ==> n == UNREACHABLE
  {
    hide Joined, Adjacent, Explored, Scanned, Within;
    JoinedToItself(b, from, to);
    if from == to { return 0; }
    var seen := {from};
    var frontier := [from];
    var d := 1;
    Start(b, from);
    SeenIsBounded(b, from, seen);
    while frontier != []
      invariant d > 0 && Explored(b, from, seen, frontier, d) && to !in seen
      invariant forall p :: p in seen ==> p == from || InBounds(b, p)
      invariant |seen| <= |Cells(b) + {from}|
      decreases |Cells(b) + {from}| - |seen|, |frontier|
    {
      var next: seq<Point> := [];
      ghost var before := seen;
      ScanNone(b, frontier);
      for i := 0 to |frontier|
        invariant to !in seen && forall p :: p in seen ==> p == from || InBounds(b, p)
        invariant forall q :: q in next <==> q !in before && Scanned(b, frontier, i, 0, q)
        invariant forall q :: q in seen <==> q in before || q in next
      {
        for k := 0 to 6
          invariant to !in seen && forall p :: p in seen ==> p == from || InBounds(b, p)
          invariant forall q :: q in next <==> q !in before && Scanned(b, frontier, i, k, q)
          invariant forall q :: q in seen <==> q in before || q in next
        {
          var q := Neighbor(b, frontier[i], DIRECTIONS[k]);
          ScanOne(b, frontier, i, k);
          if InBounds(b, q) && q !in seen {
            if q == to {
              Found(b, from, before, frontier, d, i, k);
              return d;
            }
            seen := seen + {q};
            next := next + [q];
          }
        }
        ScanRow(b, frontier, i);
      }
      Deepen(b, from, before, frontier, d, seen, next);
      SeenIsBounded(b, from, seen);
      Grown(before, seen, next);
      frontier := next;
      d := d + 1;
    }
    forall k: nat | Joined(b, from, to, k) ensures false {
      NothingBeyond(b, from, seen, d, to, k);
    }
    return UNREACHABLE;
  }

  lemma ScanNone(b: Board, frontier: seq<Point>)
    ensures forall q :: !Scanned(b, frontier, 0, 0, q)
  {
  }

  lemma ScanOne(b: Board, frontier: seq<Point>, i: nat, k: nat)
    requires i < |frontier| && k < 6
    ensures forall q :: Scanned(b, frontier, i, k + 1, q) <==>
              Scanned(b, frontier, i, k, q) || (InBounds(b, q) && q == Neighbor(b, frontier[i], DIRECTIONS[k]))
  {
  }

  lemma ScanRow(b: Board, frontier: seq<Point>, i: nat)
    requires i < |frontier|
    ensures forall q :: Scanned(b, frontier, i, 6, q) <==> Scanned(b, frontier, i + 1, 0, q)
  {
  }

  lemma Found(b: Board, from: Point, seen: set<Point>, frontier: seq<Point>, d: nat, i: nat, k: nat)
    requires d > 0 && Explored(b, from, seen, frontier, d) && i < |frontier| && k < 6
    requires var to := Neighbor(b, frontier[i], DIRECTIONS[k]); InBounds(b, to) && to !in seen
    ensures Shortest(b, from, Neighbor(b, frontier[i], DIRECTIONS[k]), d)
  {
    hide Joined;
    var p, to := frontier[i], Neighbor(b, frontier[i], DIRECTIONS[k]);
    assert p in frontier && Adjacent(b, p, to);
    OneStepFurther(b, from, p, to, d - 1);
    forall n: nat | Joined(b, from, to, n) ensures d <= n {
      assert n <= d - 1 ==> Within(b, from, to, d - 1);
    }
  }

  lemma Grown(before: set<Point>, seen: set<Point>, next: seq<Point>)
    requires forall q :: q in seen <==> q in before || q in next
    requires forall q :: q in next ==> q !in before
    ensures |before| <= |seen| && (next != [] ==> |before| < |seen|)
  {
    SubsetSize(before, seen);
    if next != [] {
      assert next[0] in next;
      SubsetSize(before + {next[0]}, seen);
    }
  }

  // ----- every cell can be reached

  function Gap(x: int, y: int): nat {
    if x < y then y - x else x - y
  }

  /** A neighbour one row away in the same column, and one column away in the same row. */
  lemma StraightStep(b: Board, p: Point, q: Point)
    requires InBounds(b, p) && InBounds(b, q)
    requires (p.q == q.q && Gap(p.r, q.r) == 1) || (p.r == q.r && Gap(p.q, q.q) == 1)
    ensures Adjacent(b, p, q)
  {
    var odd := p.r % 2 == 1;
    var d := if q.q == p.q + 1 then East else if q.q == p.q - 1 then West
             else if q.r == p.r + 1 then (if b.mode == ClassicRules && odd then SouthWest else SouthEast)
             else if b.mode == ClassicRules && !odd then NorthEast else NorthWest;
    assert Neighbor(b, p, d) == q;
  }

  /** Terrain never enters the search, so on any board every cell is within the sum of the coordinate differences. */
  lemma {:induction false} EveryCellIsReachable(b: Board, p: Point, q: Point)
    requires InBounds(b, p) && InBounds(b, q)
    ensures Joined(b, p, q, Gap(p.q, q.q) + Gap(p.r, q.r))
    decreases Gap(p.q, q.q) + Gap(p.r, q.r)
  {
    hide Joined, Adjacent;
    if p == q {
      JoinedToItself(b, p, q);
    } else {
      var near := if q.q < p.q then Point(q.q + 1, q.r) else if q.q > p.q then Point(q.q - 1, q.r)
                  else if q.r < p.r then Point(q.q, q.r + 1) else Point(q.q, q.r - 1);
      EveryCellIsReachable(b, p, near);
      StraightStep(b, near, q);
      OneStepFurther(b, p, near, q, Gap(p.q, near.q) + Gap(p.r, near.r));
    }
  }

  // ----- what an observer sees

  datatype VisibleCell = VisibleCell(point: Point, visible: bool, obstacle: bool, hole: bool, weight: int)

  /** Who looks, and how far: without fog, or with a negative radius, the whole board is seen. */
  datatype View = View(eye: Point, fog: bool, radius: int)

  ghost predicate InSight(b: Board, view: View, p: Point) {
    !view.fog || view.radius < 0 || Within(b, view.eye, p, view.radius)
  }

  /** The entry of a cell: its terrain if it is in sight, and nothing but its place if it is not. */
  ghost function Entry(b: Board, t: Terrain, view: View, p: Point): VisibleCell {
    if InSight(b, view, p) then
      VisibleCell(p, true, p in t.obstacles, p in t.holes, if p in t.weights then t.weights[p] else 0)
    else VisibleCell(p, false, false, false, 0)
  }

  ghost function Entries(b: Board, t: Terrain, view: View, points: seq<Point>): seq<VisibleCell> {
    seq(|points|, i requires 0 <= i < |points| => Entry(b, t, view, points[i]))
  }

  ghost function Hidden(b: Board, view: View, cells: set<Point>): set<Point> {
    set p | p in cells && !InSight(b, view, p)
  }

  /** One cell's test. Only the greatest radius of all would also show cells that cannot be reached. */
  method Sees(b: Board, view: View, p: Point) returns (seen: bool)
    ensures seen == (InSight(b, view, p) || (view.radius >= UNREACHABLE && forall k: nat :: !Joined(b, view.eye, p, k)))
  {
    hide Joined;
    if !view.fog || view.radius < 0 {
      return true;
    }
    JoinedToItself(b, view.eye, p);
    var n := Distance(b, view.eye, p);
    return n <= view.radius || p == view.eye;
  }

  /** In the order of the scan: column by column, each from the top. */
  ghost predicate InOrder(points: seq<Point>) {
    forall i, j :: 0 <= i < j < |points| ==> PointLess(points[i], points[j])
  }

  ghost function ScannedBefore(b: Board, q: int, r: int): set<Point> {
    set p | p in Cells(b) && (p.q < q || (p.q == q && p.r < r))
  }

  /** Every cell of the board once, column by column. */
  method Columns(b: Board) returns (out: seq<Point>)
    requires b.width >= 0 && b.height >= 0
    ensures InOrder(out) && Elements(out) == Cells(b)
  {
    out := [];
    var start := Origin(b);
    for q := start to start + b.width
      invariant InOrder(out) && Elements(out) == ScannedBefore(b, q, start)
    {
      for r := start to start + b.height
        invariant InOrder(out) && Elements(out) == ScannedBefore(b, q, r)
      {
        forall k | 0 <= k < |out| ensures PointLess(out[k], Point(q, r)) {
          assert out[k] in Elements(out);
        }
        out := out + [Point(q, r)];
        assert ScannedBefore(b, q, r + 1) == ScannedBefore(b, q, r) + {Point(q, r)};
      }
      assert ScannedBefore(b, q, start + b.height) == ScannedBefore(b, q + 1, start);
    }
    assert ScannedBefore(b, start + b.width, start) == Cells(b);
  }

  /** The cells a list of entries is about. */
  function Places(cells: seq<VisibleCell>): (points: seq<Point>)
    ensures |points| == |cells|
  {
    seq(|cells|, i requires 0 <= i < |cells| => cells[i].point)
  }

  /**
   * The cells of an observation: one entry for each cell of the board, in order; exactly the ball of the radius is
   * visible, and every other cell is counted as unknown.
   */
  method ObserveCells(b: Board, t: Terrain, view: View) returns (cells: seq<VisibleCell>, unknown: nat)
    requires b.width >= 0 && b.height >= 0
    requires view.radius < UNREACHABLE || InBounds(b, view.eye)
    ensures InOrder(Places(cells)) && Elements(Places(cells)) == Cells(b)
    ensures cells == Entries(b, t, view, Places(cells))
    ensures unknown == |Hidden(b, view, Cells(b))|
  {
    hide InSight;
    var points := Columns(b);
    cells, unknown := [], 0;
    assert Hidden(b, view, Elements(points[..0])) == {};
    for k := 0 to |points|
      invariant cells == Entries(b, t, view, points[..k])
      invariant unknown == |Hidden(b, view, Elements(points[..k]))|
    {
      var p := points[k];
      assert p in Elements(points);
      CellsAreInBounds(b, p);
      if InBounds(b, view.eye) {
        EveryCellIsReachable(b, view.eye, p);
      }
      var seen := Sees(b, view, p);
      assert points[..k + 1] == points[..k] + [p];
      OneMoreHidden(b, view, points, k);
      if seen {
        var weight := if p in t.weights then t.weights[p] else 0;
        cells := cells + [VisibleCell(p, true, p in t.obstacles, p in t.holes, weight)];
      } else {
        cells := cells + [VisibleCell(p, false, false, false, 0)];
        unknown := unknown + 1;
      }
    }
    assert points[..|points|] == points;
    assert Places(cells) == points;
  }

  lemma OneMoreHidden(b: Board, view: View, points: seq<Point>, k: nat)
    requires k < |points| && InOrder(points)
    ensures |Hidden(b, view, Elements(points[..k + 1]))| ==
            |Hidden(b, view, Elements(points[..k]))| + if InSight(b, view, points[k]) then 0 else 1
  {
    hide InSight;
    var p := points[k];
    assert points[..k + 1] == points[..k] + [p];
    assert p !in points[..k];
    var before, after := Hidden(b, view, Elements(points[..k])), Hidden(b, view, Elements(points[..k + 1]));
    if InSight(b, view, p) {
      assert after == before;
    } else {
      assert after == before + {p};
    }
  }

  ghost predicate SameTerrainAt(t: Terrain, t': Terrain, p: Point) {
    && (p in t.obstacles <==> p in t'.obstacles) && (p in t.holes <==> p in t'.holes)
    && (p in t.weights <==> p in t'.weights) && (p in t.weights ==> t.weights[p] == t'.weights[p])
  }

  /** Two boards give the same observation exactly when their terrain agrees in the ball: nothing outside it shows. */
  lemma FogHidesTerrain(b: Board, t: Terrain, t': Terrain, view: View, points: seq<Point>)
    requires forall p :: (p in t.weights ==> t.weights[p] != 0) && (p in t'.weights ==> t'.weights[p] != 0)
    ensures Entries(b, t, view, points) == Entries(b, t', view, points) <==>
            forall p :: p in points && InSight(b, view, p) ==> SameTerrainAt(t, t', p)
  {
    hide InSight;
    var a, a' := Entries(b, t, view, points), Entries(b, t', view, points);
    if a == a' {
      forall p | p in points && InSight(b, view, p) ensures SameTerrainAt(t, t', p) {
        var i :| 0 <= i < |points| && points[i] == p;
        assert a[i] == a'[i];
      }
    } else {
      var i :| 0 <= i < |points| && a[i] != a'[i];
      assert points[i] in points;
    }
  }

  /** A step in one of the six directions onto a cell of the board. */
  ghost predicate OneStep(b: Board, p: Point, q: Point) {
    InBounds(b, q) && (Neighbor(b, p, East) == q || Neighbor(b, p, SouthEast) == q || Neighbor(b, p, SouthWest) == q
                       || Neighbor(b, p, West) == q || Neighbor(b, p, NorthWest) == q || Neighbor(b, p, NorthEast) == q)
  }

  /** A way over the board from p to q in at most n steps. */
  ghost predicate Way(b: Board, p: Point, q: Point, n: int, way: seq<Point>) {
    && 0 < |way| <= n + 1 && way[0] == p && way[|way| - 1] == q
    && forall i :: 0 < i < |way| ==> OneStep(b, way[i - 1], way[i])
  }

  lemma StepIsAdjacent(b: Board, p: Point, q: Point)
    ensures OneStep(b, p, q) <==> Adjacent(b, p, q)
  {
    if Adjacent(b, p, q) {
      var d :| Neighbor(b, p, d) == q;
      EveryDirection(d);
    }
  }

  lemma WithinIsWay(b: Board, p: Point, q: Point, n: int)
    ensures Within(b, p, q, n) <==> exists way :: Way(b, p, q, n, way)
  {
    hide Adjacent, OneStep;
    forall p, q ensures OneStep(b, p, q) <==> Adjacent(b, p, q) { StepIsAdjacent(b, p, q); }
    if Within(b, p, q, n) {
      var k: nat :| k <= n && Joined(b, p, q, k);
      var walk :| IsWalk(b, walk) && |walk| == k + 1 && walk[0] == p && walk[k] == q;
      assert Way(b, p, q, n, walk);
    } else if way :| Way(b, p, q, n, way) {
      assert IsWalk(b, way) && Joined(b, p, q, |way| - 1);
    }
  }

  /**
   * A cell is seen where there is no fog, or some way of at most the radius leads there; what is not seen shows
   * nothing.
   */
  lemma ObservationShows(b: Board, t: Terrain, view: View, points: seq<Point>, i: nat)
    requires i < |points|
    ensures var e := Entries(b, t, view, points)[i]; var p := points[i];
      && e.point == p
      && (e.visible <==> !view.fog || view.radius < 0 || exists way :: Way(b, view.eye, p, view.radius, way))
      && (e.visible ==> (e.obstacle <==> p in t.obstacles) && (e.hole <==> p in t.holes)
                        && e.weight == if p in t.weights then t.weights[p] else 0)
      && (!e.visible ==> !e.obstacle && !e.hole && e.weight == 0)
  {
    hide Within, Way;
    WithinIsWay(b, view.eye, points[i], view.radius);
  }
}
