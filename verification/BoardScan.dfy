/** The scans of a board: its points in row-major order and its edges, each once. */
module BoardScan {
  import opened Geometry
  import opened HalfEdges

  ghost predicate NoDuplicates<T>(s: seq<T>) {
    forall i, j :: 0 <= i < j < |s| ==> s[i] != s[j]
  }

  ghost function Elements<T>(s: seq<T>): set<T> {
    set x | x in s
  }

  lemma {:induction false} DistinctSize<T>(s: seq<T>)
    requires NoDuplicates(s)
    ensures |Elements(s)| == |s|
    decreases |s|
  {
    if s == [] {
      assert Elements(s) == {};
    } else {
      var rest, x := s[..|s| - 1], s[|s| - 1];
      DistinctSize(rest);
      assert Elements(s) == Elements(rest) + {x};
    }
  }

  ghost function RowMajorBefore(b: Board, x: int, y: int): set<Point> {
    set p | p in Cells(b) && (p.r < y || (p.r == y && p.q < x))
  }

  lemma OneMorePoint(b: Board, x: int, y: int)
    requires Origin(b) <= x < Origin(b) + b.width && Origin(b) <= y < Origin(b) + b.height
    ensures Point(x, y) !in RowMajorBefore(b, x, y)
    ensures RowMajorBefore(b, x + 1, y) == RowMajorBefore(b, x, y) + {Point(x, y)}
  {
  }

  /** The end of a row is the beginning of the next, and the first and last rows bound the board. */
  lemma ScanEnds(b: Board, y: int)
    requires b.width >= 0 && b.height >= 0
    ensures var start := Origin(b);
      && RowMajorBefore(b, start + b.width, y) == RowMajorBefore(b, start, y + 1)
      && RowMajorBefore(b, start, start) == {} && RowMajorBefore(b, start, start + b.height) == Cells(b)
  {
  }

  ghost function RowUpTo(start: int, y: int, x: int): seq<Point>
    decreases x - start
  {
    if x <= start then [] else RowUpTo(start, y, x - 1) + [Point(x - 1, y)]
  }

  ghost function RowsUpTo(b: Board, y: int): seq<Point>
    decreases y - Origin(b)
  {
    var start := Origin(b);
    if y <= start then [] else RowsUpTo(b, y - 1) + RowUpTo(start, y - 1, start + b.width)
  }

  /** The points of a board row by row, the order in which a start is drawn from them. */
  ghost function RowMajor(b: Board): seq<Point> {
    RowsUpTo(b, Origin(b) + b.height)
  }

  method Points(b: Board) returns (out: seq<Point>)
    requires b.width >= 0 && b.height >= 0
    ensures out == RowMajor(b)
    ensures NoDuplicates(out) && Elements(out) == Cells(b)
    ensures |out| == b.width * b.height
  {
    hide RowMajorBefore;
    out := [];
    var start := Origin(b);
    ScanEnds(b, start);
    for y := start to start + b.height
      invariant out == RowsUpTo(b, y)
      invariant NoDuplicates(out) && Elements(out) == RowMajorBefore(b, start, y)
    {
      for x := start to start + b.width
        invariant out == RowsUpTo(b, y) + RowUpTo(start, y, x)
        invariant NoDuplicates(out) && Elements(out) == RowMajorBefore(b, x, y)
      {
        OneMorePoint(b, x, y);
        assert Point(x, y) !in Elements(out);
        out := out + [Point(x, y)];
        assert Elements(out) == RowMajorBefore(b, x, y) + {Point(x, y)};
      }
      ScanEnds(b, y);
    }
    DistinctSize(out);
    EveryHalfCount(b);
  }

  /** `AllEdges`: every edge of the board once; on a torus exactly three per cell. */
  method AllEdges(b: Board) returns (out: seq<Edge>)
    requires b.width >= 0 && b.height >= 0
    ensures NoDuplicates(out) && Elements(out) == EveryEdge(b)
    ensures Regular(b) && b.topology == Toroidal ==> |out| == 3 * (b.width * b.height)
  {
    hide EdgeFrom;
    out := [];
    var points := Points(b);
    var seen: set<Edge> := {};
    for i := 0 to |points|
      invariant NoDuplicates(out) && Elements(out) == seen
      invariant seen == set p, d | p in points[..i] && d in FULL :: EdgeFrom(b, p, d)
    {
      var p := points[i];
      ghost var before := seen;
      for k := 0 to 6
        invariant NoDuplicates(out) && Elements(out) == seen
        invariant seen == before + set d | d in DIRECTIONS[..k] :: EdgeFrom(b, p, d)
      {
        var e := EdgeFrom(b, p, DIRECTIONS[k]);
        OneMoreEdge(b, p, k);
        if e !in seen {
          assert e !in Elements(out);
          out := out + [e];
          seen := seen + {e};
        }
      }
      assert points[..i + 1] == points[..i] + [p];
      SixEdges(b, p);
    }
    assert points[..|points|] == points;
    assert forall p :: p in points <==> p in Elements(points);
    DistinctSize(out);
    if Regular(b) && b.topology == Toroidal {
      TorusEdgeCount(b);
    }
  }

  lemma OneMoreEdge(b: Board, p: Point, k: nat)
    requires k < 6
    ensures (set d | d in DIRECTIONS[..k + 1] :: EdgeFrom(b, p, d)) ==
            (set d | d in DIRECTIONS[..k] :: EdgeFrom(b, p, d)) + {EdgeFrom(b, p, DIRECTIONS[k])}
  {
    hide EdgeFrom;
    assert DIRECTIONS[..k + 1] == DIRECTIONS[..k] + [DIRECTIONS[k]];
  }

  lemma SixEdges(b: Board, p: Point)
    ensures (set d | d in DIRECTIONS[..6] :: EdgeFrom(b, p, d)) == set d | d in FULL :: EdgeFrom(b, p, d)
  {
    assert DIRECTIONS[..6] == DIRECTIONS;
    forall d: Direction ensures d in DIRECTIONS && d in FULL { EveryDirection(d); }
  }
}
