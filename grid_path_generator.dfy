// src/lib/routing/gridPathGenerator.ts: turning a drawn path into a
// Manhattan (horizontal and vertical moves only) path, snapping it to a block
// grid, dropping straight-run points, and estimating the grid of an area.

module GridPathGenerator {
  import opened Types
  import opened Seqs
  import opened Distance

  /** Moves of at most this much are treated as no move. */
  const GridTolerance: real := 0.001

  /** The default block size in metres. */
  const DefaultBlockSize: real := 100.0

  /**
   * GridPathOptions. convertToGridPath reads none of them; generateGridArtPath
   * reads snapToBlocks and blockSize.
   */
  datatype GridPathOptions = GridPathOptions(blockSize: Option<real>, gridAngle: Option<real>, snapToBlocks: Option<bool>)

  /** The path built so far and the current position of convertToGridPath. */
  datatype GridState = GridState(path: seq<Point2D>, current: Point2D)

  /**
   * One iteration towards target: a horizontal move to (target.x, current.y)
   * when x changes by more than the tolerance, then a move to target itself
   * when y does.
   */
  function GridStep(s: GridState, target: Point2D): (r: GridState)
    ensures |s.path| <= |r.path| <= |s.path| + 2 && r.path[..|s.path|] == s.path
  {
    var dx := target.x - s.current.x;
    var dy := target.y - s.current.y;
    var afterX := if Abs(dx) > GridTolerance then
                    var midPoint := Point2D(target.x, s.current.y);
                    GridState(s.path + [midPoint], midPoint)
                  else s;
    if Abs(dy) > GridTolerance then GridState(afterX.path + [target], target) else afterX
  }

  /** The state after the first n input points (n >= 1). */
  function GridFold(points: seq<Point2D>, n: int): (r: GridState)
    requires 1 <= n <= |points|
    decreases n
  {
    if n == 1 then GridState([points[0]], points[0]) else GridStep(GridFold(points, n - 1), points[n - 1])
  }

  /** convertToGridPath. */
  function ConvertToGridPath(points: seq<Point2D>): seq<Point2D>
  {
    if |points| < 2 then points else GridFold(points, |points|).path
  }

  /**
   * Each step of a grid path is horizontal, or reaches an input point while
   * moving at most the tolerance sideways.
   */
  predicate ManhattanStep(a: Point2D, b: Point2D, points: seq<Point2D>)
  {
    b.y == a.y || (Abs(b.x - a.x) <= GridTolerance && b in points)
  }

  predicate Manhattan(path: seq<Point2D>, points: seq<Point2D>)
  {
    forall k :: 1 <= k < |path| ==> ManhattanStep(path[k - 1], path[k], points)
  }

  /** A target within the tolerance on both axes adds nothing and leaves the position. */
  lemma NegligibleMove(s: GridState, target: Point2D)
    requires Abs(target.x - s.current.x) <= GridTolerance && Abs(target.y - s.current.y) <= GridTolerance
    ensures GridStep(s, target) == s
  {
  }

  lemma StepIsManhattan(s: GridState, target: Point2D, points: seq<Point2D>)
    requires |s.path| > 0 && Last(s.path) == s.current && target in points
    requires Manhattan(s.path, points)
    ensures Last(GridStep(s, target).path) == GridStep(s, target).current
    ensures Manhattan(GridStep(s, target).path, points)
  {
    var dx := target.x - s.current.x;
    var afterX := if Abs(dx) > GridTolerance then
                    GridState(s.path + [Point2D(target.x, s.current.y)], Point2D(target.x, s.current.y))
                  else s;
    assert Manhattan(afterX.path, points) by {
      if Abs(dx) > GridTolerance {
        SnocStep(s.path, Point2D(target.x, s.current.y), points);
      }
    }
    assert Last(afterX.path) == afterX.current;
    assert Abs(target.x - afterX.current.x) <= GridTolerance || target.x == afterX.current.x;
    if Abs(target.y - s.current.y) > GridTolerance {
      SnocStep(afterX.path, target, points);
    }
  }

  lemma SnocStep(path: seq<Point2D>, b: Point2D, points: seq<Point2D>)
    requires |path| > 0 && Manhattan(path, points) && ManhattanStep(Last(path), b, points)
    ensures Manhattan(path + [b], points)
  {
    var r := path + [b];
    forall k | 1 <= k < |r|
      ensures ManhattanStep(r[k - 1], r[k], points)
    {
      if k < |path| {
        assert r[k - 1] == path[k - 1] && r[k] == path[k];
      }
    }
  }

  /**
   * After n input points the grid path starts at the first input point, ends
   * at the current position, has at most 2n - 1 points, and only makes
   * Manhattan steps.
   */
  lemma {:induction false} GridFoldShape(points: seq<Point2D>, n: int)
    requires 1 <= n <= |points|
    ensures var s := GridFold(points, n);
            1 <= |s.path| <= 2 * n - 1 && s.path[0] == points[0] && Last(s.path) == s.current
            && Manhattan(s.path, points)
    decreases n
  {
    if n > 1 {
      GridFoldShape(points, n - 1);
      StepIsManhattan(GridFold(points, n - 1), points[n - 1], points);
    }
  }

  /**
   * convertToGridPath returns fewer than two points unchanged; otherwise it
   * starts at the first point, has at most 2n - 1 points and moves only
   * horizontally or (within the tolerance) vertically onto input points.
   */
  lemma ConvertToGridPathShape(points: seq<Point2D>)
    ensures |points| < 2 ==> ConvertToGridPath(points) == points
    ensures |points| >= 2 ==>
              var r := ConvertToGridPath(points);
              1 <= |r| <= 2 * |points| - 1 && r[0] == points[0] && Manhattan(r, points)
  {
    if |points| >= 2 {
      GridFoldShape(points, |points|);
    }
  }

  /** convertToGridPath with its loop. */
  method ConvertToGridPathLoop(points: seq<Point2D>, options: GridPathOptions) returns (gridPath: seq<Point2D>)
    ensures gridPath == ConvertToGridPath(points)
  {
    if |points| < 2 {
      return points;
    }
    var current := points[0];
    gridPath := [current];
    var i := 1;
    while i < |points|
      invariant 1 <= i <= |points|
      invariant GridState(gridPath, current) == GridFold(points, i)
    {
      var target := points[i];
      var dx := target.x - current.x;
      var dy := target.y - current.y;
      if Abs(dx) > GridTolerance {
        var midPoint := Point2D(target.x, current.y);
        gridPath := gridPath + [midPoint];
        current := midPoint;
      }
      if Abs(dy) > GridTolerance {
        gridPath := gridPath + [target];
        current := target;
      }
      i := i + 1;
    }
  }

  /** A coordinate in units of blockSize / 1000. */
  function ToUnits(v: real, blockSize: real): real
    requires blockSize != 0.0
  {
    v * 1000.0 / blockSize
  }

  /** A number of units of blockSize / 1000, as a coordinate. */
  function FromUnits(t: real, blockSize: real): real
  {
    Times(t, blockSize / 1000.0)
  }

  /** One coordinate of snapToBlockGrid: the nearest whole number of units. */
  function Snap(v: real, blockSize: real): real
    requires blockSize != 0.0
  {
    FromUnits(Round(ToUnits(v, blockSize)) as real, blockSize)
  }

  /** snapToBlockGrid. */
  function SnapToBlockGrid(path: seq<Point2D>, blockSize: real): (r: seq<Point2D>)
    requires blockSize != 0.0
    ensures |r| == |path|
  {
    seq(|path|, i requires 0 <= i < |path| => Point2D(Snap(path[i].x, blockSize), Snap(path[i].y, blockSize)))
  }

  lemma UnitsRoundTrip(v: real, b: real)
    requires b != 0.0
    ensures FromUnits(ToUnits(v, b), b) == v
    ensures ToUnits(FromUnits(v, b), b) == v
  {
    assert v * 1000.0 / b * (b / 1000.0) == v;
    assert v * (b / 1000.0) * 1000.0 / b == v;
  }

  /** Moving by less than half a unit moves the coordinate by at most b / 2000. */
  lemma UnitError(t: real, x: real, b: real)
    requires b > 0.0 && t - 0.5 < x <= t + 0.5
    ensures -(b / 2000.0) <= FromUnits(x, b) - FromUnits(t, b) <= b / 2000.0
  {
    Distribute(x, t, b / 1000.0);
    HalfBound(x - t, b / 1000.0);
  }

  lemma Distribute(x: real, t: real, u: real)
    ensures Times(x, u) - Times(t, u) == Times(x - t, u)
  {
  }

  lemma HalfBound(d: real, u: real)
    requires -0.5 < d <= 0.5 && u > 0.0
    ensures -(u / 2.0) <= Times(d, u) <= u / 2.0
  {
    if d >= 0.0 {
      assert d * u <= 0.5 * u;
    } else {
      assert (-d) * u <= 0.5 * u;
    }
  }

  /**
   * A snapped coordinate is a whole number k of b / 1000 units, within half
   * a unit of the original, and snapping it again changes nothing.
   */
  lemma SnapProperties(v: real, b: real) returns (k: int)
    requires b > 0.0
    ensures Snap(v, b) == FromUnits(k as real, b)
    ensures Abs(Snap(v, b) - v) <= b / 2000.0
    ensures Snap(Snap(v, b), b) == Snap(v, b)
  {
    k := Round(ToUnits(v, b));
    UnitError(ToUnits(v, b), k as real, b);
    UnitsRoundTrip(v, b);
    UnitsRoundTrip(k as real, b);
    assert Round(k as real) == k;
  }

  /** Snapping a whole path is idempotent. */
  lemma SnapToBlockGridIdempotent(path: seq<Point2D>, b: real)
    requires b > 0.0
    ensures SnapToBlockGrid(SnapToBlockGrid(path, b), b) == SnapToBlockGrid(path, b)
  {
    var once := SnapToBlockGrid(path, b);
    forall i | 0 <= i < |path|
      ensures SnapToBlockGrid(once, b)[i] == once[i]
    {
      var _ := SnapProperties(path[i].x, b);
      var _ := SnapProperties(path[i].y, b);
    }
  }

  /**
   * A corner: the step from the last kept point to curr differs from the
   * step from curr to next by more than the tolerance in x or in y.
   */
  predicate IsCorner(prev: Point2D, curr: Point2D, next: Point2D)
  {
    Abs((curr.x - prev.x) - (next.x - curr.x)) > GridTolerance
    || Abs((curr.y - prev.y) - (next.y - curr.y)) > GridTolerance
  }

  /** The points kept by simplifyGridPath from the first n (1 <= n < |path|). */
  function Corners(path: seq<Point2D>, n: int): (r: seq<Point2D>)
    requires 1 <= n < |path|
    ensures |r| > 0
    decreases n
  {
    if n == 1 then [path[0]] else KeepIfCorner(Corners(path, n - 1), path[n - 1], path[n])
  }

  /** One iteration: curr is pushed when it is a corner after the last kept point. */
  function KeepIfCorner(kept: seq<Point2D>, curr: Point2D, next: Point2D): (r: seq<Point2D>)
    requires |kept| > 0
    ensures |r| > 0 && r[0] == kept[0]
  {
    if IsCorner(Last(kept), curr, next) then kept + [curr] else kept
  }

  lemma KeepIfCornerSubsequence(kept: seq<Point2D>, prefix: seq<Point2D>, curr: Point2D, next: Point2D)
    requires |kept| > 0 && IsSubsequence(kept, prefix)
    ensures IsSubsequence(KeepIfCorner(kept, curr, next), prefix + [curr])
  {
    if IsCorner(Last(kept), curr, next) {
      SubsequenceSnoc(kept, prefix, curr);
    } else {
      SubsequenceExtend(kept, prefix, curr);
    }
  }

  /** simplifyGridPath. */
  function SimplifyGridPath(path: seq<Point2D>): seq<Point2D>
  {
    if |path| < 3 then path else Corners(path, |path| - 1) + [Last(path)]
  }

  lemma {:induction false} CornersSubsequence(path: seq<Point2D>, n: int)
    requires 1 <= n < |path|
    ensures Corners(path, n)[0] == path[0]
    ensures IsSubsequence(Corners(path, n), path[..n])
    decreases n
  {
    if n == 1 {
      assert path[..1] == [path[0]];
      SubsequenceRefl([path[0]]);
    } else {
      CornersSubsequence(path, n - 1);
      KeepIfCornerSubsequence(Corners(path, n - 1), path[..n - 1], path[n - 1], path[n]);
      PrefixSnoc(path, n - 1);
    }
  }

  /**
   * simplifyGridPath returns fewer than three points unchanged; otherwise it
   * keeps the first and the last point and an order-preserving selection of
   * the points between them.
   */
  lemma SimplifyGridPathShape(path: seq<Point2D>)
    ensures |path| < 3 ==> SimplifyGridPath(path) == path
    ensures |path| >= 3 ==>
              var r := SimplifyGridPath(path);
              2 <= |r| <= |path| && r[0] == path[0] && Last(r) == Last(path) && IsSubsequence(r, path)
  {
    if |path| >= 3 {
      var kept := Corners(path, |path| - 1);
      CornersSubsequence(path, |path| - 1);
      SubsequenceSnoc(kept, path[..|path| - 1], Last(path));
      DropLastThenSnoc(path);
      SnocParts(kept, Last(path));
      SubsequenceLength(kept + [Last(path)], path);
    }
  }

  /** The indices of the points Corners keeps from the first n: 0, then each corner. */
  function CornerIndices(path: seq<Point2D>, n: int): (k: seq<int>)
    requires 1 <= n < |path|
    ensures |k| > 0 && k[0] == 0
    ensures forall j :: 0 <= j < |k| ==> 0 <= k[j] < n
    decreases n
  {
    if n == 1 then [0]
    else
      var k := CornerIndices(path, n - 1);
      if IsCorner(path[Last(k)], path[n - 1], path[n]) then k + [n - 1] else k
  }

  /** The kept indices are strictly increasing. */
  lemma {:induction false} CornerIndicesIncrease(path: seq<Point2D>, n: int)
    requires 1 <= n < |path|
    ensures forall a, b :: 0 <= a < b < |CornerIndices(path, n)| ==> CornerIndices(path, n)[a] < CornerIndices(path, n)[b]
    decreases n
  {
    if n > 1 {
      CornerIndicesIncrease(path, n - 1);
      var k := CornerIndices(path, n - 1);
      if IsCorner(path[Last(k)], path[n - 1], path[n]) {
        var k' := k + [n - 1];
        forall a, b | 0 <= a < b < |k'|
          ensures k'[a] < k'[b]
        {
          assert k'[a] == k[a];
          if b < |k| {
            assert k'[b] == k[b];
          }
        }
      }
    }
  }

  /** The points at the given indices of path, in the order of the indices. */
  function PickPoints(path: seq<Point2D>, k: seq<int>): (r: seq<Point2D>)
    requires forall j :: 0 <= j < |k| ==> 0 <= k[j] < |path|
    ensures |r| == |k|
  {
    seq(|k|, j requires 0 <= j < |k| => path[k[j]])
  }

  /** Corners keeps exactly the points at CornerIndices. */
  lemma {:induction false} CornersArePicked(path: seq<Point2D>, n: int)
    requires 1 <= n < |path|
    ensures Corners(path, n) == PickPoints(path, CornerIndices(path, n))
    decreases n
  {
    if n > 1 {
      CornersArePicked(path, n - 1);
      var k := CornerIndices(path, n - 1);
      assert Last(Corners(path, n - 1)) == path[Last(k)];
      if IsCorner(path[Last(k)], path[n - 1], path[n]) {
        PickSnoc(path, k, n - 1);
      }
    }
  }

  /**
   * Among the first n points, an interior point is kept exactly when it is a
   * corner after the point kept last before it.
   */
  lemma KeptIffCorner(path: seq<Point2D>, n: int)
    requires 1 <= n < |path|
    ensures forall i :: 1 <= i < n ==>
              (i in CornerIndices(path, n) <==> IsCorner(path[Last(CornerIndices(path, i))], path[i], path[i + 1]))
  {
    forall i | 1 <= i < n
      ensures i in CornerIndices(path, n) <==> IsCorner(path[Last(CornerIndices(path, i))], path[i], path[i + 1])
    {
      KeptIffCornerAt(path, n, i);
    }
  }

  /** Point i is among the kept indices of the first n exactly when it is a corner. */
  lemma {:induction false} KeptIffCornerAt(path: seq<Point2D>, n: int, i: int)
    requires 1 <= i < n < |path|
    ensures i in CornerIndices(path, n) <==> IsCorner(path[Last(CornerIndices(path, i))], path[i], path[i + 1])
    decreases n
  {
    var k := CornerIndices(path, n - 1);
    assert n - 1 !in k;
    if i < n - 1 {
      KeptIffCornerAt(path, n - 1, i);
      if IsCorner(path[Last(k)], path[n - 1], path[n]) {
        MemberSnoc(k, n - 1, i);
      }
    }
  }

  lemma MemberSnoc(s: seq<int>, y: int, x: int)
    ensures x in s + [y] <==> x in s || x == y
  {
    if x in s + [y] && x != y {
      var j :| 0 <= j < |s| + 1 && (s + [y])[j] == x;
      assert s[j] == x;
    }
  }

  /**
   * simplifyGridPath of three or more points keeps the first point, then
   * each interior point exactly when it is a corner after the point kept
   * last before it, then the last point.
   */
  lemma SimplifyGridPathKeepsCorners(path: seq<Point2D>)
    requires |path| >= 3
    ensures var k := CornerIndices(path, |path| - 1) + [|path| - 1];
            SimplifyGridPath(path) == PickPoints(path, k)
            && (forall a, b :: 0 <= a < b < |k| ==> k[a] < k[b])
            && forall i :: 1 <= i < |path| - 1 ==>
                 (i in k <==> IsCorner(path[Last(CornerIndices(path, i))], path[i], path[i + 1]))
  {
    var n := |path| - 1;
    var k := CornerIndices(path, n);
    CornersArePicked(path, n);
    KeptIffCorner(path, n);
    CornerIndicesIncrease(path, n);
    PickSnoc(path, k, n);
    forall i | 1 <= i < n
      ensures i in k + [n] <==> i in k
    {
    }
  }

  lemma PickSnoc(path: seq<Point2D>, k: seq<int>, i: int)
    requires forall j :: 0 <= j < |k| ==> 0 <= k[j] < |path|
    requires 0 <= i < |path|
    ensures PickPoints(path, k + [i]) == PickPoints(path, k) + [path[i]]
  {
  }

  /**
   * Steps are measured from the last kept point, not from the previous input
   * point: on an evenly spaced straight run the second interior point is kept.
   */
  lemma StraightRunKeepsSecondInterior()
    ensures SimplifyGridPath([Point2D(0.0, 0.0), Point2D(1.0, 0.0), Point2D(2.0, 0.0), Point2D(3.0, 0.0)])
            == [Point2D(0.0, 0.0), Point2D(2.0, 0.0), Point2D(3.0, 0.0)]
  {
    var path := [Point2D(0.0, 0.0), Point2D(1.0, 0.0), Point2D(2.0, 0.0), Point2D(3.0, 0.0)];
    assert !IsCorner(path[0], path[1], path[2]);
    assert Corners(path, 2) == KeepIfCorner([path[0]], path[1], path[2]) == [path[0]];
    assert IsCorner(path[0], path[2], path[3]);
  }

  /** simplifyGridPath with its loop. */
  method SimplifyGridPathLoop(path: seq<Point2D>) returns (simplified: seq<Point2D>)
    ensures simplified == SimplifyGridPath(path)
  {
    if |path| < 3 {
      return path;
    }
    simplified := [path[0]];
    var i := 1;
    while i < |path| - 1
      invariant 1 <= i <= |path| - 1
      invariant simplified == Corners(path, i)
    {
      var prev := simplified[|simplified| - 1];
      var curr := path[i];
      var next := path[i + 1];
      var dx1 := curr.x - prev.x;
      var dy1 := curr.y - prev.y;
      var dx2 := next.x - curr.x;
      var dy2 := next.y - curr.y;
      var isCorner := Abs(dx1 - dx2) > GridTolerance || Abs(dy1 - dy2) > GridTolerance;
      if isCorner {
        simplified := simplified + [curr];
      }
      i := i + 1;
    }
    simplified := simplified + [path[|path| - 1]];
  }

  /**
   * generateGridArtPath: the Manhattan path, snapped only when snapToBlocks
   * is true (the default of convertToGridPath does not apply here; an absent
   * blockSize means snapToBlockGrid's default of 100), then simplified.
   */
  function GenerateGridArtPath(points: seq<Point2D>, options: GridPathOptions): seq<Point2D>
    requires options.snapToBlocks == Some(true) ==> options.blockSize != Some(0.0)
  {
    var gridPath := ConvertToGridPath(points);
    var snapped := if options.snapToBlocks == Some(true) then
                     SnapToBlockGrid(gridPath, if options.blockSize.Some? then options.blockSize.value else DefaultBlockSize)
                   else gridPath;
    SimplifyGridPath(snapped)
  }

  /**
   * Without snapping, the grid-art path of at least two points starts at the
   * first point, is a selection of the Manhattan path's points in order, and
   * has at most 2n - 1 points.
   */
  lemma GenerateGridArtPathShape(points: seq<Point2D>, options: GridPathOptions)
    requires options.snapToBlocks != Some(true) && |points| >= 2
    ensures var r := GenerateGridArtPath(points, options);
            |r| > 0 && r[0] == points[0] && IsSubsequence(r, ConvertToGridPath(points))
            && |r| <= 2 * |points| - 1
  {
    var g := ConvertToGridPath(points);
    ConvertToGridPathShape(points);
    SimplifyGridPathShape(g);
    if |g| < 3 {
      SubsequenceRefl(g);
    } else {
      SubsequenceLength(SimplifyGridPath(g), g);
    }
  }

  /** A bearing rounded to the nearest multiple of 45 degrees. */
  function RoundedBearing(b: real): int
  {
    Round(b / 45.0) * 45
  }

  /** A bearing in [0, 360) rounds to one of 0, 45, ..., 360. */
  lemma RoundedBearingRange(b: real) returns (k: int)
    requires 0.0 <= b < 360.0
    ensures RoundedBearing(b) == 45 * k && 0 <= k <= 8
  {
    k := Round(b / 45.0);
  }

  /** The rounded bearings of consecutive legs. */
  function LegBearings(m: Runtime, points: seq<LatLng>): (r: seq<int>)
    requires |points| >= 1
    ensures |r| == |points| - 1
  {
    seq(|points| - 1, i requires 0 <= i < |points| - 1 => RoundedBearing(m.bearing(points[i], points[i + 1])))
  }

  function Count(s: seq<int>, v: int): nat
  {
    multiset(s)[v]
  }

  /** The distinct values of s in order of first appearance (the key order of a Map). */
  function FirstAppearances(s: seq<int>): (r: seq<int>)
    ensures forall v :: v in r <==> v in s
    decreases |s|
  {
    if |s| == 0 then []
    else
      var keys := FirstAppearances(DropLast(s));
      DropLastThenSnoc(s);
      if Last(s) in keys then keys else keys + [Last(s)]
  }

  /** The running maximum and its bearing in the forEach over the counts. */
  datatype Choice = Choice(maxCount: int, primary: int)

  /** The choice after the first n keys: a strictly larger count replaces it. */
  function Pick(keys: seq<int>, s: seq<int>, n: int): Choice
    requires 0 <= n <= |keys|
    decreases n
  {
    if n == 0 then Choice(0, 0)
    else
      var c := Pick(keys, s, n - 1);
      var k := keys[n - 1];
      if Count(s, k) > c.maxCount then Choice(Count(s, k), k) else c
  }

  /** detectGridOrientation. */
  function DetectGridOrientation(m: Runtime, points: seq<LatLng>): int
  {
    if |points| < 2 then 0
    else
      Primary(LegBearings(m, points)) % 90
  }

  /**
   * After n >= 1 keys that all occur in s, the choice holds one of them with
   * the largest count so far (the earliest one on ties).
   */
  lemma {:induction false} PickIsMaximal(keys: seq<int>, s: seq<int>, n: int)
    requires 1 <= n <= |keys|
    requires forall v :: v in keys ==> v in s
    ensures var c := Pick(keys, s, n);
            c.maxCount == Count(s, c.primary) && c.primary in keys[..n]
            && forall j :: 0 <= j < n ==> Count(s, keys[j]) <= c.maxCount
    decreases n
  {
    assert keys[n - 1] in keys;
    if n == 1 {
      assert Pick(keys, s, 0) == Choice(0, 0);
    } else {
      PickIsMaximal(keys, s, n - 1);
      assert keys[..n - 1] <= keys[..n];
    }
  }

  /** The bearing picked from a non-empty list occurs in it at least as often as any other. */
  function Primary(bearings: seq<int>): int
  {
    Pick(FirstAppearances(bearings), bearings, |FirstAppearances(bearings)|).primary
  }

  lemma PrimaryIsMostFrequent(bearings: seq<int>)
    requires |bearings| > 0
    ensures Primary(bearings) in bearings
    ensures forall v :: Count(bearings, v) <= Count(bearings, Primary(bearings))
  {
    var keys := FirstAppearances(bearings);
    assert bearings[0] in keys;
    PickIsMaximal(keys, bearings, |keys|);
    assert keys[..|keys|] == keys;
    forall v | v in bearings
      ensures Count(bearings, v) <= Count(bearings, Primary(bearings))
    {
      var j :| 0 <= j < |keys| && keys[j] == v;
    }
  }

  /** Every leg bearing is 45 k for some k in 0..8. */
  lemma LegBearingIsMultiple(m: Runtime, points: seq<LatLng>, i: int) returns (k: int)
    requires 0 <= i < |points| - 1
    ensures LegBearings(m, points)[i] == 45 * k && 0 <= k <= 8
  {
    k := RoundedBearingRange(m.bearing(points[i], points[i + 1]));
  }

  lemma QuarterOfMultiple(k: int)
    requires 0 <= k <= 8
    ensures (45 * k) % 90 == 0 || (45 * k) % 90 == 45
  {
  }

  /**
   * With bearings in [0, 360) the orientation is 0 or 45; for two or more
   * points it is the remainder modulo 90 of a rounded bearing that occurs
   * at least as often as any other.
   */
  lemma DetectGridOrientationProperties(m: Runtime, points: seq<LatLng>)
    ensures DetectGridOrientation(m, points) == 0 || DetectGridOrientation(m, points) == 45
    ensures |points| >= 2 ==>
              var bearings := LegBearings(m, points);
              Primary(bearings) in bearings && DetectGridOrientation(m, points) == Primary(bearings) % 90
              && forall v :: Count(bearings, v) <= Count(bearings, Primary(bearings))
  {
    if |points| >= 2 {
      var bearings := LegBearings(m, points);
      PrimaryIsMostFrequent(bearings);
      var i :| 0 <= i < |bearings| && bearings[i] == Primary(bearings);
      var k := LegBearingIsMultiple(m, points, i);
      QuarterOfMultiple(k);
    }
  }

  /**
   * The counting forEach of detectGridOrientation: the Map's keys in
   * insertion order and its counts, after the first i rounded bearings.
   */
  method CountBearings(rounded: seq<int>) returns (keys: seq<int>, counts: map<int, int>)
    ensures keys == FirstAppearances(rounded)
    ensures forall v :: v in counts <==> v in rounded
    ensures forall v :: v in counts ==> counts[v] == Count(rounded, v)
  {
    keys, counts := [], map[];
    var i := 0;
    while i < |rounded|
      invariant 0 <= i <= |rounded|
      invariant CountedUpTo(rounded, i, keys, counts)
    {
      var b := rounded[i];
      var previous := if b in counts then counts[b] else 0;
      CountStep(rounded, i, keys, counts);
      // Map.set puts a new key after the existing ones
      keys := if b in keys then keys else keys + [b];
      counts := counts[b := previous + 1];
      i := i + 1;
    }
    assert rounded[..|rounded|] == rounded;
  }

  /** keys and counts are the Map's key order and counts after the first i bearings. */
  ghost predicate CountedUpTo(rounded: seq<int>, i: int, keys: seq<int>, counts: map<int, int>)
    requires 0 <= i <= |rounded|
  {
    && keys == FirstAppearances(rounded[..i])
    && (forall v :: v in counts <==> v in rounded[..i])
    && (forall v :: v in counts ==> counts[v] == Count(rounded[..i], v))
  }

  /** Counting bearing i: its count goes up by one, and it becomes a key if it was not one. */
  lemma CountStep(rounded: seq<int>, i: int, keys: seq<int>, counts: map<int, int>)
    requires 0 <= i < |rounded| && CountedUpTo(rounded, i, keys, counts)
    ensures var b := rounded[i];
            CountedUpTo(rounded, i + 1, if b in keys then keys else keys + [b],
                        counts[b := (if b in counts then counts[b] else 0) + 1])
  {
    PrefixParts(rounded, i);
    PrefixSnoc(rounded, i);
  }

  /** The bearings forEach of detectGridOrientation: one rounded bearing per leg. */
  method LegBearingsLoop(m: Runtime, samplePoints: seq<LatLng>) returns (rounded: seq<int>)
    requires |samplePoints| >= 1
    ensures rounded == LegBearings(m, samplePoints)
  {
    rounded := [];
    var i := 1;
    while i < |samplePoints|
      invariant 1 <= i <= |samplePoints|
      invariant |rounded| == i - 1
      invariant forall j :: 0 <= j < i - 1 ==> rounded[j] == RoundedBearing(m.bearing(samplePoints[j], samplePoints[j + 1]))
    {
      rounded := rounded + [RoundedBearing(m.bearing(samplePoints[i - 1], samplePoints[i]))];
      i := i + 1;
    }
  }

  /** The forEach over the counted Map: a strictly larger count replaces the choice. */
  method PickLoop(keys: seq<int>, counts: map<int, int>, rounded: seq<int>) returns (primary: int)
    requires forall j :: 0 <= j < |keys| ==> keys[j] in counts && counts[keys[j]] == Count(rounded, keys[j])
    ensures primary == Pick(keys, rounded, |keys|).primary
  {
    var maxCount := 0;
    primary := 0;
    var k := 0;
    while k < |keys|
      invariant 0 <= k <= |keys|
      invariant Choice(maxCount, primary) == Pick(keys, rounded, k)
    {
      var count := counts[keys[k]];
      if count > maxCount {
        maxCount := count;
        primary := keys[k];
      }
      k := k + 1;
    }
  }

  /** detectGridOrientation with its loops. */
  method DetectGridOrientationLoop(m: Runtime, samplePoints: seq<LatLng>) returns (angle: int)
    ensures angle == DetectGridOrientation(m, samplePoints)
  {
    if |samplePoints| < 2 {
      return 0;
    }
    var rounded := LegBearingsLoop(m, samplePoints);
    var keys, counts := CountBearings(rounded);
    assert forall j :: 0 <= j < |keys| ==> keys[j] in rounded;
    var primary := PickLoop(keys, counts, rounded);
    angle := primary % 90;
  }

  /** Ascending order. */
  predicate Sorted(s: seq<real>)
  {
    forall i, j :: 0 <= i < j < |s| ==> s[i] <= s[j]
  }

  /** x inserted into a sorted list before the first larger-or-equal element. */
  function Insert(x: real, s: seq<real>): (r: seq<real>)
    ensures |r| == |s| + 1 && multiset(r) == multiset(s) + multiset{x}
    ensures forall y :: y in r ==> y == x || y in s
  {
    if |s| == 0 then [x]
    else if x <= s[0] then [x] + s
    else
      assert s == [s[0]] + s[1..];
      [s[0]] + Insert(x, s[1..])
  }

  lemma {:induction false} InsertSorted(x: real, s: seq<real>)
    requires Sorted(s)
    ensures Sorted(Insert(x, s))
    decreases |s|
  {
    if |s| > 0 && x > s[0] {
      InsertSorted(x, s[1..]);
      var r := Insert(x, s[1..]);
      forall j | 0 <= j < |r|
        ensures s[0] <= r[j]
      {
        assert r[j] in r;
        if r[j] != x {
          var i :| 0 <= i < |s[1..]| && s[1..][i] == r[j];
          assert s[i + 1] == r[j];
        }
      }
      assert Insert(x, s) == [s[0]] + r;
    }
  }

  /** The ascending order of distances.sort((a, b) => a - b), as a value. */
  function SortAscending(s: seq<real>): (r: seq<real>)
    ensures |r| == |s| && multiset(r) == multiset(s)
    decreases |s|
  {
    if |s| == 0 then []
    else
      assert s == [s[0]] + s[1..];
      Insert(s[0], SortAscending(s[1..]))
  }

  lemma {:induction false} SortAscendingSorted(s: seq<real>)
    ensures Sorted(SortAscending(s))
    decreases |s|
  {
    if |s| > 0 {
      SortAscendingSorted(s[1..]);
      InsertSorted(s[0], SortAscending(s[1..]));
    }
  }

  /** The haversine lengths of consecutive legs. */
  function LegDistances(m: Runtime, points: seq<LatLng>): (r: seq<real>)
    requires |points| >= 1
    ensures |r| == |points| - 1
  {
    seq(|points| - 1, i requires 0 <= i < |points| - 1 => m.haversine(points[i], points[i + 1]))
  }

  /** The median leg: the element at index floor(n / 2) of the sorted lengths. */
  function MedianLeg(m: Runtime, points: seq<LatLng>): real
    requires |points| >= 2
  {
    var sorted := SortAscending(LegDistances(m, points));
    sorted[|sorted| / 2]
  }

  /** estimateBlockSize: 100 m below ten points, else the median leg rounded to 50 m. */
  function EstimateBlockSize(m: Runtime, points: seq<LatLng>): real
  {
    if |points| < 10 then DefaultBlockSize else Round(MedianLeg(m, points) / 50.0) as real * 50.0
  }

  /**
   * The median sits in the middle of the sorted leg lengths (no leg before
   * it is longer, none after it shorter) and is itself the length of a leg,
   * so it is not negative.
   */
  lemma MedianIsALeg(m: Runtime, points: seq<LatLng>)
    requires |points| >= 2
    ensures MedianLeg(m, points) in LegDistances(m, points) && MedianLeg(m, points) >= 0.0
    ensures var sorted := SortAscending(LegDistances(m, points));
            Sorted(sorted) && multiset(sorted) == multiset(LegDistances(m, points))
            && sorted[|sorted| / 2] == MedianLeg(m, points)
  {
    var d := LegDistances(m, points);
    var sorted := SortAscending(d);
    SortAscendingSorted(d);
    assert sorted[|sorted| / 2] in multiset(d);
    var i :| 0 <= i < |d| && d[i] == sorted[|sorted| / 2];
    assert d[i] == m.haversine(points[i], points[i + 1]);
  }

  /**
   * With ten or more points the block size is a whole, non-negative number
   * of 50 m steps within 25 m of the median leg.
   */
  lemma EstimateBlockSizeProperties(m: Runtime, points: seq<LatLng>) returns (steps: int)
    requires |points| >= 10
    ensures EstimateBlockSize(m, points) == steps as real * 50.0 && steps >= 0
    ensures Abs(EstimateBlockSize(m, points) - MedianLeg(m, points)) <= 25.0
  {
    MedianIsALeg(m, points);
    steps := RoundToStep(MedianLeg(m, points));
  }

  /** Rounding a non-negative length to the nearest 50 m step. */
  lemma RoundToStep(x: real) returns (steps: int)
    requires x >= 0.0
    ensures Round(x / 50.0) == steps && steps >= 0
    ensures Abs(steps as real * 50.0 - x) <= 25.0
  {
    steps := Round(x / 50.0);
    assert x / 50.0 * 50.0 == x;
  }

  /** The distances forEach of estimateBlockSize: one haversine length per leg. */
  method LegDistancesLoop(m: Runtime, samplePoints: seq<LatLng>) returns (distances: seq<real>)
    requires |samplePoints| >= 1
    ensures distances == LegDistances(m, samplePoints)
  {
    distances := [];
    var i := 1;
    while i < |samplePoints|
      invariant 1 <= i <= |samplePoints|
      invariant |distances| == i - 1
      invariant forall j :: 0 <= j < i - 1 ==> distances[j] == m.haversine(samplePoints[j], samplePoints[j + 1])
    {
      distances := distances + [m.haversine(samplePoints[i - 1], samplePoints[i])];
      i := i + 1;
    }
  }

  /** estimateBlockSize; the in-place sort is taken as a value. */
  method EstimateBlockSizeLoop(m: Runtime, samplePoints: seq<LatLng>) returns (blockSize: real)
    ensures blockSize == EstimateBlockSize(m, samplePoints)
  {
    if |samplePoints| < 10 {
      return 100.0;
    }
    var distances := LegDistancesLoop(m, samplePoints);
    var sorted := SortAscending(distances);
    blockSize := Round(sorted[|sorted| / 2] / 50.0) as real * 50.0;
  }
}
