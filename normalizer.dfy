// src/lib/vectorization/normalizer.ts: bounding box, unit-square
// normalisation, scaling and polyline length of a drawn path.

module Normalizer {
  import opened Types
  import opened Seqs
  import opened Distance

  datatype Bounds = Bounds(
    minX: real, maxX: real, minY: real, maxY: real,
    width: real, height: real, centerX: real, centerY: real)

  /** Euclidean length of the step from a to b. */
  function Distance2D(m: Runtime, a: Point2D, b: Point2D): (d: real)
    ensures d >= 0.0
  {
    m.hypot(b.x - a.x, b.y - a.y)
  }

  /** A step has length 0 exactly when it stays on the same point. */
  lemma Distance2DZero(m: Runtime, a: Point2D, b: Point2D)
    ensures Distance2D(m, a, b) == 0.0 <==> a == b
  {
  }

  /**
   * The extremes over the first n points (n >= 1): the running Math.min /
   * Math.max of the loop in getBounds after n iterations.
   */
  function Extent(points: seq<Point2D>, n: int): (b: Bounds)
    requires 1 <= n <= |points|
    decreases n
  {
    if n == 1 then
      Bounds(points[0].x, points[0].x, points[0].y, points[0].y, 0.0, 0.0, 0.0, 0.0)
    else
      var e := Extent(points, n - 1);
      var p := points[n - 1];
      Bounds(Min(e.minX, p.x), Max(e.maxX, p.x), Min(e.minY, p.y), Max(e.maxY, p.y),
             0.0, 0.0, 0.0, 0.0)
  }

  /** Every one of the first n points lies inside their extent. */
  lemma {:induction false} ExtentContains(points: seq<Point2D>, n: int)
    requires 1 <= n <= |points|
    ensures forall i :: 0 <= i < n ==>
              Extent(points, n).minX <= points[i].x <= Extent(points, n).maxX
              && Extent(points, n).minY <= points[i].y <= Extent(points, n).maxY
    decreases n
  {
    if n > 1 {
      ExtentContains(points, n - 1);
    }
  }

  /** Each side of the extent is the coordinate of one of the first n points. */
  lemma {:induction false} ExtentAttained(points: seq<Point2D>, n: int)
    requires 1 <= n <= |points|
    ensures exists i :: 0 <= i < n && points[i].x == Extent(points, n).minX
    ensures exists i :: 0 <= i < n && points[i].x == Extent(points, n).maxX
    ensures exists i :: 0 <= i < n && points[i].y == Extent(points, n).minY
    ensures exists i :: 0 <= i < n && points[i].y == Extent(points, n).maxY
    decreases n
  {
    if n > 1 {
      ExtentAttained(points, n - 1);
      var e := Extent(points, n - 1);
      var p := points[n - 1];
      var a :| 0 <= a < n - 1 && points[a].x == e.minX;
      var b :| 0 <= b < n - 1 && points[b].x == e.maxX;
      var c :| 0 <= c < n - 1 && points[c].y == e.minY;
      var d :| 0 <= d < n - 1 && points[d].y == e.maxY;
      var k := n - 1;
      assert points[if e.minX <= p.x then a else k].x == Extent(points, n).minX;
      assert points[if e.maxX >= p.x then b else k].x == Extent(points, n).maxX;
      assert points[if e.minY <= p.y then c else k].y == Extent(points, n).minY;
      assert points[if e.maxY >= p.y then d else k].y == Extent(points, n).maxY;
    } else {
      assert points[0].x == Extent(points, n).minX && points[0].x == Extent(points, n).maxX;
      assert points[0].y == Extent(points, n).minY && points[0].y == Extent(points, n).maxY;
    }
  }

  /** The bounding box getBounds returns. */
  function BoundsOf(points: seq<Point2D>): (b: Bounds)
    ensures |points| == 0 ==> b == Bounds(0.0, 0.0, 0.0, 0.0, 0.0, 0.0, 0.0, 0.0)
    ensures b.width == b.maxX - b.minX && b.height == b.maxY - b.minY
    ensures b.centerX == (b.minX + b.maxX) / 2.0 && b.centerY == (b.minY + b.maxY) / 2.0
  {
    if |points| == 0 then Bounds(0.0, 0.0, 0.0, 0.0, 0.0, 0.0, 0.0, 0.0)
    else
      var e := Extent(points, |points|);
      Bounds(e.minX, e.maxX, e.minY, e.maxY, e.maxX - e.minX, e.maxY - e.minY,
             (e.minX + e.maxX) / 2.0, (e.minY + e.maxY) / 2.0)
  }

  /**
   * The bounding box contains every point, each of its sides is attained by
   * some point, and its width and height are non-negative.
   */
  lemma BoundsTight(points: seq<Point2D>)
    requires |points| > 0
    ensures var b := BoundsOf(points);
            (forall i :: 0 <= i < |points| ==>
               b.minX <= points[i].x <= b.maxX && b.minY <= points[i].y <= b.maxY)
            && (exists i :: 0 <= i < |points| && points[i].x == b.minX)
            && (exists i :: 0 <= i < |points| && points[i].x == b.maxX)
            && (exists i :: 0 <= i < |points| && points[i].y == b.minY)
            && (exists i :: 0 <= i < |points| && points[i].y == b.maxY)
            && b.width >= 0.0 && b.height >= 0.0
  {
    ExtentContains(points, |points|);
    ExtentAttained(points, |points|);
    assert 0 <= 0 < |points|;
  }

  /** getBounds, with its min/max accumulation loop. */
  method GetBounds(points: seq<Point2D>) returns (b: Bounds)
    ensures b == BoundsOf(points)
  {
    if |points| == 0 {
      return Bounds(0.0, 0.0, 0.0, 0.0, 0.0, 0.0, 0.0, 0.0);
    }
    // The first iteration of the loop replaces the infinite initial values
    // by the coordinates of points[0].
    var minX, maxX, minY, maxY := points[0].x, points[0].x, points[0].y, points[0].y;
    var i := 1;
    while i < |points|
      invariant 1 <= i <= |points|
      invariant Extent(points, i).minX == minX && Extent(points, i).maxX == maxX
      invariant Extent(points, i).minY == minY && Extent(points, i).maxY == maxY
    {
      minX := Min(minX, points[i].x);
      maxX := Max(maxX, points[i].x);
      minY := Min(minY, points[i].y);
      maxY := Max(maxY, points[i].y);
      i := i + 1;
    }
    b := Bounds(minX, maxX, minY, maxY, maxX - minX, maxY - minY,
                (minX + maxX) / 2.0, (minY + maxY) / 2.0);
  }

  /** normalizePath: translate to the origin and scale into the unit square. */
  function NormalizePath(points: seq<Point2D>): (r: seq<Point2D>)
    ensures |r| == |points|
  {
    if |points| == 0 then []
    else
      var b := BoundsOf(points);
      if b.width == 0.0 || b.height == 0.0 then
        seq(|points|, i => Point2D(0.5, 0.5))
      else
        var scale := 1.0 / Max(b.width, b.height);
        seq(|points|, i requires 0 <= i < |points| => Rescale(points[i], b.minX, b.minY, scale))
  }

  /** One point of normalizePath: moved by (-minX, -minY), then scaled. */
  function Rescale(p: Point2D, minX: real, minY: real, scale: real): Point2D
  {
    Point2D((p.x - minX) * scale, (p.y - minY) * scale)
  }

  predicate Degenerate(points: seq<Point2D>)
  {
    BoundsOf(points).width == 0.0 || BoundsOf(points).height == 0.0
  }

  /** A path without width or without height collapses onto (0.5, 0.5). */
  lemma NormalizeDegenerate(points: seq<Point2D>)
    requires Degenerate(points)
    ensures forall i :: 0 <= i < |points| ==> NormalizePath(points)[i] == Point2D(0.5, 0.5)
  {
  }

  /**
   * Normalisation keeps shape: every difference between two output points is
   * the input difference divided by the longer side of the bounding box.
   */
  lemma NormalizePreservesAspectRatio(points: seq<Point2D>, i: int, j: int)
    requires !Degenerate(points)
    requires 0 <= i < |points| && 0 <= j < |points|
    ensures var b := BoundsOf(points);
            var r := NormalizePath(points);
            r[i].x - r[j].x == (points[i].x - points[j].x) / Max(b.width, b.height)
            && r[i].y - r[j].y == (points[i].y - points[j].y) / Max(b.width, b.height)
  {
    var b := BoundsOf(points);
    var s := Max(b.width, b.height);
    NormalizeAt(points, i);
    NormalizeAt(points, j);
    DivideDifference(points[i].x, points[j].x, b.minX, s);
    DivideDifference(points[i].y, points[j].y, b.minY, s);
  }

  lemma DivideDifference(u: real, v: real, lo: real, s: real)
    requires s != 0.0
    ensures (u - lo) / s - (v - lo) / s == (u - v) / s
  {
  }

  lemma ScaleIntoUnit(v: real, lo: real, side: real, s: real)
    requires lo <= v <= lo + side && 0.0 < side <= s
    ensures 0.0 <= (v - lo) * (1.0 / s) <= 1.0
  {
    assert (v - lo) * (1.0 / s) == (v - lo) / s;
    assert (v - lo) / s <= side / s;
    assert side / s <= 1.0;
  }

  /** A point inside a box with positive sides lands in the unit square. */
  lemma RescaleIntoUnit(p: Point2D, b: Bounds)
    requires b.minX <= p.x <= b.maxX && b.minY <= p.y <= b.maxY
    requires b.width == b.maxX - b.minX > 0.0 && b.height == b.maxY - b.minY > 0.0
    ensures var q := Rescale(p, b.minX, b.minY, 1.0 / Max(b.width, b.height));
            0.0 <= q.x <= 1.0 && 0.0 <= q.y <= 1.0
  {
    var s := Max(b.width, b.height);
    ScaleIntoUnit(p.x, b.minX, b.width, s);
    ScaleIntoUnit(p.y, b.minY, b.height, s);
  }

  /** A non-degenerate path lands in the unit square. */
  lemma NormalizeInUnitSquare(points: seq<Point2D>)
    requires !Degenerate(points)
    ensures var r := NormalizePath(points);
            forall i :: 0 <= i < |r| ==> 0.0 <= r[i].x <= 1.0 && 0.0 <= r[i].y <= 1.0
  {
    if |points| > 0 {
      BoundsTight(points);
      var b := BoundsOf(points);
      var s := Max(b.width, b.height);
      var r := NormalizePath(points);
      forall i | 0 <= i < |r|
        ensures 0.0 <= r[i].x <= 1.0 && 0.0 <= r[i].y <= 1.0
      {
        assert r[i] == Rescale(points[i], b.minX, b.minY, 1.0 / s);
        RescaleIntoUnit(points[i], b);
      }
    }
  }

  /** Whatever the path, every normalized point lies in the unit square. */
  lemma NormalizeWithinUnitSquare(points: seq<Point2D>)
    ensures var r := NormalizePath(points);
            forall i :: 0 <= i < |r| ==> 0.0 <= r[i].x <= 1.0 && 0.0 <= r[i].y <= 1.0
  {
    if Degenerate(points) {
      NormalizeDegenerate(points);
    } else {
      NormalizeInUnitSquare(points);
    }
  }

  /** The i-th normalized point of a non-degenerate path. */
  lemma NormalizeAt(points: seq<Point2D>, i: int)
    requires !Degenerate(points) && 0 <= i < |points|
    ensures var b := BoundsOf(points);
            Max(b.width, b.height) != 0.0
            && NormalizePath(points)[i]
               == Point2D((points[i].x - b.minX) / Max(b.width, b.height),
                          (points[i].y - b.minY) / Max(b.width, b.height))
  {
    var b := BoundsOf(points);
    var s := Max(b.width, b.height);
    assert NormalizePath(points)[i] == Rescale(points[i], b.minX, b.minY, 1.0 / s);
    RescaleDivides(points[i], b.minX, b.minY, s);
  }

  lemma RescaleDivides(p: Point2D, minX: real, minY: real, s: real)
    requires s != 0.0
    ensures Rescale(p, minX, minY, 1.0 / s) == Point2D((p.x - minX) / s, (p.y - minY) / s)
  {
    assert (p.x - minX) * (1.0 / s) == (p.x - minX) / s;
    assert (p.y - minY) * (1.0 / s) == (p.y - minY) / s;
  }

  /**
   * The smallest x and the smallest y become 0, and the longer side of the
   * bounding box spans exactly [0, 1].
   */
  lemma DivideSelf(a: real)
    requires a != 0.0
    ensures a / a == 1.0 && 0.0 / a == 0.0
  {
  }

  lemma NormalizeTouchesUnitSides(points: seq<Point2D>)
    requires |points| > 0 && !Degenerate(points)
    ensures exists i :: 0 <= i < |points| && NormalizePath(points)[i].x == 0.0
    ensures exists i :: 0 <= i < |points| && NormalizePath(points)[i].y == 0.0
    ensures exists i :: 0 <= i < |points|
              && (NormalizePath(points)[i].x == 1.0 || NormalizePath(points)[i].y == 1.0)
  {
    ExtentAttained(points, |points|);
    var b := BoundsOf(points);
    var s := Max(b.width, b.height);
    var ix :| 0 <= ix < |points| && points[ix].x == b.minX;
    NormalizeAt(points, ix);
    DivideSelf(s);
    assert points[ix].x - b.minX == 0.0;
    var iy :| 0 <= iy < |points| && points[iy].y == b.minY;
    NormalizeAt(points, iy);
    assert points[iy].y - b.minY == 0.0;
    if b.width >= b.height {
      var k :| 0 <= k < |points| && points[k].x == b.maxX;
      NormalizeAt(points, k);
      assert points[k].x - b.minX == s;
      assert NormalizePath(points)[k].x == 1.0;
    } else {
      var k :| 0 <= k < |points| && points[k].y == b.maxY;
      NormalizeAt(points, k);
      assert points[k].y - b.minY == s;
      assert NormalizePath(points)[k].y == 1.0;
    }
  }

  /** scaleNormalizedPath: stretch x by targetWidth and y by targetHeight. */
  function ScaleNormalizedPath(points: seq<Point2D>, targetWidth: real, targetHeight: real): (r: seq<Point2D>)
    ensures |r| == |points|
  {
    seq(|points|, i requires 0 <= i < |points| =>
      Point2D(points[i].x * targetWidth, points[i].y * targetHeight))
  }

  /** Scaling by non-zero targets is undone by scaling with their reciprocals. */
  lemma ScaleNormalizedPathInverse(points: seq<Point2D>, w: real, h: real)
    requires w != 0.0 && h != 0.0
    ensures ScaleNormalizedPath(ScaleNormalizedPath(points, w, h), 1.0 / w, 1.0 / h) == points
  {
    var r := ScaleNormalizedPath(ScaleNormalizedPath(points, w, h), 1.0 / w, 1.0 / h);
    forall i | 0 <= i < |points|
      ensures r[i] == points[i]
    {
      assert points[i].x * w * (1.0 / w) == points[i].x;
      assert points[i].y * h * (1.0 / h) == points[i].y;
    }
  }

  /** Polyline length of the first n points. */
  function PathLength(m: Runtime, points: seq<Point2D>, n: int): (r: real)
    requires 0 <= n <= |points|
    ensures r >= 0.0
    ensures n < 2 ==> r == 0.0
    decreases n
  {
    if n < 2 then 0.0
    else PathLength(m, points, n - 1) + Distance2D(m, points[n - 2], points[n - 1])
  }

  /** A path has length 0 exactly when it stays on one point. */
  lemma {:induction false} PathLengthZero(m: Runtime, points: seq<Point2D>, n: int)
    requires 1 <= n <= |points|
    ensures PathLength(m, points, n) == 0.0 <==> forall i :: 0 <= i < n ==> points[i] == points[0]
    decreases n
  {
    if n > 1 {
      PathLengthZero(m, points, n - 1);
      Distance2DZero(m, points[n - 2], points[n - 1]);
    }
  }

  /** calculatePathLength, with its accumulation loop. */
  method CalculatePathLength(m: Runtime, points: seq<Point2D>) returns (length: real)
    ensures length == PathLength(m, points, |points|)
  {
    if |points| < 2 {
      return 0.0;
    }
    length := 0.0;
    var i := 1;
    while i < |points|
      invariant 1 <= i <= |points|
      invariant length == PathLength(m, points, i)
    {
      var dx := points[i].x - points[i - 1].x;
      var dy := points[i].y - points[i - 1].y;
      length := length + m.hypot(dx, dy);
      i := i + 1;
    }
  }
}
