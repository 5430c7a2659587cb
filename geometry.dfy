// src/lib/utils/geometry.ts: bounds and centroids of point sets,
// interpolation, translation and scaling, polygon area and closedness.

module Geometry {
  import opened Types
  import opened Seqs
  import opened Distance
  import opened Normalizer

  /** The box getGeoBounds returns. */
  datatype GeoBounds = GeoBounds(north: real, south: real, east: real, west: real, center: LatLng)

  /**
   * The running extremes over the first n points (n >= 1): the values of
   * north, south, east and west after n iterations. The first iteration
   * replaces the infinite initial values by the first point's coordinates.
   */
  function GeoExtent(points: seq<LatLng>, n: int): (b: GeoBounds)
    requires 1 <= n <= |points|
    decreases n
  {
    if n == 1 then GeoBounds(points[0].lat, points[0].lat, points[0].lng, points[0].lng, LatLng(0.0, 0.0))
    else
      var e := GeoExtent(points, n - 1);
      var p := points[n - 1];
      GeoBounds(Max(e.north, p.lat), Min(e.south, p.lat), Max(e.east, p.lng), Min(e.west, p.lng),
                LatLng(0.0, 0.0))
  }

  /** getGeoBounds. */
  function GeoBoundsOf(points: seq<LatLng>): (b: GeoBounds)
    ensures |points| == 0 ==> b == GeoBounds(0.0, 0.0, 0.0, 0.0, LatLng(0.0, 0.0))
    ensures b.center == LatLng((b.north + b.south) / 2.0, (b.east + b.west) / 2.0)
  {
    if |points| == 0 then GeoBounds(0.0, 0.0, 0.0, 0.0, LatLng(0.0, 0.0))
    else
      var e := GeoExtent(points, |points|);
      GeoBounds(e.north, e.south, e.east, e.west,
                LatLng((e.north + e.south) / 2.0, (e.east + e.west) / 2.0))
  }

  lemma {:induction false} GeoExtentContains(points: seq<LatLng>, n: int)
    requires 1 <= n <= |points|
    ensures forall i :: 0 <= i < n ==>
              GeoExtent(points, n).south <= points[i].lat <= GeoExtent(points, n).north
              && GeoExtent(points, n).west <= points[i].lng <= GeoExtent(points, n).east
    decreases n
  {
    if n > 1 {
      GeoExtentContains(points, n - 1);
    }
  }

  lemma {:induction false} GeoExtentAttained(points: seq<LatLng>, n: int)
    requires 1 <= n <= |points|
    ensures exists i :: 0 <= i < n && points[i].lat == GeoExtent(points, n).north
    ensures exists i :: 0 <= i < n && points[i].lat == GeoExtent(points, n).south
    ensures exists i :: 0 <= i < n && points[i].lng == GeoExtent(points, n).east
    ensures exists i :: 0 <= i < n && points[i].lng == GeoExtent(points, n).west
    decreases n
  {
    if n > 1 {
      GeoExtentAttained(points, n - 1);
      var e := GeoExtent(points, n - 1);
      var p := points[n - 1];
      var a :| 0 <= a < n - 1 && points[a].lat == e.north;
      var b :| 0 <= b < n - 1 && points[b].lat == e.south;
      var c :| 0 <= c < n - 1 && points[c].lng == e.east;
      var d :| 0 <= d < n - 1 && points[d].lng == e.west;
      var k := n - 1;
      assert points[if e.north >= p.lat then a else k].lat == GeoExtent(points, n).north;
      assert points[if e.south <= p.lat then b else k].lat == GeoExtent(points, n).south;
      assert points[if e.east >= p.lng then c else k].lng == GeoExtent(points, n).east;
      assert points[if e.west <= p.lng then d else k].lng == GeoExtent(points, n).west;
    } else {
      assert points[0].lat == GeoExtent(points, n).north && points[0].lat == GeoExtent(points, n).south;
      assert points[0].lng == GeoExtent(points, n).east && points[0].lng == GeoExtent(points, n).west;
    }
  }

  /**
   * For a non-empty set the box contains every point, each side is the
   * coordinate of some point, and the centre lies inside the box.
   */
  lemma GeoBoundsTight(points: seq<LatLng>)
    requires |points| > 0
    ensures var b := GeoBoundsOf(points);
            (forall i :: 0 <= i < |points| ==>
               b.south <= points[i].lat <= b.north && b.west <= points[i].lng <= b.east)
            && (exists i :: 0 <= i < |points| && points[i].lat == b.north)
            && (exists i :: 0 <= i < |points| && points[i].lat == b.south)
            && (exists i :: 0 <= i < |points| && points[i].lng == b.east)
            && (exists i :: 0 <= i < |points| && points[i].lng == b.west)
            && b.south <= b.center.lat <= b.north && b.west <= b.center.lng <= b.east
  {
    GeoExtentContains(points, |points|);
    GeoExtentAttained(points, |points|);
    assert 0 <= 0 < |points|;
  }

  /** getGeoBounds, with its min/max loop. */
  method GetGeoBounds(points: seq<LatLng>) returns (b: GeoBounds)
    ensures b == GeoBoundsOf(points)
  {
    if |points| == 0 {
      return GeoBounds(0.0, 0.0, 0.0, 0.0, LatLng(0.0, 0.0));
    }
    var north, south, east, west := points[0].lat, points[0].lat, points[0].lng, points[0].lng;
    var i := 1;
    while i < |points|
      invariant 1 <= i <= |points|
      invariant GeoExtent(points, i).north == north && GeoExtent(points, i).south == south
      invariant GeoExtent(points, i).east == east && GeoExtent(points, i).west == west
    {
      north := Max(north, points[i].lat);
      south := Min(south, points[i].lat);
      east := Max(east, points[i].lng);
      west := Min(west, points[i].lng);
      i := i + 1;
    }
    b := GeoBounds(north, south, east, west, LatLng((north + south) / 2.0, (east + west) / 2.0));
  }

  /** Sum of the x (resp. y) coordinates of the first n points. */
  function SumX(points: seq<Point2D>, n: int): real
    requires 0 <= n <= |points|
    decreases n
  {
    if n == 0 then 0.0 else SumX(points, n - 1) + points[n - 1].x
  }

  function SumY(points: seq<Point2D>, n: int): real
    requires 0 <= n <= |points|
    decreases n
  {
    if n == 0 then 0.0 else SumY(points, n - 1) + points[n - 1].y
  }

  /** calculateCentroid: the origin for no points, otherwise the mean point. */
  function Centroid(points: seq<Point2D>): (c: Point2D)
    ensures |points| == 0 ==> c == Point2D(0.0, 0.0)
    ensures |points| > 0 ==>
              c.x * |points| as real == SumX(points, |points|) && c.y * |points| as real == SumY(points, |points|)
  {
    if |points| == 0 then Point2D(0.0, 0.0)
    else Point2D(SumX(points, |points|) / |points| as real, SumY(points, |points|) / |points| as real)
  }

  /** calculateCentroid with its summing loop. */
  method CalculateCentroid(points: seq<Point2D>) returns (c: Point2D)
    ensures c == Centroid(points)
  {
    if |points| == 0 {
      return Point2D(0.0, 0.0);
    }
    var sumX, sumY := 0.0, 0.0;
    var i := 0;
    while i < |points|
      invariant 0 <= i <= |points|
      invariant sumX == SumX(points, i) && sumY == SumY(points, i)
    {
      sumX := sumX + points[i].x;
      sumY := sumY + points[i].y;
      i := i + 1;
    }
    c := Point2D(sumX / |points| as real, sumY / |points| as real);
  }

  /** The centroid of n copies of one point is that point. */
  lemma {:induction false} SumOfConstant(points: seq<Point2D>, p: Point2D, n: int)
    requires 0 <= n <= |points|
    requires forall i :: 0 <= i < |points| ==> points[i] == p
    ensures SumX(points, n) == n as real * p.x && SumY(points, n) == n as real * p.y
    decreases n
  {
    if n > 0 {
      SumOfConstant(points, p, n - 1);
    }
  }

  lemma CentroidOfConstant(points: seq<Point2D>, p: Point2D)
    requires |points| > 0
    requires forall i :: 0 <= i < |points| ==> points[i] == p
    ensures Centroid(points) == p
  {
    SumOfConstant(points, p, |points|);
  }

  /** Sum of the latitudes (resp. longitudes) of the first n points. */
  function SumLat(points: seq<LatLng>, n: int): real
    requires 0 <= n <= |points|
    decreases n
  {
    if n == 0 then 0.0 else SumLat(points, n - 1) + points[n - 1].lat
  }

  function SumLng(points: seq<LatLng>, n: int): real
    requires 0 <= n <= |points|
    decreases n
  {
    if n == 0 then 0.0 else SumLng(points, n - 1) + points[n - 1].lng
  }

  /** calculateGeoCentroid: (0, 0) for no points, otherwise the component-wise mean. */
  function GeoCentroid(points: seq<LatLng>): (c: LatLng)
    ensures |points| == 0 ==> c == LatLng(0.0, 0.0)
    ensures |points| > 0 ==>
              c.lat * |points| as real == SumLat(points, |points|) && c.lng * |points| as real == SumLng(points, |points|)
  {
    if |points| == 0 then LatLng(0.0, 0.0)
    else LatLng(SumLat(points, |points|) / |points| as real, SumLng(points, |points|) / |points| as real)
  }

  /** calculateGeoCentroid with its summing loop. */
  method CalculateGeoCentroid(points: seq<LatLng>) returns (c: LatLng)
    ensures c == GeoCentroid(points)
  {
    if |points| == 0 {
      return LatLng(0.0, 0.0);
    }
    var sumLat, sumLng := 0.0, 0.0;
    var i := 0;
    while i < |points|
      invariant 0 <= i <= |points|
      invariant sumLat == SumLat(points, i) && sumLng == SumLng(points, i)
    {
      sumLat := sumLat + points[i].lat;
      sumLng := sumLng + points[i].lng;
      i := i + 1;
    }
    c := LatLng(sumLat / |points| as real, sumLng / |points| as real);
  }

  /** A sum of n latitudes (resp. longitudes) between lo and hi lies between n * lo and n * hi. */
  lemma {:induction false} SumLatBetween(points: seq<LatLng>, n: int, lo: real, hi: real)
    requires 0 <= n <= |points|
    requires forall i :: 0 <= i < |points| ==> lo <= points[i].lat <= hi
    ensures n as real * lo <= SumLat(points, n) <= n as real * hi
    decreases n
  {
    if n > 0 {
      SumLatBetween(points, n - 1, lo, hi);
      MulSucc((n - 1) as real, lo);
      MulSucc((n - 1) as real, hi);
    }
  }

  lemma {:induction false} SumLngBetween(points: seq<LatLng>, n: int, lo: real, hi: real)
    requires 0 <= n <= |points|
    requires forall i :: 0 <= i < |points| ==> lo <= points[i].lng <= hi
    ensures n as real * lo <= SumLng(points, n) <= n as real * hi
    decreases n
  {
    if n > 0 {
      SumLngBetween(points, n - 1, lo, hi);
      MulSucc((n - 1) as real, lo);
      MulSucc((n - 1) as real, hi);
    }
  }

  lemma MulSucc(k: real, x: real)
    ensures (k + 1.0) * x == k * x + x
  {
  }

  /** A mean of values between lo and hi lies between lo and hi. */
  lemma MeanBetween(mean: real, s: real, n: real, lo: real, hi: real)
    requires n > 0.0 && mean * n == s && n * lo <= s <= n * hi
    ensures lo <= mean <= hi
  {
  }

  /** Latitudes between lo and hi have their mean between lo and hi (resp. longitudes). */
  lemma CentroidLatBetween(points: seq<LatLng>, lo: real, hi: real)
    requires |points| > 0
    requires forall i :: 0 <= i < |points| ==> lo <= points[i].lat <= hi
    ensures lo <= GeoCentroid(points).lat <= hi
  {
    SumLatBetween(points, |points|, lo, hi);
    MeanBetween(GeoCentroid(points).lat, SumLat(points, |points|), |points| as real, lo, hi);
  }

  lemma CentroidLngBetween(points: seq<LatLng>, lo: real, hi: real)
    requires |points| > 0
    requires forall i :: 0 <= i < |points| ==> lo <= points[i].lng <= hi
    ensures lo <= GeoCentroid(points).lng <= hi
  {
    SumLngBetween(points, |points|, lo, hi);
    MeanBetween(GeoCentroid(points).lng, SumLng(points, |points|), |points| as real, lo, hi);
  }

  /** The centroid of a non-empty set lies inside its getGeoBounds box. */
  lemma GeoCentroidInBounds(points: seq<LatLng>)
    requires |points| > 0
    ensures var b := GeoBoundsOf(points);
            var c := GeoCentroid(points);
            b.south <= c.lat <= b.north && b.west <= c.lng <= b.east
  {
    var e := GeoExtent(points, |points|);
    GeoExtentContains(points, |points|);
    CentroidLatBetween(points, e.south, e.north);
    CentroidLngBetween(points, e.west, e.east);
  }

  /** The geographic centroid of n copies of one point is that point. */
  lemma GeoCentroidOfConstant(points: seq<LatLng>, p: LatLng)
    requires |points| > 0
    requires forall i :: 0 <= i < |points| ==> points[i] == p
    ensures GeoCentroid(points) == p
  {
    CentroidLatBetween(points, p.lat, p.lat);
    CentroidLngBetween(points, p.lng, p.lng);
  }

  /** translatePoints: every point moved by offset. */
  function TranslatePoints(points: seq<Point2D>, offset: Point2D): (r: seq<Point2D>)
    ensures |r| == |points|
  {
    seq(|points|, i requires 0 <= i < |points| => Point2D(points[i].x + offset.x, points[i].y + offset.y))
  }

  /** scalePoints: every coordinate multiplied by scale. */
  function ScalePoints(points: seq<Point2D>, scale: real): (r: seq<Point2D>)
    ensures |r| == |points|
  {
    seq(|points|, i requires 0 <= i < |points| => Point2D(points[i].x * scale, points[i].y * scale))
  }

  /** Translating by (0, 0) and scaling by 1 change nothing. */
  lemma TransformIdentities(points: seq<Point2D>)
    ensures TranslatePoints(points, Point2D(0.0, 0.0)) == points
    ensures ScalePoints(points, 1.0) == points
  {
  }

  /** Translating by an offset and then by its opposite gives the points back. */
  lemma TranslateInverse(points: seq<Point2D>, offset: Point2D)
    ensures TranslatePoints(TranslatePoints(points, offset), Point2D(-offset.x, -offset.y)) == points
  {
  }

  /** Translating moves the centroid of a non-empty set by the same offset. */
  lemma {:induction false} TranslateSums(points: seq<Point2D>, offset: Point2D, n: int)
    requires 0 <= n <= |points|
    ensures SumX(TranslatePoints(points, offset), n) == SumX(points, n) + n as real * offset.x
    ensures SumY(TranslatePoints(points, offset), n) == SumY(points, n) + n as real * offset.y
    decreases n
  {
    if n > 0 {
      TranslateSums(points, offset, n - 1);
    }
  }

  lemma TranslateCentroid(points: seq<Point2D>, offset: Point2D)
    requires |points| > 0
    ensures Centroid(TranslatePoints(points, offset))
            == Point2D(Centroid(points).x + offset.x, Centroid(points).y + offset.y)
  {
    var t := TranslatePoints(points, offset);
    var n := |points| as real;
    TranslateSums(points, offset, |points|);
    var sx, sy := SumX(points, |points|), SumY(points, |points|);
    CentroidOfSums(points, sx, sy);
    CentroidOfSums(t, sx + n * offset.x, sy + n * offset.y);
    DivideSum(sx, n * offset.x, n, offset.x);
    DivideSum(sy, n * offset.y, n, offset.y);
  }

  lemma CentroidOfSums(points: seq<Point2D>, sx: real, sy: real)
    requires |points| > 0 && SumX(points, |points|) == sx && SumY(points, |points|) == sy
    ensures Centroid(points) == Point2D(sx / |points| as real, sy / |points| as real)
  {
  }

  lemma DivideSum(s: real, t: real, n: real, o: real)
    requires n > 0.0 && t == n * o
    ensures (s + t) / n == s / n + o
  {
  }

  /** interpolate: the point at parameter t on the way from p1 to p2. */
  function Interpolate(p1: Point2D, p2: Point2D, t: real): Point2D
  {
    Point2D(p1.x + (p2.x - p1.x) * t, p1.y + (p2.y - p1.y) * t)
  }

  /** Parameter 0 gives the start, 1 the end and 1/2 the midpoint. */
  lemma InterpolateEnds(p1: Point2D, p2: Point2D)
    ensures Interpolate(p1, p2, 0.0) == p1 && Interpolate(p1, p2, 1.0) == p2
    ensures Interpolate(p1, p2, 0.5) == Point2D((p1.x + p2.x) / 2.0, (p1.y + p2.y) / 2.0)
  {
  }

  /** The shoelace term of the edge from point i to point (i + 1) mod |points|. */
  /** The cross product term a.x * b.y - b.x * a.y of one edge from a to b. */
  function Cross(a: Point2D, b: Point2D): real
  {
    a.x * b.y - b.x * a.y
  }

  function ShoelaceTerm(points: seq<Point2D>, i: int): real
    requires 0 <= i < |points|
  {
    Cross(points[i], points[(i + 1) % |points|])
  }

  /** The running value of `area` after the first n edges. */
  function ShoelaceSum(points: seq<Point2D>, n: int): real
    requires 0 <= n <= |points|
    decreases n
  {
    if n == 0 then 0.0 else ShoelaceSum(points, n - 1) + ShoelaceTerm(points, n - 1)
  }

  /** calculatePolygonArea: the shoelace area, 0 for fewer than 3 points. */
  function PolygonArea(points: seq<Point2D>): (a: real)
    ensures a >= 0.0
    ensures |points| < 3 ==> a == 0.0
  {
    if |points| < 3 then 0.0 else Abs(ShoelaceSum(points, |points|) / 2.0)
  }

  /** calculatePolygonArea with its accumulation loop. */
  method CalculatePolygonArea(points: seq<Point2D>) returns (a: real)
    ensures a == PolygonArea(points)
  {
    if |points| < 3 {
      return 0.0;
    }
    var area := 0.0;
    var i := 0;
    while i < |points|
      invariant 0 <= i <= |points|
      invariant area == ShoelaceSum(points, i)
    {
      var j := (i + 1) % |points|;
      area := area + points[i].x * points[j].y;
      area := area - points[j].x * points[i].y;
      i := i + 1;
    }
    a := Abs(area / 2.0);
  }

  /** Each shoelace term scales with the square of the factor. */
  lemma ScaledTerm(points: seq<Point2D>, s: real, i: int)
    requires 0 <= i < |points|
    ensures ShoelaceTerm(ScalePoints(points, s), i) == Times(s * s, ShoelaceTerm(points, i))
  {
    var q := ScalePoints(points, s);
    var j := (i + 1) % |points|;
    assert q[i] == Point2D(points[i].x * s, points[i].y * s);
    assert q[j] == Point2D(points[j].x * s, points[j].y * s);
    Product4(points[i].x, points[j].y, s);
    Product4(points[j].x, points[i].y, s);
  }

  lemma Product4(a: real, b: real, s: real)
    ensures (a * s) * (b * s) == s * s * (a * b)
  {
    calc {
      (a * s) * (b * s);
      a * (s * (b * s));
      a * ((s * b) * s);
      a * ((b * s) * s);
      a * (b * (s * s));
      (a * b) * (s * s);
      s * s * (a * b);
    }
  }

  lemma MulZero(k: real)
    ensures Times(k, 0.0) == 0.0
  {
  }

  /** One step of a sum whose terms are all scaled by k. */
  lemma ScaleStep(sum: real, prev: real, term: real, sum0: real, prev0: real, term0: real, k: real)
    requires sum == prev + term && sum0 == prev0 + term0
    requires prev == Times(k, prev0) && term == Times(k, term0)
    ensures sum == Times(k, sum0)
  {
  }

  lemma {:induction false} ScaledSum(points: seq<Point2D>, s: real, n: int)
    requires 0 <= n <= |points|
    ensures ShoelaceSum(ScalePoints(points, s), n) == Times(s * s, ShoelaceSum(points, n))
    decreases n
  {
    if n > 0 {
      ScaledSum(points, s, n - 1);
      ScaledTerm(points, s, n - 1);
      ScaleStep(ShoelaceSum(ScalePoints(points, s), n), ShoelaceSum(ScalePoints(points, s), n - 1),
                ShoelaceTerm(ScalePoints(points, s), n - 1),
                ShoelaceSum(points, n), ShoelaceSum(points, n - 1), ShoelaceTerm(points, n - 1), s * s);
    } else {
      MulZero(s * s);
    }
  }

  /** Scaling a polygon by s multiplies its area by s squared. */
  lemma ScaledArea(points: seq<Point2D>, s: real)
    ensures PolygonArea(ScalePoints(points, s)) == s * s * PolygonArea(points)
  {
    if |points| >= 3 {
      ScaledSum(points, s, |points|);
      AbsScaled(ShoelaceSum(points, |points|) / 2.0, s * s);
    }
  }

  lemma AbsScaled(x: real, k: real)
    requires k >= 0.0
    ensures Abs(k * x) == k * Abs(x)
  {
  }

  /** isPathClosed: at least two points, and the ends closer than tolerance. */
  predicate IsPathClosed(m: Runtime, points: seq<Point2D>, tolerance: real)
  {
    |points| >= 2 && Distance2D(m, Last(points), points[0]) < tolerance
  }

  /**
   * With a positive tolerance, a path of at least two points whose last point
   * repeats the first is closed; with a tolerance of 0 or less no path is.
   */
  lemma ClosedPaths(m: Runtime, points: seq<Point2D>, tolerance: real)
    ensures tolerance > 0.0 && |points| >= 2 && points[0] == Last(points) ==> IsPathClosed(m, points, tolerance)
    ensures tolerance <= 0.0 ==> !IsPathClosed(m, points, tolerance)
  {
    if |points| >= 2 {
      Distance2DZero(m, Last(points), points[0]);
    }
  }
}
