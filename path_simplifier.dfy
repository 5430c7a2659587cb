// src/lib/vectorization/pathSimplifier.ts: Ramer-Douglas-Peucker
// simplification, the bisection on its tolerance that aims at a point count,
// and the removal of consecutive near-duplicate points.

module PathSimplifier {
  import opened Types
  import opened Seqs
  import opened Distance
  import opened Normalizer

  /**
   * perpendicularDistance: distance from point to the line through lineStart
   * and lineEnd, or to lineStart when the chord has length zero.
   */
  function PerpendicularDistance(m: Runtime, point: Point2D, lineStart: Point2D, lineEnd: Point2D): (d: real)
    ensures d >= 0.0
    ensures lineStart == lineEnd ==> d == Distance2D(m, lineStart, point)
  {
    var dx := lineEnd.x - lineStart.x;
    var dy := lineEnd.y - lineStart.y;
    if dx == 0.0 && dy == 0.0 then
      m.hypot(point.x - lineStart.x, point.y - lineStart.y)
    else
      var numerator := Abs(dy * point.x - dx * point.y + lineEnd.x * lineStart.y - lineEnd.y * lineStart.x);
      var denominator := m.hypot(dx, dy);
      numerator / denominator
  }

  /** Both ends of a chord lie on its line. */
  lemma ChordEndsOnLine(m: Runtime, lineStart: Point2D, lineEnd: Point2D)
    ensures PerpendicularDistance(m, lineStart, lineStart, lineEnd) == 0.0
    ensures PerpendicularDistance(m, lineEnd, lineStart, lineEnd) == 0.0
  {
    var s, e := lineStart, lineEnd;
    assert (e.y - s.y) * s.x - (e.x - s.x) * s.y + e.x * s.y - e.y * s.x == 0.0;
    assert (e.y - s.y) * e.x - (e.x - s.x) * e.y + e.x * s.y - e.y * s.x == 0.0;
  }

  /** Result of the argmax loop of simplifyPath: its maxDistance and maxIndex. */
  datatype Farthest = Farthest(distance: real, index: int)

  /**
   * The argmax loop after scanning the indices 1 .. n-1 against the chord
   * from start to end (strict comparison: the earliest farthest point wins).
   */
  function FarthestAmong(m: Runtime, points: seq<Point2D>, start: Point2D, end: Point2D, n: int): (f: Farthest)
    requires 1 <= n <= |points|
    ensures f.distance >= 0.0
    ensures f.index == 0 || 1 <= f.index < n
    ensures f.index == 0 ==> f.distance == 0.0
    decreases n
  {
    if n == 1 then Farthest(0.0, 0)
    else
      var f := FarthestAmong(m, points, start, end, n - 1);
      var d := PerpendicularDistance(m, points[n - 1], start, end);
      if d > f.distance then Farthest(d, n - 1) else f
  }

  /**
   * The argmax is a true maximum: its distance is attained by the point it
   * names and bounds the distance of every scanned interior point.
   */
  lemma {:induction false} FarthestIsMaximum(m: Runtime, points: seq<Point2D>, start: Point2D, end: Point2D, n: int)
    requires 1 <= n <= |points|
    ensures var f := FarthestAmong(m, points, start, end, n);
            (f.index != 0 ==> f.distance == PerpendicularDistance(m, points[f.index], start, end))
            && (forall i :: 1 <= i < n ==> PerpendicularDistance(m, points[i], start, end) <= f.distance)
    decreases n
  {
    if n > 1 {
      FarthestIsMaximum(m, points, start, end, n - 1);
    }
  }

  /**
   * simplifyPath as a recursive definition. The result of a path of at least
   * two points has at least two points and is never longer than the path.
   */
  function Simplify(m: Runtime, points: seq<Point2D>, tolerance: real): (r: seq<Point2D>)
    requires tolerance >= 0.0
    ensures |points| >= 2 ==> 2 <= |r| <= |points|
    decreases |points|, 1
  {
    if |points| <= 2 then points
    else
      var f := FarthestAmong(m, points, points[0], Last(points), |points| - 1);
      if f.distance > tolerance then SimplifyHalves(m, points, tolerance, f.index)
      else [points[0], Last(points)]
  }

  /**
   * The split at index k: both halves share points[k], and the left result
   * drops its copy of it (leftHalf.slice(0, -1)).
   */
  function SimplifyHalves(m: Runtime, points: seq<Point2D>, tolerance: real, k: int): (r: seq<Point2D>)
    requires tolerance >= 0.0 && 0 < k < |points| - 1
    ensures 2 <= |r| <= |points|
    decreases |points|, 0
  {
    DropLast(Simplify(m, points[..k + 1], tolerance)) + Simplify(m, points[k..], tolerance)
  }

  /** simplifyPath, recursive, with its argmax loop. */
  method SimplifyPath(m: Runtime, points: seq<Point2D>, tolerance: real) returns (r: seq<Point2D>)
    requires tolerance >= 0.0
    ensures r == Simplify(m, points, tolerance)
    decreases |points|
  {
    if |points| <= 2 {
      return points;
    }
    var start := points[0];
    var end := points[|points| - 1];
    var maxDistance, maxIndex := FindFarthest(m, points, start, end);
    if maxDistance > tolerance {
      SimplifySplitsAt(m, points, tolerance, maxIndex);
      var leftHalf := SimplifyPath(m, points[..maxIndex + 1], tolerance);
      var rightHalf := SimplifyPath(m, points[maxIndex..], tolerance);
      r := leftHalf[..|leftHalf| - 1] + rightHalf;
    } else {
      SimplifyStaysAt(m, points, tolerance);
      r := [start, end];
    }
  }

  /** The argmax loop of simplifyPath: the interior point farthest from the chord, the first on a tie. */
  method FindFarthest(m: Runtime, points: seq<Point2D>, start: Point2D, end: Point2D)
    returns (maxDistance: real, maxIndex: int)
    requires |points| > 2
    ensures Farthest(maxDistance, maxIndex) == FarthestAmong(m, points, start, end, |points| - 1)
  {
    maxDistance := 0.0;
    maxIndex := 0;
    var i := 1;
    while i < |points| - 1
      invariant 1 <= i <= |points| - 1
      invariant FarthestAmong(m, points, start, end, i) == Farthest(maxDistance, maxIndex)
    {
      var distance := PerpendicularDistance(m, points[i], start, end);
      if distance > maxDistance {
        maxDistance := distance;
        maxIndex := i;
      }
      i := i + 1;
    }
  }

  /** One unfolding of Simplify where the farthest point is far enough to split at. */
  lemma SimplifySplitsAt(m: Runtime, points: seq<Point2D>, tolerance: real, k: int)
    requires tolerance >= 0.0 && |points| > 2
    requires FarthestAmong(m, points, points[0], Last(points), |points| - 1).index == k
    requires FarthestAmong(m, points, points[0], Last(points), |points| - 1).distance > tolerance
    ensures 0 < k < |points| - 1 && Simplify(m, points, tolerance) == SimplifyHalves(m, points, tolerance, k)
  {
  }

  /** One unfolding of Simplify where no interior point is farther than the tolerance. */
  lemma SimplifyStaysAt(m: Runtime, points: seq<Point2D>, tolerance: real)
    requires tolerance >= 0.0 && |points| > 2
    requires FarthestAmong(m, points, points[0], Last(points), |points| - 1).distance <= tolerance
    ensures Simplify(m, points, tolerance) == [points[0], Last(points)]
  {
  }

  /** A path of at most two points is returned unchanged. */
  lemma SimplifyShort(m: Runtime, points: seq<Point2D>, tolerance: real)
    requires tolerance >= 0.0 && |points| <= 2
    ensures Simplify(m, points, tolerance) == points
  {
  }

  /**
   * Joining the two halves of a split at k, as simplifyPath does, keeps the
   * ends and the order when each half does.
   */
  lemma JoinHalves(points: seq<Point2D>, k: int, left: seq<Point2D>, right: seq<Point2D>)
    requires 0 < k < |points| - 1
    requires |left| >= 2 && left[0] == points[..k + 1][0] && IsSubsequence(left, points[..k + 1])
    requires |right| >= 2 && Last(right) == Last(points[k..]) && IsSubsequence(right, points[k..])
    ensures var r := DropLast(left) + right;
            |r| >= 2 && r[0] == points[0] && Last(r) == Last(points) && IsSubsequence(r, points)
  {
    SubsequenceJoin(points, k, left, right);
  }

  /**
   * The simplified path keeps the first and the last point, has at least two
   * points, and is an order-preserving subsequence of the input (so it is
   * never longer).
   */
  lemma {:induction false} SimplifyKeepsEndsAndOrder(m: Runtime, points: seq<Point2D>, tolerance: real)
    requires tolerance >= 0.0 && |points| >= 2
    ensures var r := Simplify(m, points, tolerance);
            |r| >= 2 && r[0] == points[0] && Last(r) == Last(points)
            && IsSubsequence(r, points) && |r| <= |points|
    decreases |points|, 1
  {
    var r := Simplify(m, points, tolerance);
    if |points| <= 2 {
      SubsequenceRefl(points);
    } else if FarthestAmong(m, points, points[0], Last(points), |points| - 1).distance > tolerance {
      SimplifySplitKeepsEndsAndOrder(m, points, tolerance);
    } else {
      EndsAreSubsequence(points);
    }
    SubsequenceLength(r, points);
  }

  /** The case of SimplifyKeepsEndsAndOrder where simplifyPath splits. */
  lemma {:induction false} SimplifySplitKeepsEndsAndOrder(m: Runtime, points: seq<Point2D>, tolerance: real)
    requires tolerance >= 0.0 && |points| > 2
    requires FarthestAmong(m, points, points[0], Last(points), |points| - 1).distance > tolerance
    ensures var r := Simplify(m, points, tolerance);
            |r| >= 2 && r[0] == points[0] && Last(r) == Last(points) && IsSubsequence(r, points)
    decreases |points|, 0
  {
    var k := FarthestAmong(m, points, points[0], Last(points), |points| - 1).index;
    var left := Simplify(m, points[..k + 1], tolerance);
    var right := Simplify(m, points[k..], tolerance);
    SimplifyKeepsEndsAndOrder(m, points[..k + 1], tolerance);
    SimplifyKeepsEndsAndOrder(m, points[k..], tolerance);
    JoinHalves(points, k, left, right);
    SimplifySplitsAt(m, points, tolerance, k);
  }

  /**
   * When no interior point is farther than the tolerance from the chord, the
   * result is just the two ends.
   */
  lemma SimplifyCollapses(m: Runtime, points: seq<Point2D>, tolerance: real)
    requires tolerance >= 0.0 && |points| > 2
    requires forall i :: 0 < i < |points| - 1 ==>
               PerpendicularDistance(m, points[i], points[0], Last(points)) <= tolerance
    ensures Simplify(m, points, tolerance) == [points[0], Last(points)]
  {
    var f := FarthestAmong(m, points, points[0], Last(points), |points| - 1);
    FarthestIsMaximum(m, points, points[0], Last(points), |points| - 1);
    assert f.distance <= tolerance;
  }

  /**
   * Higher tolerance gives fewer points: the split indices do not depend on
   * the tolerance, so simplifying with a larger tolerance yields a
   * subsequence of the result for a smaller one.
   */
  lemma {:induction false} SimplifyMonotone(m: Runtime, points: seq<Point2D>, t1: real, t2: real)
    requires 0.0 <= t1 <= t2
    ensures IsSubsequence(Simplify(m, points, t2), Simplify(m, points, t1))
    decreases |points|, 1
  {
    var r1 := Simplify(m, points, t1);
    if |points| <= 2 {
      SubsequenceRefl(points);
    } else {
      var f := FarthestAmong(m, points, points[0], Last(points), |points| - 1);
      if f.distance > t2 {
        SimplifySplitMonotone(m, points, t1, t2);
      } else if f.distance > t1 {
        SimplifyKeepsEndsAndOrder(m, points, t1);
        EndsAreSubsequence(r1);
      } else {
        SubsequenceRefl(r1);
      }
    }
  }

  /** The case of SimplifyMonotone where both tolerances split, at the same point. */
  lemma {:induction false} SimplifySplitMonotone(m: Runtime, points: seq<Point2D>, t1: real, t2: real)
    requires 0.0 <= t1 <= t2 && |points| > 2
    requires FarthestAmong(m, points, points[0], Last(points), |points| - 1).distance > t2
    ensures IsSubsequence(Simplify(m, points, t2), Simplify(m, points, t1))
    decreases |points|, 0
  {
    var k := FarthestAmong(m, points, points[0], Last(points), |points| - 1).index;
    SimplifySplitsAt(m, points, t1, k);
    SimplifySplitsAt(m, points, t2, k);
    var left1 := Simplify(m, points[..k + 1], t1);
    var left2 := Simplify(m, points[..k + 1], t2);
    var right1 := Simplify(m, points[k..], t1);
    var right2 := Simplify(m, points[k..], t2);
    SimplifyMonotone(m, points[..k + 1], t1, t2);
    SimplifyMonotone(m, points[k..], t1, t2);
    SimplifyKeepsEndsAndOrder(m, points[..k + 1], t2);
    SubsequenceDropLast(left2, left1);
    SubsequenceAppend(DropLast(left2), DropLast(left1), right2, right1);
  }

  /**
   * Tolerance 0 does not keep every point: an interior point exactly on the
   * chord is at distance 0, which is not greater than 0.
   */
  lemma SimplifyDropsCollinearPoints(m: Runtime)
    ensures Simplify(m, [Point2D(0.0, 0.0), Point2D(1.0, 0.0), Point2D(2.0, 0.0)], 0.0)
         == [Point2D(0.0, 0.0), Point2D(2.0, 0.0)]
  {
    var p := [Point2D(0.0, 0.0), Point2D(1.0, 0.0), Point2D(2.0, 0.0)];
    assert PerpendicularDistance(m, p[1], p[0], p[2]) == 0.0;
    SimplifyCollapses(m, p, 0.0);
  }

  // ---------------------------------------------------------------------
  // simplifyToPointCount

  const InitialMinTolerance: real := 0.0001
  const InitialMaxTolerance: real := 1.0

  /**
   * The bisection loop of simplifyToPointCount with `remaining` iterations
   * left, tolerance interval [lo, hi] and the last attempt `best`.
   */
  function Bisect(m: Runtime, points: seq<Point2D>, targetCount: int, remaining: int,
                  lo: real, hi: real, best: seq<Point2D>): seq<Point2D>
    requires 0.0 <= lo <= hi
    decreases remaining
  {
    if remaining <= 0 then best
    else
      var tolerance := (lo + hi) / 2.0;
      var simplified := Simplify(m, points, tolerance);
      if |simplified| == targetCount then simplified
      else if |simplified| > targetCount then
        Bisect(m, points, targetCount, remaining - 1, tolerance, hi, simplified)
      else
        Bisect(m, points, targetCount, remaining - 1, lo, tolerance, simplified)
  }

  function SimplifyToCount(m: Runtime, points: seq<Point2D>, targetCount: int, maxIterations: int): seq<Point2D>
  {
    if |points| <= targetCount then points
    else Bisect(m, points, targetCount, maxIterations, InitialMinTolerance, InitialMaxTolerance, points)
  }

  /**
   * The simplifications the bisection tries, in order, with `remaining`
   * iterations left and tolerance interval [lo, hi]: it stops after the first
   * one with exactly targetCount points.
   */
  function Attempts(m: Runtime, points: seq<Point2D>, targetCount: int, remaining: int,
                    lo: real, hi: real): seq<seq<Point2D>>
    requires 0.0 <= lo <= hi
    decreases remaining
  {
    if remaining <= 0 then []
    else
      var tolerance := (lo + hi) / 2.0;
      var simplified := Simplify(m, points, tolerance);
      if |simplified| == targetCount then [simplified]
      else if |simplified| > targetCount then
        [simplified] + Attempts(m, points, targetCount, remaining - 1, tolerance, hi)
      else
        [simplified] + Attempts(m, points, targetCount, remaining - 1, lo, tolerance)
  }

  /** Every call simplifyToPointCount makes to simplifyPath, in order. */
  function CountAttempts(m: Runtime, points: seq<Point2D>, targetCount: int, maxIterations: int): seq<seq<Point2D>>
  {
    if |points| <= targetCount then []
    else Attempts(m, points, targetCount, maxIterations, InitialMinTolerance, InitialMaxTolerance)
  }

  /**
   * simplifyToPointCount, with its bisection loop and early return; `attempts`
   * records every simplification it computes.
   */
  method SimplifyToPointCount(m: Runtime, points: seq<Point2D>, targetCount: int, maxIterations: int)
    returns (r: seq<Point2D>, ghost attempts: seq<seq<Point2D>>)
    ensures r == SimplifyToCount(m, points, targetCount, maxIterations)
    ensures attempts == CountAttempts(m, points, targetCount, maxIterations)
  {
    if |points| <= targetCount {
      return points, [];
    }
    var minTolerance := InitialMinTolerance;
    var maxTolerance := InitialMaxTolerance;
    var bestResult := points;
    attempts := [];
    var i := 0;
    while i < maxIterations
      invariant 0.0 <= minTolerance <= maxTolerance
      invariant maxIterations <= 0 ==> i == 0
      invariant maxIterations > 0 ==> 0 <= i <= maxIterations
      invariant Bisect(m, points, targetCount, maxIterations - i, minTolerance, maxTolerance, bestResult)
             == SimplifyToCount(m, points, targetCount, maxIterations)
      invariant attempts + Attempts(m, points, targetCount, maxIterations - i, minTolerance, maxTolerance)
             == CountAttempts(m, points, targetCount, maxIterations)
      decreases maxIterations - i
    {
      var tolerance := (minTolerance + maxTolerance) / 2.0;
      var simplified := SimplifyPath(m, points, tolerance);
      ghost var lo, hi, best, before := minTolerance, maxTolerance, bestResult, attempts;
      attempts := attempts + [simplified];
      if |simplified| == targetCount {
        BisectExact(m, points, targetCount, maxIterations - i, lo, hi, best, tolerance, simplified);
        return simplified, attempts;
      }
      bestResult := simplified;
      if |simplified| > targetCount {
        minTolerance := tolerance;
      } else {
        maxTolerance := tolerance;
      }
      BisectNext(m, points, targetCount, maxIterations - i, lo, hi, best, tolerance, simplified,
                 minTolerance, maxTolerance);
      AppendAttempt(before, simplified, Attempts(m, points, targetCount, maxIterations - i - 1, minTolerance, maxTolerance));
      i := i + 1;
    }
    r := bestResult;
  }

  /** Moving one attempt from the ones still to come to the ones made keeps the whole list. */
  lemma AppendAttempt(before: seq<seq<Point2D>>, s: seq<Point2D>, rest: seq<seq<Point2D>>)
    ensures (before + [s]) + rest == before + ([s] + rest)
  {
  }

  /** `result` is one of the attempts: a simplification with a tolerance in (0.0001, 1). */
  ghost predicate IsAttempt(m: Runtime, points: seq<Point2D>, result: seq<Point2D>)
  {
    exists t: real :: InitialMinTolerance < t < InitialMaxTolerance && result == Simplify(m, points, t)
  }

  /**
   * The bisection makes at most `remaining` attempts, each with a tolerance in
   * (0.0001, 1); only the last may have targetCount points; and it returns the
   * last attempt, or `best` when it makes none.
   */
  lemma BisectFollowsAttempts(m: Runtime, points: seq<Point2D>, targetCount: int,
                              remaining: int, lo: real, hi: real, best: seq<Point2D>)
    requires InitialMinTolerance <= lo < hi <= InitialMaxTolerance
    requires |best| != targetCount
    ensures var a := Attempts(m, points, targetCount, remaining, lo, hi);
            var r := Bisect(m, points, targetCount, remaining, lo, hi, best);
            |a| <= (if remaining <= 0 then 0 else remaining)
            && (forall k :: 0 <= k < |a| ==> IsAttempt(m, points, a[k]))
            && (forall k :: 0 <= k < |a| - 1 ==> |a[k]| != targetCount)
            && r == (if |a| == 0 then best else a[|a| - 1])
  {
    AttemptsBounded(m, points, targetCount, remaining, lo, hi);
    AttemptsInRange(m, points, targetCount, remaining, lo, hi);
    AttemptsStopAtExact(m, points, targetCount, remaining, lo, hi);
    BisectReturnsLast(m, points, targetCount, remaining, lo, hi, best);
  }

  /** The bisection makes at most `remaining` attempts. */
  lemma {:induction false} AttemptsBounded(m: Runtime, points: seq<Point2D>, targetCount: int,
                                           remaining: int, lo: real, hi: real)
    requires 0.0 <= lo <= hi
    ensures |Attempts(m, points, targetCount, remaining, lo, hi)| <= (if remaining <= 0 then 0 else remaining)
    decreases remaining
  {
    if remaining > 0 {
      var t := (lo + hi) / 2.0;
      var s := Simplify(m, points, t);
      if |s| == targetCount {
        BisectExact(m, points, targetCount, remaining, lo, hi, [], t, s);
      } else {
        var nlo := if |s| > targetCount then t else lo;
        var nhi := if |s| > targetCount then hi else t;
        BisectNext(m, points, targetCount, remaining, lo, hi, [], t, s, nlo, nhi);
        AttemptsBounded(m, points, targetCount, remaining - 1, nlo, nhi);
      }
    }
  }

  /** Every attempt uses a tolerance strictly between the initial bounds. */
  lemma {:induction false} AttemptsInRange(m: Runtime, points: seq<Point2D>, targetCount: int,
                                           remaining: int, lo: real, hi: real)
    requires InitialMinTolerance <= lo < hi <= InitialMaxTolerance
    ensures var a := Attempts(m, points, targetCount, remaining, lo, hi);
            forall k :: 0 <= k < |a| ==> IsAttempt(m, points, a[k])
    decreases remaining
  {
    if remaining > 0 {
      var t := (lo + hi) / 2.0;
      var s := Simplify(m, points, t);
      AttemptAt(m, points, t);
      if |s| == targetCount {
        BisectExact(m, points, targetCount, remaining, lo, hi, [], t, s);
      } else {
        var nlo := if |s| > targetCount then t else lo;
        var nhi := if |s| > targetCount then hi else t;
        BisectNext(m, points, targetCount, remaining, lo, hi, [], t, s, nlo, nhi);
        AttemptsInRange(m, points, targetCount, remaining - 1, nlo, nhi);
        ConsAll(s, Attempts(m, points, targetCount, remaining - 1, nlo, nhi), m, points);
      }
    }
  }

  /** Prepending an attempt to a sequence of attempts gives a sequence of attempts. */
  lemma ConsAll(s: seq<Point2D>, rest: seq<seq<Point2D>>, m: Runtime, points: seq<Point2D>)
    requires IsAttempt(m, points, s)
    requires forall k :: 0 <= k < |rest| ==> IsAttempt(m, points, rest[k])
    ensures forall k :: 0 <= k < |[s] + rest| ==> IsAttempt(m, points, ([s] + rest)[k])
  {
    forall k | 0 <= k < |[s] + rest|
      ensures IsAttempt(m, points, ([s] + rest)[k])
    {
      if k > 0 {
        assert ([s] + rest)[k] == rest[k - 1];
      }
    }
  }

  /** Only the last attempt may have exactly targetCount points. */
  lemma {:induction false} AttemptsStopAtExact(m: Runtime, points: seq<Point2D>, targetCount: int,
                                               remaining: int, lo: real, hi: real)
    requires 0.0 <= lo <= hi
    ensures var a := Attempts(m, points, targetCount, remaining, lo, hi);
            forall k :: 0 <= k < |a| - 1 ==> |a[k]| != targetCount
    decreases remaining
  {
    if remaining > 0 {
      var t := (lo + hi) / 2.0;
      var s := Simplify(m, points, t);
      if |s| == targetCount {
        BisectExact(m, points, targetCount, remaining, lo, hi, [], t, s);
      } else {
        var nlo := if |s| > targetCount then t else lo;
        var nhi := if |s| > targetCount then hi else t;
        BisectNext(m, points, targetCount, remaining, lo, hi, [], t, s, nlo, nhi);
        AttemptsStopAtExact(m, points, targetCount, remaining - 1, nlo, nhi);
        var rest := Attempts(m, points, targetCount, remaining - 1, nlo, nhi);
        forall k | 0 <= k < |[s] + rest| - 1
          ensures |([s] + rest)[k]| != targetCount
        {
          if k > 0 {
            assert ([s] + rest)[k] == rest[k - 1];
          }
        }
      }
    }
  }

  /** The bisection returns its last attempt, or `best` when it makes none. */
  lemma {:induction false} BisectReturnsLast(m: Runtime, points: seq<Point2D>, targetCount: int,
                                             remaining: int, lo: real, hi: real, best: seq<Point2D>)
    requires 0.0 <= lo <= hi
    ensures var a := Attempts(m, points, targetCount, remaining, lo, hi);
            Bisect(m, points, targetCount, remaining, lo, hi, best) == if |a| == 0 then best else a[|a| - 1]
    decreases remaining
  {
    if remaining > 0 {
      var t := (lo + hi) / 2.0;
      var s := Simplify(m, points, t);
      if |s| == targetCount {
        BisectExact(m, points, targetCount, remaining, lo, hi, best, t, s);
      } else {
        var nlo := if |s| > targetCount then t else lo;
        var nhi := if |s| > targetCount then hi else t;
        BisectNext(m, points, targetCount, remaining, lo, hi, best, t, s, nlo, nhi);
        BisectReturnsLast(m, points, targetCount, remaining - 1, nlo, nhi, s);
        var rest := Attempts(m, points, targetCount, remaining - 1, nlo, nhi);
        assert ([s] + rest)[|rest|] == if |rest| == 0 then s else rest[|rest| - 1];
      }
    }
  }

  /** The simplification with a tolerance strictly between the initial bounds is an attempt. */
  lemma AttemptAt(m: Runtime, points: seq<Point2D>, t: real)
    requires InitialMinTolerance < t < InitialMaxTolerance
    ensures IsAttempt(m, points, Simplify(m, points, t))
  {
  }

  /** One iteration whose simplification has exactly targetCount points ends the bisection. */
  lemma BisectExact(m: Runtime, points: seq<Point2D>, targetCount: int, remaining: int,
                    lo: real, hi: real, best: seq<Point2D>, t: real, s: seq<Point2D>)
    requires 0.0 <= lo <= hi && remaining > 0 && t == (lo + hi) / 2.0
    requires s == Simplify(m, points, t) && |s| == targetCount
    ensures Attempts(m, points, targetCount, remaining, lo, hi) == [s]
    ensures Bisect(m, points, targetCount, remaining, lo, hi, best) == s
  {
  }

  /** Any other iteration keeps its simplification and halves the interval toward targetCount. */
  lemma BisectNext(m: Runtime, points: seq<Point2D>, targetCount: int, remaining: int,
                   lo: real, hi: real, best: seq<Point2D>, t: real, s: seq<Point2D>, nlo: real, nhi: real)
    requires 0.0 <= lo <= hi && remaining > 0 && t == (lo + hi) / 2.0
    requires s == Simplify(m, points, t) && |s| != targetCount
    requires nlo == (if |s| > targetCount then t else lo) && nhi == (if |s| > targetCount then hi else t)
    ensures 0.0 <= nlo <= nhi
    ensures Attempts(m, points, targetCount, remaining, lo, hi)
         == [s] + Attempts(m, points, targetCount, remaining - 1, nlo, nhi)
    ensures Bisect(m, points, targetCount, remaining, lo, hi, best)
         == Bisect(m, points, targetCount, remaining - 1, nlo, nhi, s)
  {
  }

  /**
   * simplifyToPointCount calls simplifyPath at most maxIterations times, with
   * tolerances in (0.0001, 1). A too-long input gets exactly targetCount points
   * iff some attempt has them, and then the first such attempt; otherwise it
   * gets the last attempt, or itself when there is none.
   */
  lemma SimplifyToCountChoice(m: Runtime, points: seq<Point2D>, targetCount: int, maxIterations: int)
    ensures var a := CountAttempts(m, points, targetCount, maxIterations);
            var r := SimplifyToCount(m, points, targetCount, maxIterations);
            |a| <= (if maxIterations <= 0 then 0 else maxIterations)
            && (forall k :: 0 <= k < |a| ==> IsAttempt(m, points, a[k]))
            && (|points| <= targetCount || maxIterations <= 0 ==> r == points)
            && (|points| > targetCount ==>
                  ((|r| == targetCount) <==> (exists k :: 0 <= k < |a| && |a[k]| == targetCount))
                  && (forall k :: 0 <= k < |a| && |a[k]| == targetCount ==>
                        r == a[k] && forall j :: 0 <= j < k ==> |a[j]| != targetCount)
                  && ((forall k :: 0 <= k < |a| ==> |a[k]| != targetCount) ==>
                        r == if |a| == 0 then points else a[|a| - 1]))
  {
    if |points| > targetCount {
      BisectFollowsAttempts(m, points, targetCount, maxIterations,
                            InitialMinTolerance, InitialMaxTolerance, points);
    }
  }

  /**
   * simplifyToPointCount's result keeps both ends of the input and its order,
   * since it is the input or a simplification.
   */
  lemma SimplifyToCountResult(m: Runtime, points: seq<Point2D>, targetCount: int, maxIterations: int)
    ensures var r := SimplifyToCount(m, points, targetCount, maxIterations);
            |points| >= 2 ==>
              |r| >= 2 && r[0] == points[0] && Last(r) == Last(points) && IsSubsequence(r, points)
  {
    var r := SimplifyToCount(m, points, targetCount, maxIterations);
    SimplifyToCountChoice(m, points, targetCount, maxIterations);
    if |points| >= 2 {
      if r == points {
        SubsequenceRefl(points);
      } else {
        var a := CountAttempts(m, points, targetCount, maxIterations);
        if exists k :: 0 <= k < |a| && |a[k]| == targetCount {
          var k :| 0 <= k < |a| && |a[k]| == targetCount;
          assert r == a[k] && IsAttempt(m, points, a[k]);
        } else {
          assert r == a[|a| - 1] && IsAttempt(m, points, a[|a| - 1]);
        }
        var t :| InitialMinTolerance < t < InitialMaxTolerance && r == Simplify(m, points, t);
        SimplifyKeepsEndsAndOrder(m, points, t);
      }
    }
  }

  // ---------------------------------------------------------------------
  // removeDuplicates

  /** One step of the loop of removeDuplicates: push p when it is far enough from the last kept point. */
  function KeepIfApart(m: Runtime, kept: seq<Point2D>, p: Point2D, threshold: real): (r: seq<Point2D>)
    requires |kept| >= 1
    ensures |r| >= 1
  {
    if Distance2D(m, Last(kept), p) > threshold then kept + [p] else kept
  }

  /** The kept points once the loop of removeDuplicates has looked at all of points (|points| >= 1). */
  function Dedup(m: Runtime, points: seq<Point2D>, threshold: real): (r: seq<Point2D>)
    requires |points| >= 1
    ensures |r| >= 1
    decreases |points|
  {
    if |points| == 1 then points
    else KeepIfApart(m, Dedup(m, DropLast(points), threshold), Last(points), threshold)
  }

  function RemoveDuplicatesSpec(m: Runtime, points: seq<Point2D>, threshold: real): seq<Point2D>
  {
    if |points| <= 1 then points else Dedup(m, points, threshold)
  }

  /** removeDuplicates: inputs of one point or none come back as they are. */
  method RemoveDuplicates(m: Runtime, points: seq<Point2D>, threshold: real) returns (result: seq<Point2D>)
    ensures result == RemoveDuplicatesSpec(m, points, threshold)
  {
    if |points| <= 1 {
      return points;
    }
    result := PushLoop(m, points, threshold);
    DedupToWhole(m, points, threshold, |points|);
    assert points[..|points|] == points;
  }

  /** The push loop of removeDuplicates: keep a point when it is apart from the last one kept. */
  method PushLoop(m: Runtime, points: seq<Point2D>, threshold: real) returns (result: seq<Point2D>)
    requires |points| >= 1
    ensures result == DedupTo(m, points, threshold, |points|)
  {
    result := [points[0]];
    var i := 1;
    while i < |points|
      invariant 1 <= i <= |points|
      invariant result == DedupTo(m, points, threshold, i)
    {
      var prev := result[|result| - 1];
      var curr := points[i];
      var dx := curr.x - prev.x;
      var dy := curr.y - prev.y;
      var distance := m.hypot(dx, dy);
      assert DedupTo(m, points, threshold, i + 1) == KeepIfApart(m, result, curr, threshold);
      assert distance == Distance2D(m, Last(result), curr);
      if distance > threshold {
        result := result + [curr];
      }
      i := i + 1;
    }
  }

  /** The kept points once the loop has looked at the first i points. */
  function DedupTo(m: Runtime, points: seq<Point2D>, threshold: real, i: int): (r: seq<Point2D>)
    requires 1 <= i <= |points|
    ensures |r| >= 1
    decreases i
  {
    if i == 1 then [points[0]]
    else KeepIfApart(m, DedupTo(m, points, threshold, i - 1), points[i - 1], threshold)
  }

  /** The loop's state after i points is what removeDuplicates keeps of those i points. */
  lemma {:induction false} DedupToWhole(m: Runtime, points: seq<Point2D>, threshold: real, i: int)
    requires 1 <= i <= |points|
    ensures DedupTo(m, points, threshold, i) == Dedup(m, points[..i], threshold)
    decreases i
  {
    if i == 1 {
      assert points[..1] == [points[0]];
    } else {
      DedupToWhole(m, points, threshold, i - 1);
      PrefixParts(points, i - 1);
      var prefix := points[..i];
      var kept := DedupTo(m, points, threshold, i - 1);
      assert DedupTo(m, points, threshold, i) == KeepIfApart(m, kept, points[i - 1], threshold);
      assert Dedup(m, prefix, threshold) == KeepIfApart(m, Dedup(m, DropLast(prefix), threshold), Last(prefix), threshold);
      assert Dedup(m, DropLast(prefix), threshold) == kept;
    }
  }

  /** Consecutive points of s are more than threshold apart. */
  ghost predicate Spaced(m: Runtime, s: seq<Point2D>, threshold: real)
    decreases |s|
  {
    |s| <= 1 || (Spaced(m, DropLast(s), threshold) && Distance2D(m, Last(DropLast(s)), Last(s)) > threshold)
  }

  /**
   * The kept points start with the first point and form an order-preserving
   * subsequence of the input.
   */
  lemma {:induction false} DedupSubsequence(m: Runtime, points: seq<Point2D>, threshold: real)
    requires |points| >= 1
    ensures var r := Dedup(m, points, threshold);
            r[0] == points[0] && IsSubsequence(r, points)
    decreases |points|
  {
    if |points| == 1 {
      SubsequenceRefl(points);
    } else {
      var kept := Dedup(m, DropLast(points), threshold);
      DedupSubsequence(m, DropLast(points), threshold);
      DropLastThenSnoc(points);
      if Distance2D(m, Last(kept), Last(points)) > threshold {
        SubsequenceSnoc(kept, DropLast(points), Last(points));
      } else {
        SubsequenceExtend(kept, DropLast(points), Last(points));
      }
    }
  }

  /** Each kept point is more than threshold from the one kept before it. */
  lemma {:induction false} DedupSpaced(m: Runtime, points: seq<Point2D>, threshold: real)
    requires |points| >= 1
    ensures Spaced(m, Dedup(m, points, threshold), threshold)
    decreases |points|
  {
    if |points| > 1 {
      var kept := Dedup(m, DropLast(points), threshold);
      DedupSpaced(m, DropLast(points), threshold);
      SnocParts(kept, Last(points));
    }
  }

  lemma RemoveDuplicatesProperties(m: Runtime, points: seq<Point2D>, threshold: real)
    ensures var r := RemoveDuplicatesSpec(m, points, threshold);
            (|points| <= 1 ==> r == points)
            && (|points| >= 1 ==> |r| >= 1 && r[0] == points[0])
            && IsSubsequence(r, points) && Spaced(m, r, threshold)
  {
    if |points| <= 1 {
      SubsequenceRefl(points);
    } else {
      DedupSubsequence(m, points, threshold);
      DedupSpaced(m, points, threshold);
    }
  }

  /** A path whose consecutive points are already spaced is kept whole. */
  lemma {:induction false} DedupOfSpaced(m: Runtime, s: seq<Point2D>, threshold: real)
    requires |s| >= 1 && Spaced(m, s, threshold)
    ensures Dedup(m, s, threshold) == s
    decreases |s|
  {
    if |s| > 1 {
      DedupOfSpaced(m, DropLast(s), threshold);
      DropLastThenSnoc(s);
    }
  }

  /** Removing duplicates twice is the same as once. */
  lemma RemoveDuplicatesIdempotent(m: Runtime, points: seq<Point2D>, threshold: real)
    ensures RemoveDuplicatesSpec(m, RemoveDuplicatesSpec(m, points, threshold), threshold)
         == RemoveDuplicatesSpec(m, points, threshold)
  {
    var r := RemoveDuplicatesSpec(m, points, threshold);
    RemoveDuplicatesProperties(m, points, threshold);
    if |r| > 1 {
      DedupOfSpaced(m, r, threshold);
    }
  }
}
