// src/lib/routing/distanceOptimizer.ts: bringing a snapped route closer to
// the requested distance. A route that is too short gets small rectangular
// detours ("loops") spliced in after a few anchor points in its middle part;
// a route within tolerance or too long is returned as it is. The provider
// that routes a detour is the oracle of DirectionsApi; the pauses between
// detours are recorded, not taken.

module DistanceOptimizer {
  import opened Types
  import opened Seqs
  import opened Distance
  import opened DirectionsApi
  import opened RouteSnapper

  /** The options of optimizeDistance with their defaults filled in. */
  datatype OptimizeOptions = OptimizeOptions(tolerance: real, maxLoops: int)

  const DefaultOptimizeOptions: OptimizeOptions := OptimizeOptions(0.15, 3)

  /** The detour length calculateRequiredLoops assumes when none is given, in metres. */
  const DefaultLoopDistance: real := 500.0

  /** addLoops leaves routes of fewer points than this alone. */
  const MinLoopRoute: int := 10

  /** The pause between two detours, in milliseconds. */
  const LoopDelay: int := 300

  // ---------------------------------------------------------------------
  // Comparing a distance with the target
  // ---------------------------------------------------------------------

  datatype Fit = WithinTolerance | TooShort | TooLong

  /**
   * Where current / target falls: within [1 - tolerance, 1 + tolerance],
   * below it, or above it. A target of 0 makes the ratio +Infinity (too
   * long), NaN (every comparison false: too long as well) or, for a
   * negative current, -Infinity (too short).
   */
  function Classify(current: real, target: real, tolerance: real): Fit
  {
    if target == 0.0 then (if current < 0.0 then TooShort else TooLong)
    else
      var ratio := current / target;
      if ratio >= 1.0 - tolerance && ratio <= 1.0 + tolerance then WithinTolerance
      else if ratio < 1.0 - tolerance then TooShort
      else TooLong
  }

  /**
   * For a positive target the ratio test is a comparison of the distance
   * with the target scaled by 1 - tolerance and 1 + tolerance.
   */
  lemma ClassifyByProducts(current: real, target: real, tolerance: real)
    requires target > 0.0
    ensures var fit := Classify(current, target, tolerance);
            && (fit == WithinTolerance <==>
                  (1.0 - tolerance) * target <= current <= (1.0 + tolerance) * target)
            && (fit == TooShort <==> current < (1.0 - tolerance) * target)
            && (fit == TooLong <==>
                  current > (1.0 + tolerance) * target && current >= (1.0 - tolerance) * target)
  {
    var ratio := current / target;
    QuotientTimes(current, target);
    ScaledBound(ratio, target, current, 1.0 - tolerance);
    ScaledBound(ratio, target, current, 1.0 + tolerance);
  }

  /**
   * estimateFinalDistance: the distance as it is when within tolerance or
   * too long, the target when too short (loops are expected to make it up).
   */
  function EstimateFinalDistance(current: real, target: real, tolerance: real): real
  {
    match Classify(current, target, tolerance)
    case WithinTolerance => current
    case TooShort => target
    case TooLong => current
  }

  /**
   * For a positive target and a tolerance of at least 0 the estimate is
   * the target exactly when the distance is below (1 - tolerance) times
   * the target, the distance itself otherwise, and never below the
   * distance.
   */
  lemma EstimateFinalDistanceCases(current: real, target: real, tolerance: real)
    requires target > 0.0 && tolerance >= 0.0
    ensures var r := EstimateFinalDistance(current, target, tolerance);
            && (current < (1.0 - tolerance) * target ==> r == target && r > current)
            && (current >= (1.0 - tolerance) * target ==> r == current)
            && r >= current
  {
    ClassifyByProducts(current, target, tolerance);
    assert (1.0 - tolerance) * target <= target by {
      assert (1.0 - tolerance) * target == target - tolerance * target;
      assert tolerance * target >= 0.0;
    }
  }

  /** A JavaScript number that is a whole number or positive Infinity. */
  datatype LoopCount = Finite(n: int) | Infinity

  /**
   * Math.ceil of a deficit over the loop distance: the loops it would take.
   * A positive deficit over a loop distance of 0 is Infinity in JavaScript,
   * and Math.ceil keeps it.
   */
  function CalculateRequiredLoops(current: real, target: real, loopDistance: real): (r: LoopCount)
    ensures r.Infinity? <==> target - current > 0.0 && loopDistance == 0.0
  {
    var deficit := target - current;
    if deficit <= 0.0 then Finite(0)
    else if loopDistance == 0.0 then Infinity
    else Finite(Ceil(deficit / loopDistance))
  }

  /**
   * With a positive loop distance, no loop is needed when the route is long
   * enough, and otherwise the fewest loops whose total covers the deficit.
   */
  lemma RequiredLoopsCoverDeficit(current: real, target: real, loopDistance: real)
    requires loopDistance > 0.0
    ensures var r := CalculateRequiredLoops(current, target, loopDistance);
            var deficit := target - current;
            && r.Finite?
            && (deficit <= 0.0 <==> r.n == 0)
            && (deficit > 0.0 ==> r.n >= 1 && (r.n - 1) as real * loopDistance < deficit <= r.n as real * loopDistance)
  {
    var deficit := target - current;
    if deficit > 0.0 {
      var q := deficit / loopDistance;
      var r := Ceil(q);
      QuotientTimes(deficit, loopDistance);
      ScaledBound(q, loopDistance, deficit, 0.0);
      ScaledBound(q, loopDistance, deficit, r as real);
      ScaledBound(q, loopDistance, deficit, (r - 1) as real);
    }
  }

  // ---------------------------------------------------------------------
  // Where the loops go
  // ---------------------------------------------------------------------

  /** Math.floor(length * 0.2): the first index loops may use. */
  function ValidStart(len: nat): int
  {
    Floor(len as real * 0.2)
  }

  /** Math.floor(length * 0.8): the end of the middle part. */
  function ValidEnd(len: nat): int
  {
    Floor(len as real * 0.8)
  }

  /** The floors of 0.2 and 0.8 times a length are the whole quotients len / 5 and 4 len / 5. */
  lemma ValidBounds(len: nat)
    ensures ValidStart(len) == len / 5 && ValidEnd(len) == (4 * len) / 5
  {
    FloorQuotient(len, 5);
    FloorQuotient(4 * len, 5);
    assert len as real * 0.2 == len as real / 5 as real;
    assert len as real * 0.8 == (4 * len) as real / 5 as real;
  }

  /** Math.floor(a / b) of two whole numbers is their whole quotient. */
  lemma FloorQuotient(a: int, b: int)
    requires b >= 1
    ensures Floor(a as real / b as real) == a / b
  {
    var q := a / b;
    var x := a as real / b as real;
    assert a == q * b + a % b && 0 <= a % b < b;
    assert (q * b) as real == q as real * b as real;
    QuotientTimes(a as real, b as real);
    ScaledBound(x, b as real, a as real, q as real);
    assert (q as real + 1.0) * b as real == q as real * b as real + b as real;
    ScaledBound(x, b as real, a as real, q as real + 1.0);
  }

  /** count indices first + interval, first + 2 interval, ... */
  function Spread(first: int, interval: int, count: nat): (r: seq<int>)
    ensures |r| == count
  {
    seq(count, k => first + (k + 1) * interval)
  }

  /**
   * findLoopLocations: numLoops indices spaced evenly, by the floor of
   * validLength / (numLoops + 1), after validStart in the middle three
   * fifths of the route; when that part has fewer indices than loops, by
   * the floor of length / (numLoops + 1) over the whole route from 0.
   * Fewer than one loop gives no index (the loop that pushes them never
   * runs, so the interval, which may divide by 0, is never used).
   */
  function LoopLocations(len: nat, numLoops: int): seq<int>
  {
    var validStart := ValidStart(len);
    var validLength := ValidEnd(len) - validStart;
    if numLoops < 1 then []
    else if validLength < numLoops then
      Spread(0, Floor(len as real / (numLoops + 1) as real), numLoops)
    else
      Spread(validStart, Floor(validLength as real / (numLoops + 1) as real), numLoops)
  }

  /** Every index strictly above the ones before it. */
  predicate Increasing(s: seq<int>)
  {
    forall i, j :: 0 <= i < j < |s| ==> s[i] < s[j]
  }

  predicate Ascending(s: seq<int>)
  {
    forall i, j :: 0 <= i <= j < |s| ==> s[i] <= s[j]
  }

  predicate InRange(s: seq<int>, lo: int, hi: int)
  {
    forall i :: 0 <= i < |s| ==> lo <= s[i] < hi
  }

  /** a q <= b q for a <= b and q >= 0 (and strictly for q >= 1, a < b). */
  lemma ScaleMono(a: int, b: int, q: int)
    requires a <= b && q >= 0
    ensures a * q <= b * q
    ensures a < b && q >= 1 ==> a * q < b * q
  {
    assert b * q - a * q == (b - a) * q;
  }

  /**
   * Spreading n indices over a range of extent >= 1 by the whole quotient
   * extent / (n + 1) keeps them ascending and below first + extent, and
   * strictly increasing when the extent leaves room for n + 1 steps.
   */
  lemma SpreadFits(first: int, extent: int, n: nat)
    requires extent >= 1 && n >= 1
    ensures var r := Spread(first, extent / (n + 1), n);
            && Ascending(r) && InRange(r, first, first + extent)
            && (extent >= n + 1 ==> Increasing(r))
  {
    var q := extent / (n + 1);
    var r := Spread(first, q, n);
    QuotientBounds(extent, n);
    forall i, j | 0 <= i <= j < n
      ensures r[i] <= r[j] && (i < j && q >= 1 ==> r[i] < r[j])
    {
      ScaleMono(i + 1, j + 1, q);
    }
    forall i | 0 <= i < n
      ensures first <= r[i] < first + extent
    {
      ScaleMono(i + 1, n, q);
    }
  }

  /** The whole quotient extent / (n + 1) fits n times below extent, and is positive when n + 1 fit. */
  lemma QuotientBounds(extent: int, n: nat)
    requires extent >= 1 && n >= 1
    ensures var q := extent / (n + 1);
            q >= 0 && n * q < extent && (extent >= n + 1 ==> q >= 1)
  {
    var q := extent / (n + 1);
    assert extent == (n + 1) * q + extent % (n + 1);
    assert (n + 1) * q == n * q + q;
  }

  /**
   * For a non-empty route findLoopLocations returns max(numLoops, 0)
   * ascending indices of the route; when the middle part has room for the
   * loops they lie in it, [length / 5, 4 length / 5), and they strictly
   * increase when it has room for one more.
   */
  lemma LoopLocationsShape(len: nat, numLoops: int)
    requires len >= 1
    ensures var r := LoopLocations(len, numLoops);
            && |r| == (if numLoops < 1 then 0 else numLoops)
            && Ascending(r) && InRange(r, 0, len)
            && (ValidEnd(len) - ValidStart(len) >= numLoops ==> InRange(r, len / 5, (4 * len) / 5))
            && (ValidEnd(len) - ValidStart(len) > numLoops ==> Increasing(r))
  {
    ValidBounds(len);
    var validLength := ValidEnd(len) - ValidStart(len);
    if numLoops >= 1 {
      if validLength < numLoops {
        FloorQuotient(len, numLoops + 1);
        SpreadFits(0, len, numLoops);
      } else {
        FloorQuotient(validLength, numLoops + 1);
        SpreadFits(ValidStart(len), validLength, numLoops);
      }
    }
  }

  /**
   * From addLoops (at least 10 points) with at most 3 loops the middle
   * part always has room, so the anchors strictly increase inside it.
   */
  lemma MiddlePartHasRoom(len: nat, numLoops: int)
    requires len >= MinLoopRoute && numLoops <= 3
    ensures ValidEnd(len) - ValidStart(len) > numLoops
  {
    ValidBounds(len);
  }

  /** Math.min(maxLoops, Math.ceil(deficit / 500)). */
  function LoopsToAdd(additionalDistance: real, maxLoops: int): int
  {
    var needed := Ceil(additionalDistance / DefaultLoopDistance);
    if maxLoops <= needed then maxLoops else needed
  }

  /**
   * The number of loops addLoops adds for a route short of its target is
   * calculateRequiredLoops capped by maxLoops.
   */
  lemma LoopsToAddIsRequiredLoops(current: real, target: real, maxLoops: int)
    requires target - current > 0.0
    ensures var r := LoopsToAdd(target - current, maxLoops);
            var required := CalculateRequiredLoops(current, target, DefaultLoopDistance);
            && required.Finite?
            && (r == maxLoops || r == required.n) && r <= maxLoops && r <= required.n && required.n >= 1
  {
    RequiredLoopsCoverDeficit(current, target, DefaultLoopDistance);
  }

  // ---------------------------------------------------------------------
  // One loop
  // ---------------------------------------------------------------------

  /**
   * The four corners of generateLoop's rectangle, clockwise from north-east:
   * half a side (a quarter of the loop distance) from the centre on the
   * bearings 45, 135, 225 and 315.
   */
  function Corners(m: Runtime, center: LatLng, loopDistance: real): (r: seq<LatLng>)
    ensures |r| == 4
  {
    var half := loopDistance / 4.0 / 2.0;
    [m.destination(center, half, 45.0), m.destination(center, half, 135.0),
     m.destination(center, half, 225.0), m.destination(center, half, 315.0)]
  }

  /** generateLoop's request: a walk from the centre back to it through the corners. */
  function LoopRequest(m: Runtime, center: LatLng, loopDistance: real): DirectionsRequest
  {
    DirectionsRequest(center, center, Corners(m, center, loopDistance), Walking)
  }

  /** What one generateLoop call sends, waits and returns. */
  datatype LoopAttempt = LoopAttempt(sent: seq<DirectionsRequest>, waits: seq<int>, path: seq<LatLng>)

  /**
   * generateLoop whose first provider call is call k: the provider's path
   * when the request succeeds within the default retries, the bare corners
   * when it fails.
   */
  function GenerateLoopSpec(m: Runtime, answer: Answers, k: nat, center: LatLng, loopDistance: real): LoopAttempt
  {
    var request := LoopRequest(m, center, loopDistance);
    var run := Retry(answer, k, request, DefaultMaxRetries);
    LoopAttempt(Repeat(request, run.attempts), run.waits,
                if run.outcome.Success? then run.outcome.value.path else Corners(m, center, loopDistance))
  }

  /**
   * generateLoop makes one to three calls with its request, and returns the
   * four corners exactly when they all fail, the provider's path from the
   * last call otherwise.
   */
  lemma GenerateLoopFallsBack(m: Runtime, answer: Answers, k: nat, center: LatLng, loopDistance: real)
    ensures var request := LoopRequest(m, center, loopDistance);
            var run := Retry(answer, k, request, DefaultMaxRetries);
            var loop := GenerateLoopSpec(m, answer, k, center, loopDistance);
            && 1 <= |loop.sent| <= DefaultMaxRetries
            && (forall j :: 0 <= j < |loop.sent| ==> loop.sent[j] == request)
            && request.origin == center && request.destination == center && |request.waypoints| == 4
            && (run.outcome.Failure? ==> loop.path == Corners(m, center, loopDistance))
            && (run.outcome.Success? ==> loop.path == answer(k + |loop.sent| - 1, request).value.path)
  {
    var request := LoopRequest(m, center, loopDistance);
    RetryCharacterized(answer, k, request, DefaultMaxRetries);
  }

  // ---------------------------------------------------------------------
  // Splicing the loops in
  // ---------------------------------------------------------------------

  /** The route with a loop inserted right after index at. */
  function Splice(route: seq<LatLng>, at: int, loop: seq<LatLng>): seq<LatLng>
    requires 0 <= at < |route|
  {
    route[..at + 1] + loop + route[at + 1..]
  }

  /** Every anchor after the i-th moved on by the length of a loop inserted at it. */
  function ShiftAfter(anchors: seq<int>, i: int, shift: int): (r: seq<int>)
    ensures |r| == |anchors|
  {
    seq(|anchors|, j requires 0 <= j < |anchors| => if j > i then anchors[j] + shift else anchors[j])
  }

  /** The paths generateLoop gives, as a function of the call number and the centre. */
  type LoopPass = (nat, LatLng) -> LoopAttempt

  function LoopPasses(m: Runtime, answer: Answers, loopDistance: real): LoopPass
  {
    (k: nat, center: LatLng) => GenerateLoopSpec(m, answer, k, center, loopDistance)
  }

  /** One pass of addLoops' loop: what it changes and what it sends and waits. */
  datatype LoopStep = LoopStep(route: seq<LatLng>, anchors: seq<int>, loop: seq<LatLng>,
                               sent: seq<DirectionsRequest>, waits: seq<int>)

  /**
   * Pass i of count, whose first provider call is call k: the loop around
   * the anchor's point is spliced in after it and the later anchors shift
   * by its length; an empty loop changes nothing. An anchor outside the
   * route reads an undefined point, generateLoop throws before calling the
   * provider, and the throw is caught. Every pass but the last is followed
   * by a pause.
   */
  function InsertLoop(pass: LoopPass, k: nat, route: seq<LatLng>, anchors: seq<int>, i: nat, count: int): LoopStep
    requires i < |anchors|
  {
    var pause := if i < count - 1 then [LoopDelay] else [];
    var at := anchors[i];
    if 0 <= at < |route| then
      var here := pass(k, route[at]);
      if |here.path| > 0 then
        LoopStep(Splice(route, at, here.path), ShiftAfter(anchors, i, |here.path|), here.path,
                 here.sent, here.waits + pause)
      else LoopStep(route, anchors, [], here.sent, here.waits + pause)
    else LoopStep(route, anchors, [], [], pause)
  }

  /** The run of addLoops' loop so far, with the loop inserted at each anchor ([] if none). */
  datatype LoopRun = LoopRun(route: seq<LatLng>, anchors: seq<int>, loops: seq<seq<LatLng>>,
                             sent: seq<DirectionsRequest>, waits: seq<int>)

  /** addLoops' loop over the anchors, after n passes. */
  function LoopFold(pass: LoopPass, start: nat, route0: seq<LatLng>, anchors0: seq<int>, n: nat): (r: LoopRun)
    requires n <= |anchors0|
    ensures |r.anchors| == |anchors0| && |r.loops| == n
    decreases n, 1
  {
    if n == 0 then LoopRun(route0, anchors0, [], [], []) else LoopFoldThrough(pass, start, route0, anchors0, n)
  }

  /** addLoops' loop after n > 0 passes: the loop after n - 1 of them, followed by pass n - 1. */
  function LoopFoldThrough(pass: LoopPass, start: nat, route0: seq<LatLng>, anchors0: seq<int>, n: nat): (r: LoopRun)
    requires 0 < n <= |anchors0|
    ensures |r.anchors| == |anchors0| && |r.loops| == n
    decreases n, 0
  {
    var prev := LoopFold(pass, start, route0, anchors0, n - 1);
    var step := InsertLoop(pass, start + |prev.sent|, prev.route, prev.anchors, n - 1, |anchors0|);
    LoopRun(step.route, step.anchors, prev.loops + [step.loop], prev.sent + step.sent, prev.waits + step.waits)
  }

  /** The number of the first provider call of pass i. */
  function LoopCall(pass: LoopPass, start: nat, route0: seq<LatLng>, anchors0: seq<int>, i: nat): nat
    requires i <= |anchors0|
  {
    start + |LoopFold(pass, start, route0, anchors0, i).sent|
  }

  /** The total length of some loops. */
  function TotalLength(loops: seq<seq<LatLng>>): nat
  {
    if |loops| == 0 then 0 else TotalLength(DropLast(loops)) + |Last(loops)|
  }

  /** One past the point of the n-th anchor (0 before the first anchor). */
  function PrevEnd(anchors: seq<int>, n: nat): int
    requires n <= |anchors|
  {
    if n == 0 then 0 else anchors[n - 1] + 1
  }

  /**
   * The reference meaning of the first n passes, up to the last loop they
   * insert: the route's points up to each of the first n anchors in turn,
   * each followed by that anchor's loop.
   */
  function SplicedHead(route: seq<LatLng>, anchors: seq<int>, loops: seq<seq<LatLng>>, n: nat): seq<LatLng>
    requires n <= |anchors| && n <= |loops| && Increasing(anchors) && InRange(anchors, 0, |route|)
    decreases n
  {
    if n == 0 then []
    else SplicedHead(route, anchors, loops, n - 1) + route[PrevEnd(anchors, n - 1)..anchors[n - 1] + 1] + loops[n - 1]
  }

  /**
   * The reference meaning of splicing: the route with loops[k] inserted
   * right after the point at anchors[k], for strictly increasing anchors
   * inside the route.
   */
  function Spliced(route: seq<LatLng>, anchors: seq<int>, loops: seq<seq<LatLng>>): seq<LatLng>
    requires |anchors| == |loops| && Increasing(anchors) && InRange(anchors, 0, |route|)
  {
    SplicedHead(route, anchors, loops, |anchors|) + route[PrevEnd(anchors, |anchors|)..]
  }

  /** SplicedHead reads only the first n loops. */
  lemma {:induction false} SplicedHeadPrefix(route: seq<LatLng>, anchors: seq<int>,
                                             loops: seq<seq<LatLng>>, more: seq<seq<LatLng>>, n: nat)
    requires n <= |anchors| && n <= |loops| && n <= |more| && Increasing(anchors) && InRange(anchors, 0, |route|)
    requires forall k :: 0 <= k < n ==> loops[k] == more[k]
    ensures SplicedHead(route, anchors, loops, n) == SplicedHead(route, anchors, more, n)
    decreases n
  {
    if n > 0 {
      SplicedHeadPrefix(route, anchors, loops, more, n - 1);
    }
  }

  /** The head holds the route's points before PrevEnd and every loop, nothing else. */
  lemma {:induction false} SplicedHeadLength(route: seq<LatLng>, anchors: seq<int>, loops: seq<seq<LatLng>>, n: nat)
    requires n == |loops| <= |anchors| && Increasing(anchors) && InRange(anchors, 0, |route|)
    ensures |SplicedHead(route, anchors, loops, n)| == PrevEnd(anchors, n) + TotalLength(loops)
    decreases n
  {
    if n > 0 {
      var d := DropLast(loops);
      SplicedHeadPrefix(route, anchors, d, loops, n - 1);
      SplicedHeadLength(route, anchors, d, n - 1);
    }
  }

  /** Inserting a loop keeps the route as an order-preserving subsequence. */
  lemma SpliceKeeps(route: seq<LatLng>, at: int, loop: seq<LatLng>)
    requires 0 <= at < |route|
    ensures IsSubsequence(route, Splice(route, at, loop))
    ensures |Splice(route, at, loop)| == |route| + |loop|
  {
    var head, tail := route[..at + 1], route[at + 1..];
    assert route == head + tail;
    assert Splice(route, at, loop) == head + (loop + tail);
    SubsequenceRefl(head);
    EmptyIsSubsequence(loop);
    SubsequenceRefl(tail);
    SubsequenceAppend([], loop, tail, tail);
    assert [] + tail == tail;
    SubsequenceAppend(head, head, tail, loop + tail);
  }

  /** LoopFold at n in terms of LoopFold at n - 1 and the last pass. */
  lemma LoopFoldUnfold(pass: LoopPass, start: nat, route0: seq<LatLng>, anchors0: seq<int>, n: nat)
    returns (prev: LoopRun, step: LoopStep)
    requires 0 < n <= |anchors0|
    ensures prev == LoopFold(pass, start, route0, anchors0, n - 1)
    ensures step == InsertLoop(pass, start + |prev.sent|, prev.route, prev.anchors, n - 1, |anchors0|)
    ensures LoopFold(pass, start, route0, anchors0, n)
         == LoopRun(step.route, step.anchors, prev.loops + [step.loop], prev.sent + step.sent, prev.waits + step.waits)
  {
    prev := LoopFold(pass, start, route0, anchors0, n - 1);
    step := InsertLoop(pass, start + |prev.sent|, prev.route, prev.anchors, n - 1, |anchors0|);
  }

  /**
   * Whatever the anchors and the loops, the loop keeps the route as a
   * subsequence and grows it by the total length of the loops inserted;
   * and when the anchors start inside the route, every anchor not yet used
   * has moved on by exactly that total, so it stays inside the route.
   */
  lemma {:induction false} LoopFoldGrows(pass: LoopPass, start: nat, route0: seq<LatLng>, anchors0: seq<int>, n: nat)
    requires n <= |anchors0|
    ensures var run := LoopFold(pass, start, route0, anchors0, n);
            && IsSubsequence(route0, run.route)
            && |run.route| == |route0| + TotalLength(run.loops)
            && (InRange(anchors0, 0, |route0|) ==>
                  forall j :: n <= j < |anchors0| ==> run.anchors[j] == anchors0[j] + TotalLength(run.loops))
    decreases n
  {
    var run := LoopFold(pass, start, route0, anchors0, n);
    if n == 0 {
      SubsequenceRefl(route0);
    } else {
      LoopFoldGrows(pass, start, route0, anchors0, n - 1);
      var prev, step := LoopFoldUnfold(pass, start, route0, anchors0, n);
      assert DropLast(run.loops) == prev.loops;
      assert TotalLength(run.loops) == TotalLength(prev.loops) + |step.loop|;
      var at := prev.anchors[n - 1];
      if 0 <= at < |prev.route| && |step.loop| > 0 {
        SpliceKeeps(prev.route, at, step.loop);
        SubsequenceTrans(route0, prev.route, run.route);
      }
    }
  }

  /** A pass at an anchor inside the route inserts the loop generated around its point. */
  lemma InsertLoopInside(pass: LoopPass, k: nat, route: seq<LatLng>, anchors: seq<int>, i: nat, count: int)
    requires i < |anchors| && 0 <= anchors[i] < |route|
    ensures var step := InsertLoop(pass, k, route, anchors, i, count);
            var at := anchors[i];
            && step.loop == pass(k, route[at]).path
            && step.route == route[..at + 1] + step.loop + route[at + 1..]
  {
    var at := anchors[i];
    var step := InsertLoop(pass, k, route, anchors, i, count);
    if |step.loop| == 0 {
      assert route[..at + 1] + [] + route[at + 1..] == route;
    }
  }

  /** Cutting h + s[e..] after h and c - e more elements. */
  lemma CutAt<T>(h: seq<T>, s: seq<T>, e: int, c: int)
    requires 0 <= e <= c <= |s|
    ensures (h + s[e..])[..|h| + c - e] == h + s[e..c]
    ensures (h + s[e..])[|h| + c - e..] == s[c..]
  {
  }

  /** One more loop, inserted at the shifted n-th anchor, extends the spliced head. */
  lemma SpliceStep(route0: seq<LatLng>, anchors0: seq<int>, n: nat, route: seq<LatLng>,
                   loops: seq<seq<LatLng>>, at: int, loop: seq<LatLng>, next: seq<LatLng>)
    requires 0 < n <= |anchors0| && Increasing(anchors0) && InRange(anchors0, 0, |route0|)
    requires |loops| == n - 1
    requires route == SplicedHead(route0, anchors0, loops, n - 1) + route0[PrevEnd(anchors0, n - 1)..]
    requires at == anchors0[n - 1] + TotalLength(loops) && 0 <= at < |route|
    requires next == route[..at + 1] + loop + route[at + 1..]
    ensures next == SplicedHead(route0, anchors0, loops + [loop], n) + route0[PrevEnd(anchors0, n)..]
  {
    var h := SplicedHead(route0, anchors0, loops, n - 1);
    var e := PrevEnd(anchors0, n - 1);
    var a := anchors0[n - 1];
    SplicedHeadLength(route0, anchors0, loops, n - 1);
    SplicedHeadPrefix(route0, anchors0, loops, loops + [loop], n - 1);
    assert e <= a;
    CutAt(h, route0, e, a + 1);
  }

  /**
   * What the first n passes leave, with strictly increasing anchors inside
   * the route: the spliced head followed by the rest of the route, and every
   * anchor not yet used moved on by the total length of the loops.
   */
  ghost predicate SplicesAt(route0: seq<LatLng>, anchors0: seq<int>, run: LoopRun, n: nat)
    requires n <= |anchors0| && Increasing(anchors0) && InRange(anchors0, 0, |route0|)
  {
    && |run.loops| == n && |run.anchors| == |anchors0|
    && run.route == SplicedHead(route0, anchors0, run.loops, n) + route0[PrevEnd(anchors0, n)..]
    && (forall j :: n <= j < |anchors0| ==> run.anchors[j] == anchors0[j] + TotalLength(run.loops))
  }

  /** Pass n - 1, at its shifted anchor, keeps SplicesAt one pass further. */
  lemma PassSplices(pass: LoopPass, k: nat, route0: seq<LatLng>, anchors0: seq<int>, n: nat, prev: LoopRun, step: LoopStep)
    requires 0 < n <= |anchors0| && Increasing(anchors0) && InRange(anchors0, 0, |route0|)
    requires SplicesAt(route0, anchors0, prev, n - 1)
    requires step == InsertLoop(pass, k, prev.route, prev.anchors, n - 1, |anchors0|)
    ensures SplicesAt(route0, anchors0, LoopRun(step.route, step.anchors, prev.loops + [step.loop],
                                                prev.sent + step.sent, prev.waits + step.waits), n)
  {
    var at := prev.anchors[n - 1];
    var loops := prev.loops + [step.loop];
    SplicedHeadLength(route0, anchors0, prev.loops, n - 1);
    InsertLoopInside(pass, k, prev.route, prev.anchors, n - 1, |anchors0|);
    SpliceStep(route0, anchors0, n, prev.route, prev.loops, at, step.loop, step.route);
    assert DropLast(loops) == prev.loops;
    assert TotalLength(loops) == TotalLength(prev.loops) + |step.loop|;
  }

  /**
   * With strictly increasing anchors inside the route, after n passes the
   * route is the original one with each of the first n loops inserted
   * right after its anchor's point, and the rest of the route after them.
   */
  lemma {:induction false} LoopFoldSplices(pass: LoopPass, start: nat, route0: seq<LatLng>, anchors0: seq<int>, n: nat)
    requires n <= |anchors0| && Increasing(anchors0) && InRange(anchors0, 0, |route0|)
    ensures SplicesAt(route0, anchors0, LoopFold(pass, start, route0, anchors0, n), n)
    decreases n
  {
    if n == 0 {
      assert route0 == [] + route0[0..];
    } else {
      LoopFoldSplices(pass, start, route0, anchors0, n - 1);
      var prev, step := LoopFoldUnfold(pass, start, route0, anchors0, n);
      PassSplices(pass, start + |prev.sent|, route0, anchors0, n, prev, step);
    }
  }

  /** Where SplicesAt holds, the next anchor names its original point. */
  lemma SplicesAtPoint(route0: seq<LatLng>, anchors0: seq<int>, run: LoopRun, n: nat)
    requires n < |anchors0| && Increasing(anchors0) && InRange(anchors0, 0, |route0|)
    requires SplicesAt(route0, anchors0, run, n)
    ensures 0 <= run.anchors[n] < |run.route| && run.route[run.anchors[n]] == route0[anchors0[n]]
  {
    SplicedHeadLength(route0, anchors0, run.loops, n);
    assert PrevEnd(anchors0, n) <= anchors0[n];
  }

  /**
   * With strictly increasing anchors inside the route, the anchor of the
   * next pass lies inside the route and names its original point.
   */
  lemma NextAnchor(pass: LoopPass, start: nat, route0: seq<LatLng>, anchors0: seq<int>, n: nat)
    requires n < |anchors0| && Increasing(anchors0) && InRange(anchors0, 0, |route0|)
    ensures var run := LoopFold(pass, start, route0, anchors0, n);
            0 <= run.anchors[n] < |run.route| && run.route[run.anchors[n]] == route0[anchors0[n]]
  {
    LoopFoldSplices(pass, start, route0, anchors0, n);
    SplicesAtPoint(route0, anchors0, LoopFold(pass, start, route0, anchors0, n), n);
  }

  /** Where SplicesAt holds, pass i inserts the loop generated around its anchor's original point. */
  lemma PassCentred(pass: LoopPass, k: nat, route0: seq<LatLng>, anchors0: seq<int>, i: nat, prev: LoopRun, step: LoopStep)
    requires i < |anchors0| && Increasing(anchors0) && InRange(anchors0, 0, |route0|)
    requires SplicesAt(route0, anchors0, prev, i)
    requires step == InsertLoop(pass, k, prev.route, prev.anchors, i, |anchors0|)
    ensures step.loop == pass(k, route0[anchors0[i]]).path
  {
    SplicesAtPoint(route0, anchors0, prev, i);
    InsertLoopInside(pass, k, prev.route, prev.anchors, i, |anchors0|);
  }

  /** The loop of pass i stays as it was after later passes. */
  lemma {:induction false} LoopKept(pass: LoopPass, start: nat, route0: seq<LatLng>, anchors0: seq<int>, i: nat, n: nat)
    requires i < n <= |anchors0|
    ensures LoopFold(pass, start, route0, anchors0, n).loops[i] == LoopFold(pass, start, route0, anchors0, i + 1).loops[i]
    decreases n
  {
    if n > i + 1 {
      LoopKept(pass, start, route0, anchors0, i, n - 1);
      var prev, step := LoopFoldUnfold(pass, start, route0, anchors0, n);
      assert (prev.loops + [step.loop])[i] == prev.loops[i];
    }
  }

  /** The loop of pass i is the one its step inserts. */
  lemma LastLoop(pass: LoopPass, start: nat, route0: seq<LatLng>, anchors0: seq<int>, i: nat)
    requires i < |anchors0|
    ensures var prev := LoopFold(pass, start, route0, anchors0, i);
            var step := InsertLoop(pass, start + |prev.sent|, prev.route, prev.anchors, i, |anchors0|);
            LoopFold(pass, start, route0, anchors0, i + 1).loops[i] == step.loop
  {
  }

  /**
   * With strictly increasing anchors inside the route, the loop inserted
   * at anchor i is the one generated around the anchor's original point,
   * by the provider calls starting at pass i's first call.
   */
  lemma LoopCentred(pass: LoopPass, start: nat, route0: seq<LatLng>, anchors0: seq<int>, i: nat, n: nat)
    requires i < n <= |anchors0| && Increasing(anchors0) && InRange(anchors0, 0, |route0|)
    ensures LoopFold(pass, start, route0, anchors0, n).loops[i]
         == pass(LoopCall(pass, start, route0, anchors0, i), route0[anchors0[i]]).path
  {
    LoopFoldSplices(pass, start, route0, anchors0, i);
    var prev := LoopFold(pass, start, route0, anchors0, i);
    var step := InsertLoop(pass, start + |prev.sent|, prev.route, prev.anchors, i, |anchors0|);
    LastLoop(pass, start, route0, anchors0, i);
    PassCentred(pass, start + |prev.sent|, route0, anchors0, i, prev, step);
    LoopKept(pass, start, route0, anchors0, i, n);
  }

  /** LoopCentred for every anchor at once. */
  lemma LoopsCentred(pass: LoopPass, start: nat, route0: seq<LatLng>, anchors0: seq<int>, n: nat)
    requires n <= |anchors0| && Increasing(anchors0) && InRange(anchors0, 0, |route0|)
    ensures var loops := LoopFold(pass, start, route0, anchors0, n).loops;
            forall i :: 0 <= i < n ==>
              loops[i] == pass(LoopCall(pass, start, route0, anchors0, i), route0[anchors0[i]]).path
  {
    forall i | 0 <= i < n
      ensures LoopFold(pass, start, route0, anchors0, n).loops[i]
           == pass(LoopCall(pass, start, route0, anchors0, i), route0[anchors0[i]]).path
    {
      LoopCentred(pass, start, route0, anchors0, i, n);
    }
  }


  // ---------------------------------------------------------------------
  // addLoops and optimizeDistance
  // ---------------------------------------------------------------------

  /**
   * additionalDistance / loopsToAdd. Fewer than one loop gives no anchor,
   * so the quotient (Infinity or NaN for 0) is never used; 0 stands for it.
   */
  function DistancePerLoop(additionalDistance: real, loopsToAdd: int): real
  {
    if loopsToAdd >= 1 then additionalDistance / loopsToAdd as real else 0.0
  }

  /** The progress reported before loop i of count: 20 + i / count * 70. */
  function LoopProgress(i: int, count: int): real
    requires count > 0
  {
    20.0 + (i as real / count as real) * 70.0
  }

  /** The reports before the first n loops. */
  function LoopProgresses(count: nat, n: nat): (r: seq<real>)
    requires n <= count
    ensures |r| == n
  {
    seq(n, i requires 0 <= i < n => LoopProgress(i, count))
  }

  /** One more report: the reports before loop n + 1 are those before loop n, then loop n's. */
  lemma LoopProgressesSnoc(count: nat, n: nat)
    requires n < count
    ensures LoopProgresses(count, n + 1) == LoopProgresses(count, n) + [LoopProgress(n, count)]
  {
    assert LoopProgresses(count, n + 1)[..n] == LoopProgresses(count, n);
  }

  /** The route, the calls, the pauses and the reports of addLoops or optimizeDistance. */
  datatype Optimized = Optimized(route: seq<LatLng>, sent: seq<DirectionsRequest>, waits: seq<int>, progress: seq<real>)

  /**
   * addLoops, whose first provider call is call start: a route of fewer
   * than 10 points, or a maxLoops of exactly 0, is returned untouched and
   * unreported; otherwise the anchors of findLoopLocations are passed in
   * order, each reported before its pass, and 100 is reported at the end.
   */
  function AddLoopsSpec(m: Runtime, answer: Answers, start: nat, route: seq<LatLng>,
                        additionalDistance: real, maxLoops: int): Optimized
  {
    if |route| < MinLoopRoute || maxLoops == 0 then Optimized(route, [], [], [])
    else
      var loopsToAdd := LoopsToAdd(additionalDistance, maxLoops);
      var anchors := LoopLocations(|route|, loopsToAdd);
      var pass := LoopPasses(m, answer, DistancePerLoop(additionalDistance, loopsToAdd));
      var run := LoopFold(pass, start, route, anchors, |anchors|);
      Optimized(run.route, run.sent, run.waits, LoopProgresses(|anchors|, |anchors|) + [100.0])
  }

  /**
   * optimizeDistance for a route whose calculatePathDistance is current: 0
   * is reported, then a route within tolerance is returned with 100, a
   * route too long with 20 and 100, and a route too short is reported with
   * 20 and handed to addLoops with the deficit.
   */
  function OptimizeSpec(m: Runtime, answer: Answers, start: nat, route: seq<LatLng>, current: real,
                        targetDistance: real, options: OptimizeOptions): Optimized
  {
    match Classify(current, targetDistance, options.tolerance)
    case WithinTolerance => Optimized(route, [], [], [0.0, 100.0])
    case TooLong => Optimized(route, [], [], [0.0, 20.0, 100.0])
    case TooShort =>
      var added := AddLoopsSpec(m, answer, start, route, targetDistance - current, options.maxLoops);
      added.(progress := [0.0, 20.0] + added.progress)
  }

  /**
   * addLoops never drops or reorders a point of the route: the route is a
   * subsequence of the result, which is longer by exactly the points of
   * the loops inserted.
   */
  lemma AddLoopsKeepsRoute(m: Runtime, answer: Answers, start: nat, route: seq<LatLng>,
                           additionalDistance: real, maxLoops: int)
    ensures var r := AddLoopsSpec(m, answer, start, route, additionalDistance, maxLoops);
            IsSubsequence(route, r.route) && |r.route| >= |route|
  {
    if |route| < MinLoopRoute || maxLoops == 0 {
      SubsequenceRefl(route);
    } else {
      var loopsToAdd := LoopsToAdd(additionalDistance, maxLoops);
      var anchors := LoopLocations(|route|, loopsToAdd);
      var pass := LoopPasses(m, answer, DistancePerLoop(additionalDistance, loopsToAdd));
      LoopFoldGrows(pass, start, route, anchors, |anchors|);
    }
  }

  /**
   * With at most 3 loops asked for (the default) and at least 10 points,
   * addLoops picks between 0 and maxLoops anchors, strictly increasing in
   * the middle three fifths of the route, and returns the route with loop
   * i inserted right after anchor i, loop i being what generateLoop gives
   * around the anchor's original point, with the distance per loop.
   */
  lemma AddLoopsSplices(m: Runtime, answer: Answers, start: nat, route: seq<LatLng>,
                        additionalDistance: real, maxLoops: int)
    requires |route| >= MinLoopRoute && maxLoops != 0 && maxLoops <= 3
    ensures var loopsToAdd := LoopsToAdd(additionalDistance, maxLoops);
            var anchors := LoopLocations(|route|, loopsToAdd);
            var pass := LoopPasses(m, answer, DistancePerLoop(additionalDistance, loopsToAdd));
            var run := LoopFold(pass, start, route, anchors, |anchors|);
            && |anchors| <= 3 && (loopsToAdd >= 1 ==> |anchors| == loopsToAdd)
            && Increasing(anchors) && InRange(anchors, |route| / 5, (4 * |route|) / 5)
            && AddLoopsSpec(m, answer, start, route, additionalDistance, maxLoops).route
               == Spliced(route, anchors, run.loops)
            && forall i :: 0 <= i < |anchors| ==>
                 run.loops[i] == GenerateLoopSpec(m, answer, LoopCall(pass, start, route, anchors, i), route[anchors[i]],
                                                  DistancePerLoop(additionalDistance, loopsToAdd)).path
  {
    var loopsToAdd := LoopsToAdd(additionalDistance, maxLoops);
    var anchors := LoopLocations(|route|, loopsToAdd);
    var pass := LoopPasses(m, answer, DistancePerLoop(additionalDistance, loopsToAdd));
    MiddlePartHasRoom(|route|, loopsToAdd);
    LoopLocationsShape(|route|, loopsToAdd);
    assert InRange(anchors, 0, |route|);
    LoopFoldSplices(pass, start, route, anchors, |anchors|);
    LoopsCentred(pass, start, route, anchors, |anchors|);
  }

  lemma LoopProgressStep(i: int, j: int, count: int)
    requires 0 <= i <= j <= count && count > 0
    ensures 20.0 <= LoopProgress(i, count) <= LoopProgress(j, count) <= 90.0
  {
    var c := count as real;
    var qi, qj := i as real / c, j as real / c;
    QuotientTimes(i as real, c);
    QuotientTimes(j as real, c);
    ScaledBound(qi, c, i as real, qj);
    ScaledBound(qj, c, j as real, 1.0);
  }

  /** addLoops' reports never decrease, lie in [20, 90] before each loop, and end with 100. */
  lemma AddLoopsProgress(count: nat)
    ensures var p := LoopProgresses(count, count) + [100.0];
            NonDecreasing(p) && Last(p) == 100.0 && forall i :: 0 <= i < |p| ==> 20.0 <= p[i] <= 100.0
  {
    var p := LoopProgresses(count, count) + [100.0];
    forall i, j | 0 <= i <= j < |p| ensures 20.0 <= p[i] <= p[j] <= 100.0
    {
      if j < count {
        LoopProgressStep(i, j, count);
      } else if i < count {
        LoopProgressStep(i, i, count);
      }
    }
  }

  /** addLoops reports nothing when it leaves the route alone, one report per loop and 100 otherwise. */
  lemma AddLoopsReports(m: Runtime, answer: Answers, start: nat, route: seq<LatLng>,
                        additionalDistance: real, maxLoops: int)
    ensures var p := AddLoopsSpec(m, answer, start, route, additionalDistance, maxLoops).progress;
            p == [] || (|p| >= 1 && p == LoopProgresses(|p| - 1, |p| - 1) + [100.0])
  {
  }

  /** 0 and 20 followed by addLoops' reports: never decreasing, within [0, 100]. */
  lemma ShortReports(q: seq<real>)
    requires q == [] || (|q| >= 1 && q == LoopProgresses(|q| - 1, |q| - 1) + [100.0])
    ensures var p := [0.0, 20.0] + q;
            && NonDecreasing(p) && (forall i :: 0 <= i < |p| ==> 0.0 <= p[i] <= 100.0)
            && (Last(p) == 100.0 || p == [0.0, 20.0])
  {
    var p := [0.0, 20.0] + q;
    if q != [] {
      AddLoopsProgress(|q| - 1);
      forall i, j | 0 <= i <= j < |p| ensures p[i] <= p[j]
      {
        if i >= 2 {
          assert p[i] == q[i - 2] && p[j] == q[j - 2];
        } else if j >= 2 {
          assert p[j] == q[j - 2];
        }
      }
      assert Last(p) == Last(q);
    }
  }

  /**
   * optimizeDistance's reports start with 0, never decrease, stay within
   * [0, 100], and end with 100 unless addLoops left the route alone (then
   * they are just 0 and 20).
   */
  lemma OptimizeProgress(m: Runtime, answer: Answers, start: nat, route: seq<LatLng>, current: real,
                         targetDistance: real, options: OptimizeOptions)
    ensures var p := OptimizeSpec(m, answer, start, route, current, targetDistance, options).progress;
            && |p| >= 2 && p[0] == 0.0 && NonDecreasing(p)
            && (forall i :: 0 <= i < |p| ==> 0.0 <= p[i] <= 100.0)
            && (Last(p) == 100.0 || p == [0.0, 20.0])
  {
    if Classify(current, targetDistance, options.tolerance) == TooShort {
      AddLoopsReports(m, answer, start, route, targetDistance - current, options.maxLoops);
      ShortReports(AddLoopsSpec(m, answer, start, route, targetDistance - current, options.maxLoops).progress);
    }
  }

  /**
   * A route within tolerance or too long comes back as it is, with no
   * provider call and no pause; only a route too short can change, and
   * then only by the loops addLoops inserts.
   */
  lemma OptimizeKeepsFittingRoute(m: Runtime, answer: Answers, start: nat, route: seq<LatLng>, current: real,
                                  targetDistance: real, options: OptimizeOptions)
    ensures var r := OptimizeSpec(m, answer, start, route, current, targetDistance, options);
            && (Classify(current, targetDistance, options.tolerance) != TooShort ==>
                  r.route == route && r.sent == [] && r.waits == [])
            && IsSubsequence(route, r.route)
  {
    if Classify(current, targetDistance, options.tolerance) == TooShort {
      AddLoopsKeepsRoute(m, answer, start, route, targetDistance - current, options.maxLoops);
    } else {
      SubsequenceRefl(route);
    }
  }

  /**
   * The first n passes of addLoops' loop have been made: the route and the
   * anchors are theirs, and their calls and pauses were logged after sent0
   * and waits0.
   */
  ghost predicate LoopTracks(pass: LoopPass, start: nat, route0: seq<LatLng>, anchors0: seq<int>, n: nat,
                             sent0: seq<DirectionsRequest>, waits0: seq<int>, route: seq<LatLng>, anchors: seq<int>,
                             sent: seq<DirectionsRequest>, waits: seq<int>)
    requires n <= |anchors0|
  {
    var run := LoopFold(pass, start, route0, anchors0, n);
    route == run.route && anchors == run.anchors && sent == sent0 + run.sent && waits == waits0 + run.waits
  }

  /** Pass i, logged after the first i passes, keeps LoopTracks. */
  lemma LoopFoldStep(pass: LoopPass, start: nat, route0: seq<LatLng>, anchors0: seq<int>, i: nat,
                     sent0: seq<DirectionsRequest>, waits0: seq<int>,
                     routeHere: seq<LatLng>, anchorsHere: seq<int>, sentHere: seq<DirectionsRequest>, waitsHere: seq<int>,
                     step: LoopStep)
    requires i < |anchors0| && start == |sent0|
    requires LoopTracks(pass, start, route0, anchors0, i, sent0, waits0, routeHere, anchorsHere, sentHere, waitsHere)
    requires step == InsertLoop(pass, |sentHere|, routeHere, anchorsHere, i, |anchors0|)
    ensures LoopTracks(pass, start, route0, anchors0, i + 1, sent0, waits0,
                       step.route, step.anchors, sentHere + step.sent, waitsHere + step.waits)
  {
    var prev := LoopFold(pass, start, route0, anchors0, i);
    assert |sentHere| == start + |prev.sent|;
    Regroup3(sent0, prev.sent, step.sent);
    Regroup3(waits0, prev.waits, step.waits);
  }

  /** findLoopLocations with its push loop. */
  method FindLoopLocations(route: seq<LatLng>, numLoops: int) returns (locations: seq<int>)
    ensures locations == LoopLocations(|route|, numLoops)
  {
    locations := [];
    var validStart := Floor(|route| as real * 0.2);
    var validEnd := Floor(|route| as real * 0.8);
    var validLength := validEnd - validStart;
    var first, interval;
    if validLength < numLoops {
      first, interval := 0, Floor(|route| as real / (numLoops + 1) as real);
    } else {
      // for numLoops = -1 the source divides by 0; the loop below never runs then
      first := validStart;
      interval := if numLoops + 1 != 0 then Floor(validLength as real / (numLoops + 1) as real) else 0;
    }
    var i := 1;
    while i <= numLoops
      invariant 1 <= i && (i <= numLoops + 1 || i == 1)
      invariant locations == Spread(first, interval, i - 1)
    {
      locations := locations + [first + i * interval];
      i := i + 1;
    }
  }

  /** addLoops' inner loop: every location after i moves on by shift. */
  method ShiftLater(locations: array<int>, i: nat, shift: int)
    modifies locations
    ensures locations[..] == ShiftAfter(old(locations[..]), i, shift)
  {
    var j := i + 1;
    while j < locations.Length
      invariant i + 1 <= j && (j <= locations.Length || j == i + 1)
      invariant forall k :: 0 <= k < locations.Length ==>
                  locations[k] == if i < k < j then old(locations[k]) + shift else old(locations[k])
    {
      locations[j] := locations[j] + shift;
      j := j + 1;
    }
  }

  /** generateLoop: the corners, then a walking route through them, or the corners alone. */
  method GenerateLoop(m: Runtime, service: DirectionsService, center: LatLng, targetDistance: real)
    returns (path: seq<LatLng>)
    modifies service
    ensures var loop := GenerateLoopSpec(m, service.answer, |old(service.sent)|, center, targetDistance);
            path == loop.path && service.sent == old(service.sent) + loop.sent
            && service.waits == old(service.waits) + loop.waits
  {
    var sideLength := targetDistance / 4.0;
    var corner1 := m.destination(center, sideLength / 2.0, 45.0);
    var corner2 := m.destination(center, sideLength / 2.0, 135.0);
    var corner3 := m.destination(center, sideLength / 2.0, 225.0);
    var corner4 := m.destination(center, sideLength / 2.0, 315.0);
    var request := DirectionsRequest(center, center, [corner1, corner2, corner3, corner4], Walking);
    assert request == LoopRequest(m, center, targetDistance);
    var result := service.GetDirectionsWithRetry(request, DefaultMaxRetries);
    if result.Success? {
      path := result.value.path;
    } else {
      path := [corner1, corner2, corner3, corner4];
    }
  }

  /**
   * One pass of addLoops' loop: the loop around the anchor's point spliced
   * in and the later anchors shifted, a caught throw when the anchor lies
   * outside the route, then the pause unless it is the last pass.
   */
  method AddLoopAt(m: Runtime, service: DirectionsService, route: seq<LatLng>, locations: array<int>, i: nat,
                   distancePerLoop: real, ghost pass: LoopPass) returns (next: seq<LatLng>, ghost step: LoopStep)
    requires i < locations.Length && pass == LoopPasses(m, service.answer, distancePerLoop)
    modifies service, locations
    ensures step == InsertLoop(pass, |old(service.sent)|, route, old(locations[..]), i, locations.Length)
    ensures next == step.route && locations[..] == step.anchors
    ensures service.sent == old(service.sent) + step.sent && service.waits == old(service.waits) + step.waits
  {
    step := InsertLoop(pass, |service.sent|, route, locations[..], i, locations.Length);
    var at := locations[i];
    if 0 <= at < |route| {
      var loop := GenerateLoop(m, service, route[at], distancePerLoop);
      if |loop| > 0 {
        next := route[..at + 1] + loop + route[at + 1..];
        ShiftLater(locations, i, |loop|);
      } else {
        next := route;
      }
    } else {
      // modifiedRoute[at] is undefined: calculateDestination throws before
      // any provider call, and addLoops catches it
      next := route;
    }
    if i < locations.Length - 1 {
      service.Sleep(LoopDelay);
    }
  }

  /** addLoops with its loop over the anchors; the reports are returned alongside the route. */
  method AddLoops(m: Runtime, service: DirectionsService, route: seq<LatLng>, additionalDistance: real, maxLoops: int)
    returns (r: seq<LatLng>, progress: seq<real>)
    modifies service
    ensures var spec := AddLoopsSpec(m, service.answer, |old(service.sent)|, route, additionalDistance, maxLoops);
            && r == spec.route && progress == spec.progress
            && service.sent == old(service.sent) + spec.sent && service.waits == old(service.waits) + spec.waits
  {
    if |route| < MinLoopRoute || maxLoops == 0 {
      return route, [];
    }
    var loopsToAdd := LoopsToAdd(additionalDistance, maxLoops);
    var distancePerLoop := DistancePerLoop(additionalDistance, loopsToAdd);
    var found := FindLoopLocations(route, loopsToAdd);
    r, progress := PassAnchors(m, service, route, found, distancePerLoop);
    progress := progress + [100.0];
  }

  /** addLoops' loop over the anchors found, each reported before its pass. */
  method PassAnchors(m: Runtime, service: DirectionsService, route: seq<LatLng>, found: seq<int>,
                     distancePerLoop: real) returns (r: seq<LatLng>, progress: seq<real>)
    modifies service
    ensures var run := LoopFold(LoopPasses(m, service.answer, distancePerLoop), |old(service.sent)|, route, found, |found|);
            && r == run.route && progress == LoopProgresses(|found|, |found|)
            && service.sent == old(service.sent) + run.sent && service.waits == old(service.waits) + run.waits
  {
    ghost var start := |service.sent|;
    ghost var sent0 := service.sent;
    ghost var waits0 := service.waits;
    var locations := new int[|found|](k requires 0 <= k < |found| => found[k]);
    ghost var pass := LoopPasses(m, service.answer, distancePerLoop);
    r := route;
    progress := [];
    assert locations[..] == found;
    for i := 0 to locations.Length
      invariant locations.Length == |found|
      invariant LoopTracks(pass, start, route, found, i, sent0, waits0, r, locations[..], service.sent, service.waits)
      invariant progress == LoopProgresses(locations.Length, i)
    {
      LoopProgressesSnoc(locations.Length, i);
      progress := progress + [LoopProgress(i, locations.Length)];
      ghost var routeHere, anchorsHere := r, locations[..];
      ghost var sentHere, waitsHere := service.sent, service.waits;
      ghost var step;
      r, step := AddLoopAt(m, service, r, locations, i, distancePerLoop, pass);
      LoopFoldStep(pass, start, route, found, i, sent0, waits0, routeHere, anchorsHere, sentHere, waitsHere, step);
    }
  }

  /** optimizeDistance's lengthening branch: 20 is reported, then addLoops runs with the deficit. */
  method LengthenRoute(m: Runtime, service: DirectionsService, route: seq<LatLng>, deficit: real, maxLoops: int)
    returns (r: seq<LatLng>, progress: seq<real>)
    modifies service
    ensures var added := AddLoopsSpec(m, service.answer, |old(service.sent)|, route, deficit, maxLoops);
            && r == added.route && progress == [0.0, 20.0] + added.progress
            && service.sent == old(service.sent) + added.sent && service.waits == old(service.waits) + added.waits
  {
    var added;
    r, added := AddLoops(m, service, route, deficit, maxLoops);
    progress := [0.0, 20.0] + added;
  }

  /** optimizeDistance once the route's length is known to be currentDistance. */
  method OptimizeMeasured(m: Runtime, service: DirectionsService, route: seq<LatLng>, currentDistance: real,
                          targetDistance: real, options: OptimizeOptions) returns (r: seq<LatLng>, progress: seq<real>)
    modifies service
    ensures var spec := OptimizeSpec(m, service.answer, |old(service.sent)|, route, currentDistance,
                                     targetDistance, options);
            && r == spec.route && progress == spec.progress
            && service.sent == old(service.sent) + spec.sent && service.waits == old(service.waits) + spec.waits
  {
    match Classify(currentDistance, targetDistance, options.tolerance)
    case WithinTolerance =>
      r, progress := route, [0.0, 100.0];
    case TooLong =>
      r, progress := route, [0.0, 20.0, 100.0];
    case TooShort =>
      r, progress := LengthenRoute(m, service, route, targetDistance - currentDistance, options.maxLoops);
  }

  /** optimizeDistance; the reports are returned alongside the route. */
  method OptimizeDistance(m: Runtime, service: DirectionsService, route: seq<LatLng>, targetDistance: real,
                          options: OptimizeOptions) returns (r: seq<LatLng>, progress: seq<real>)
    modifies service
    ensures var spec := OptimizeSpec(m, service.answer, |old(service.sent)|, route, PathDistance(m, route),
                                     targetDistance, options);
            && r == spec.route && progress == spec.progress
            && service.sent == old(service.sent) + spec.sent && service.waits == old(service.waits) + spec.waits
  {
    var currentDistance := PathDistance(m, route);
    r, progress := OptimizeMeasured(m, service, route, currentDistance, targetDistance, options);
  }
}
