// Road snapping: the ideal geographic path is cut into overlapping chunks,
// each chunk is reduced to a few key waypoints and sent to the directions
// provider, a chunk whose request fails keeps its own points, and the
// results are merged back into one route. The provider is the oracle of
// DirectionsApi; the pauses between chunks are recorded, not taken.

module RouteSnapper {
  import opened Types
  import opened Seqs
  import opened Distance
  import opened Segmentation
  import opened DirectionsApi

  /** The options of snapToRoads with their defaults filled in. */
  datatype SnapOptions = SnapOptions(numSegments: int, maxWaypointsPerSegment: int, travelMode: TravelMode)

  const DefaultSnapOptions: SnapOptions := SnapOptions(5, 8, Walking)

  /** The pause between two chunks, in milliseconds. */
  const SegmentDelay: int := 300

  const TooShortMessage: string := "Path must have at least 2 points"
  const SnapFailedPrefix: string := "Failed to snap route to roads: "

  /** `${error}` of a TypeError puts the error's name before its message. */
  const TypeErrorPrefix: string := "TypeError: "

  // ---------------------------------------------------------------------
  // One chunk
  // ---------------------------------------------------------------------

  /**
   * The waypoints of a chunk of two or more points: its key points, and
   * when there are more of those than maxWaypoints, a resampling of them.
   */
  function SegmentWaypoints(m: Runtime, segment: seq<LatLng>, maxWaypoints: int): seq<LatLng>
    requires |segment| >= 2
  {
    var keyPoints := ExtractKeyPoints(m, segment, maxWaypoints, DefaultMinAngleChange);
    ExtractKeyPointsShape(m, segment, maxWaypoints, DefaultMinAngleChange);
    if |keyPoints| > maxWaypoints then SamplePointsByDistance(m, keyPoints, maxWaypoints) else keyPoints
  }

  /**
   * The request snapSegmentToRoads sends for a chunk: from the first
   * waypoint to the last through the others, or none for a chunk of fewer
   * than two points (or fewer than two waypoints).
   */
  function SegmentRequest(m: Runtime, segment: seq<LatLng>, maxWaypoints: int, mode: TravelMode)
    : Option<DirectionsRequest>
  {
    if |segment| < 2 then None
    else
      var waypoints := SegmentWaypoints(m, segment, maxWaypoints);
      if |waypoints| < 2 then None
      else Some(DirectionsRequest(waypoints[0], Last(waypoints), waypoints[1..|waypoints| - 1], mode))
  }

  /**
   * A request is sent exactly for chunks of two or more points. It goes
   * from the chunk's first point to its last, its points in order are a
   * subsequence of the chunk, and it uses the given travel mode. With
   * maxWaypoints >= 2 no resampling happens and at most maxWaypoints - 2
   * intermediate waypoints are sent.
   */
  lemma SegmentRequestShape(m: Runtime, segment: seq<LatLng>, maxWaypoints: int, mode: TravelMode)
    ensures var request := SegmentRequest(m, segment, maxWaypoints, mode);
            && (request.Some? <==> |segment| >= 2)
            && (request.Some? ==>
                  var q := request.value;
                  && q.origin == segment[0] && q.destination == Last(segment) && q.travelMode == mode
                  && IsSubsequence([q.origin] + q.waypoints + [q.destination], segment)
                  && (maxWaypoints >= 2 ==>
                        |q.waypoints| <= maxWaypoints - 2
                        && SegmentWaypoints(m, segment, maxWaypoints)
                           == ExtractKeyPoints(m, segment, maxWaypoints, DefaultMinAngleChange)))
  {
    if |segment| >= 2 {
      var keyPoints := ExtractKeyPoints(m, segment, maxWaypoints, DefaultMinAngleChange);
      ExtractKeyPointsShape(m, segment, maxWaypoints, DefaultMinAngleChange);
      var w := SegmentWaypoints(m, segment, maxWaypoints);
      if |segment| <= maxWaypoints {
        assert w == segment;
        SubsequenceRefl(segment);
      } else if |keyPoints| > maxWaypoints {
        assert maxWaypoints < 2;
        assert w == [keyPoints[0], Last(keyPoints)];
        EndsAreSubsequence(segment);
      } else {
        assert w == keyPoints;
      }
      assert |w| >= 2 && w[0] == segment[0] && Last(w) == Last(segment) && IsSubsequence(w, segment);
      EndsParts(w);
    }
  }

  /** The requests sent, the pauses taken and the path kept for one chunk. */
  datatype SegmentSnap = SegmentSnap(sent: seq<DirectionsRequest>, waits: seq<int>, path: seq<LatLng>)

  /**
   * snapSegmentToRoads once the chunk's request is known, with the
   * provider's calls numbered from start: the request with retries, the
   * road path on success and the chunk itself when there is no request or
   * the request fails.
   */
  function SnapSegment(answer: Answers, start: nat, segment: seq<LatLng>, request: Option<DirectionsRequest>)
    : SegmentSnap
  {
    match request
    case None => SegmentSnap([], [], segment)
    case Some(q) =>
      var run := Retry(answer, start, q, DefaultMaxRetries);
      SegmentSnap(Repeat(q, run.attempts), run.waits, if run.outcome.Success? then run.outcome.value.path else segment)
  }

  /** Call k of the provider, for request, returned path. */
  predicate RoadPathAt(answer: Answers, k: nat, request: DirectionsRequest, path: seq<LatLng>)
  {
    answer(k, request).Success? && answer(k, request).value.path == path
  }

  /** path is either the chunk itself or a road path the provider gave for the chunk's request. */
  ghost predicate SnappedFrom(answer: Answers, segment: seq<LatLng>, request: Option<DirectionsRequest>, path: seq<LatLng>)
  {
    path == segment || (request.Some? && exists k: nat :: RoadPathAt(answer, k, request.value, path))
  }

  /**
   * The kept path is the chunk or the provider's answer to its request; the
   * provider is called only when there is a request, at most three times;
   * and the chunk is kept whenever the request fails.
   */
  lemma SnapSegmentShape(answer: Answers, start: nat, segment: seq<LatLng>, request: Option<DirectionsRequest>)
    ensures var run := SnapSegment(answer, start, segment, request);
            && SnappedFrom(answer, segment, request, run.path)
            && (request.None? ==> run.sent == [] && run.waits == [] && run.path == segment)
            && (request.Some? ==>
                  1 <= |run.sent| <= DefaultMaxRetries
                  && (forall j :: 0 <= j < |run.sent| ==> run.sent[j] == request.value)
                  && (Retry(answer, start, request.value, DefaultMaxRetries).outcome.Failure? ==> run.path == segment))
  {
    if request.Some? {
      var run := Retry(answer, start, request.value, DefaultMaxRetries);
      RetryCharacterized(answer, start, request.value, DefaultMaxRetries);
      if run.outcome.Success? {
        var k: nat := start + run.attempts - 1;
        assert RoadPathAt(answer, k, request.value, run.outcome.value.path);
      }
    }
  }

  // ---------------------------------------------------------------------
  // The whole path
  // ---------------------------------------------------------------------

  /** The request of each chunk. */
  function SegmentRequests(m: Runtime, segments: seq<seq<LatLng>>, maxWaypoints: int, mode: TravelMode)
    : (r: seq<Option<DirectionsRequest>>)
    ensures |r| == |segments|
    ensures forall i :: 0 <= i < |segments| ==> r[i] == SegmentRequest(m, segments[i], maxWaypoints, mode)
    decreases |segments|
  {
    if |segments| == 0 then []
    else
      var prev := SegmentRequests(m, segments[..|segments| - 1], maxWaypoints, mode);
      prev + [SegmentRequest(m, segments[|segments| - 1], maxWaypoints, mode)]
  }

  /** The requests sent, the pauses taken and the paths kept for the chunks so far. */
  datatype SnapRun = SnapRun(sent: seq<DirectionsRequest>, waits: seq<int>, snapped: seq<seq<LatLng>>)

  /**
   * A chunk's pass as a function of the number of the first provider call
   * it makes and of the chunk's index.
   */
  type ChunkPass = (nat, nat) -> SegmentSnap

  /** The passes of snapSegmentToRoads over the chunks with their requests. */
  function ChunkPasses(answer: Answers, segments: seq<seq<LatLng>>, requests: seq<Option<DirectionsRequest>>)
    : ChunkPass
  {
    (k: nat, i: nat) =>
      if i < |segments| && i < |requests| then SnapSegment(answer, k, segments[i], requests[i])
      else SegmentSnap([], [], [])
  }

  /** The pause after chunk n - 1 of count: none after the last. */
  function Pause(n: int, count: int): seq<int>
  {
    if n < count then [SegmentDelay] else []
  }

  /** The run so far followed by one more chunk's pass and the pause after it. */
  function Extend(prev: SnapRun, here: SegmentSnap, pause: seq<int>): SnapRun
  {
    SnapRun(prev.sent + here.sent, prev.waits + here.waits + pause, prev.snapped + [here.path])
  }

  /**
   * The chunk loop of snapToRoads over count chunks, after n of them: each
   * chunk passed in order, its calls numbered after those of the chunks
   * before it, and a pause after every chunk but the last.
   */
  function SnapFold(pass: ChunkPass, start: nat, count: nat, n: nat): SnapRun
    requires n <= count
    decreases n, 1
  {
    if n == 0 then SnapRun([], [], []) else SnapFoldThrough(pass, start, count, n)
  }

  /** The chunk loop after n > 0 chunks: the loop after n - 1 of them, extended by chunk n - 1's pass. */
  function SnapFoldThrough(pass: ChunkPass, start: nat, count: nat, n: nat): SnapRun
    requires 0 < n <= count
    decreases n, 0
  {
    var prev := SnapFold(pass, start, count, n - 1);
    Extend(prev, pass(start + |prev.sent|, n - 1), Pause(n, count))
  }

  /** The number of the first provider call of chunk i. */
  function FirstCall(pass: ChunkPass, start: nat, count: nat, i: nat): nat
    requires i <= count
  {
    start + |SnapFold(pass, start, count, i).sent|
  }

  /**
   * Each chunk contributes exactly one path, in order: chunk i's pass made
   * from the calls that follow those of the chunks before it.
   */
  lemma {:induction false} SnapFoldShape(pass: ChunkPass, start: nat, count: nat, n: nat)
    requires n <= count
    ensures var run := SnapFold(pass, start, count, n);
            |run.snapped| == n
            && forall i :: 0 <= i < n ==> run.snapped[i] == pass(FirstCall(pass, start, count, i), i).path
    decreases n
  {
    if n > 0 {
      SnapFoldShape(pass, start, count, n - 1);
      var prev, here := SnapFoldUnfold(pass, start, count, n);
      var snapped := SnapFold(pass, start, count, n).snapped;
      assert snapped == prev.snapped + [here.path];
      forall i | 0 <= i < n - 1
        ensures snapped[i] == pass(FirstCall(pass, start, count, i), i).path
      {
        assert snapped[i] == prev.snapped[i];
      }
    }
  }

  /** SnapFold at n in terms of SnapFold at n - 1 and the last chunk's pass. */
  lemma SnapFoldUnfold(pass: ChunkPass, start: nat, count: nat, n: nat) returns (prev: SnapRun, here: SegmentSnap)
    requires 0 < n <= count
    ensures prev == SnapFold(pass, start, count, n - 1)
    ensures here == pass(start + |prev.sent|, n - 1)
    ensures SnapFold(pass, start, count, n) == Extend(prev, here, Pause(n, count))
  {
    prev := SnapFold(pass, start, count, n - 1);
    here := pass(start + |prev.sent|, n - 1);
  }

  /**
   * The logs after sent0 and waits0 and the kept paths are those of the
   * first n chunks.
   */
  ghost predicate SnapTracks(pass: ChunkPass, start: nat, count: nat, n: nat,
                             sent0: seq<DirectionsRequest>, waits0: seq<int>,
                             sent: seq<DirectionsRequest>, waits: seq<int>, snapped: seq<seq<LatLng>>)
    requires n <= count
  {
    var run := SnapFold(pass, start, count, n);
    sent == sent0 + run.sent && waits == waits0 + run.waits && snapped == run.snapped
  }

  /**
   * If the calls, pauses and paths of the first n - 1 chunks were logged
   * after sent0 and waits0, logging one more pass keeps them those of the
   * first n chunks.
   */
  lemma SnapFoldStep(pass: ChunkPass, start: nat, count: nat, i: nat,
                     sent0: seq<DirectionsRequest>, waits0: seq<int>,
                     sentHere: seq<DirectionsRequest>, waitsHere: seq<int>, snapped: seq<seq<LatLng>>,
                     sent: seq<DirectionsRequest>, waits: seq<int>, path: seq<LatLng>)
    requires i < count && start == |sent0|
    requires SnapTracks(pass, start, count, i, sent0, waits0, sentHere, waitsHere, snapped)
    requires var here := pass(|sentHere|, i);
             && path == here.path && sent == sentHere + here.sent
             && waits == waitsHere + here.waits + Pause(i + 1, count)
    ensures SnapTracks(pass, start, count, i + 1, sent0, waits0, sent, waits, snapped + [path])
  {
    var prev, here := SnapFoldUnfold(pass, start, count, i + 1);
    assert |sentHere| == start + |prev.sent|;
    Regroup3(sent0, prev.sent, here.sent);
    Regroup4(waits0, prev.waits, here.waits, Pause(i + 1, count));
  }

  lemma Regroup3<T>(a: seq<T>, b: seq<T>, c: seq<T>)
    ensures a + b + c == a + (b + c)
  {
  }

  lemma Regroup4<T>(a: seq<T>, b: seq<T>, c: seq<T>, d: seq<T>)
    ensures a + b + c + d == a + (b + c + d)
  {
  }

  /** When every chunk's pass keeps the chunk, the loop keeps every chunk. */
  lemma {:induction false} SnapFoldKeeps(pass: ChunkPass, start: nat, segments: seq<seq<LatLng>>, n: nat)
    requires n <= |segments|
    requires forall k: nat, i: nat :: i < |segments| ==> pass(k, i).path == segments[i]
    ensures SnapFold(pass, start, |segments|, n).snapped == segments[..n]
    decreases n
  {
    if n > 0 {
      SnapFoldKeeps(pass, start, segments, n - 1);
      var prev, here := SnapFoldUnfold(pass, start, |segments|, n);
      PrefixSnoc(segments, n - 1);
    }
  }

  /** The provider never returns a road path. */
  ghost predicate NeverSucceeds(answer: Answers)
  {
    forall k: nat, request: DirectionsRequest :: answer(k, request).Failure?
  }

  /** When every request fails, every chunk's pass keeps the chunk. */
  lemma PassesFallBack(answer: Answers, segments: seq<seq<LatLng>>, requests: seq<Option<DirectionsRequest>>)
    requires NeverSucceeds(answer) && |requests| == |segments|
    ensures forall k: nat, i: nat :: i < |segments| ==> ChunkPasses(answer, segments, requests)(k, i).path == segments[i]
  {
    forall k: nat, i: nat | i < |segments|
      ensures ChunkPasses(answer, segments, requests)(k, i).path == segments[i]
    {
      if requests[i].Some? {
        RetryCharacterized(answer, k, requests[i].value, DefaultMaxRetries);
        assert Retry(answer, k, requests[i].value, DefaultMaxRetries).outcome.Failure?;
      }
    }
  }

  /** The progress reported before chunk i of count: 20 + i / count * 60. */
  function SegmentProgress(i: int, count: int): real
    requires count > 0
  {
    20.0 + (i as real / count as real) * 60.0
  }

  /** The reports before the first n chunks. */
  function SegmentProgresses(count: int, n: nat): (r: seq<real>)
    requires n <= count
    ensures |r| == n
    ensures forall i :: 0 <= i < n ==> r[i] == SegmentProgress(i, count)
  {
    if n == 0 then [] else SegmentProgresses(count, n - 1) + [SegmentProgress(n - 1, count)]
  }

  /** The chunk loop of snapToRoads over all the chunks. */
  function SnapChunks(m: Runtime, answer: Answers, start: nat, segments: seq<seq<LatLng>>, options: SnapOptions)
    : SnapRun
  {
    var requests := SegmentRequests(m, segments, options.maxWaypointsPerSegment, options.travelMode);
    SnapFold(ChunkPasses(answer, segments, requests), start, |segments|, |segments|)
  }

  /** The reports, the calls, the pauses and the outcome of snapToRoads. */
  datatype RouteSnap = RouteSnap(sent: seq<DirectionsRequest>, waits: seq<int>, progress: seq<real>,
                                 outcome: Result<seq<LatLng>>)

  /**
   * snapToRoads: fewer than two points throw before anything else;
   * otherwise 10 and 20 are reported, then each chunk is reported and
   * snapped, then 85 is reported, the snapped chunks are merged, and 95 is
   * reported. A throw of the merge is rethrown with the snapping prefix.
   */
  function SnapRoute(m: Runtime, answer: Answers, start: nat, idealPath: seq<LatLng>, options: SnapOptions)
    : RouteSnap
  {
    if |idealPath| < 2 then RouteSnap([], [], [], Failure(TooShortMessage))
    else
      var segments := DivideIntoSegments(idealPath, options.numSegments);
      var run := SnapChunks(m, answer, start, segments, options);
      match MergeSegments(m, run.snapped)
      case Success(route) => RouteSnap(run.sent, run.waits, RouteProgress(|segments|, true), Success(route))
      case Failure(e) => RouteSnap(run.sent, run.waits, RouteProgress(|segments|, false), Failure(SnapFailedPrefix + TypeErrorPrefix + e))
  }

  predicate NonDecreasing(s: seq<real>)
  {
    forall i, j :: 0 <= i <= j < |s| ==> s[i] <= s[j]
  }

  lemma ProgressStep(i: int, j: int, count: int)
    requires 0 <= i <= j <= count && count > 0
    ensures 20.0 <= SegmentProgress(i, count) <= SegmentProgress(j, count) <= 80.0
  {
    var c := count as real;
    var qi, qj := i as real / c, j as real / c;
    QuotientTimes(i as real, c);
    QuotientTimes(j as real, c);
    ScaledBound(qi, c, i as real, qj);
    ScaledBound(qj, c, j as real, 1.0);
  }

  /**
   * The reports of snapToRoads over count chunks: 10, 20, one per chunk,
   * 85, and 95 when the merge succeeds.
   */
  function RouteProgress(count: nat, merged: bool): seq<real>
  {
    [10.0, 20.0] + SegmentProgresses(count, count) + [85.0] + (if merged then [95.0] else [])
  }

  /**
   * The reports never decrease, start with 10 and 20, hold one report per
   * chunk, and end with 95, or with 85 when the merge fails.
   */
  lemma RouteProgressShape(count: nat, merged: bool)
    ensures var p := RouteProgress(count, merged);
            && NonDecreasing(p) && p[0] == 10.0 && p[1] == 20.0
            && |p| == count + (if merged then 4 else 3)
            && Last(p) == (if merged then 95.0 else 85.0)
  {
    var p := [10.0, 20.0] + SegmentProgresses(count, count) + [85.0];
    forall i, j | 0 <= i <= j < |p| ensures p[i] <= p[j]
    {
      if 2 <= i && j < |p| - 1 {
        ProgressStep(i - 2, j - 2, count);
      } else if 2 <= i < |p| - 1 {
        ProgressStep(i - 2, i - 2, count);
      } else if 2 <= j < |p| - 1 {
        ProgressStep(j - 2, j - 2, count);
      }
    }
    var q := p + [95.0];
    forall i, j | 0 <= i <= j < |q| ensures q[i] <= q[j]
    {
      if j < |p| {
        assert q[i] == p[i] && q[j] == p[j];
      } else if 2 <= i < |p| - 1 {
        ProgressStep(i - 2, i - 2, count);
      }
    }
    assert RouteProgress(count, merged) == if merged then q else p;
  }

  /**
   * A path of fewer than two points throws the length message without any
   * call, pause or report. Otherwise there is at least one chunk, and the
   * reports are those of the chunks with 95 exactly when snapping succeeds.
   */
  lemma SnapRouteProgress(m: Runtime, answer: Answers, start: nat, idealPath: seq<LatLng>, options: SnapOptions)
    ensures var r := SnapRoute(m, answer, start, idealPath, options);
            && (|idealPath| < 2 ==> r == RouteSnap([], [], [], Failure(TooShortMessage)))
            && (|idealPath| >= 2 ==>
                  var count := |DivideIntoSegments(idealPath, options.numSegments)|;
                  count >= 1 && r.progress == RouteProgress(count, r.outcome.Success?))
  {
    if |idealPath| >= 2 && options.numSegments >= 2 {
      DivideIntoSegmentsShape(idealPath, options.numSegments);
    }
  }

  /**
   * When the provider answers nothing, every chunk keeps its points and
   * the merge gives back the ideal path itself.
   */
  lemma SnapRouteFallsBack(m: Runtime, answer: Answers, start: nat, idealPath: seq<LatLng>, options: SnapOptions)
    requires NeverSucceeds(answer) && |idealPath| >= 2
    ensures SnapRoute(m, answer, start, idealPath, options).outcome == Success(idealPath)
  {
    var segments := DivideIntoSegments(idealPath, options.numSegments);
    ChunksFallBack(m, answer, start, segments, options);
    MergeDividedPath(m, idealPath, options.numSegments);
  }

  /** When the provider answers nothing, the chunk loop keeps every chunk as it is. */
  lemma ChunksFallBack(m: Runtime, answer: Answers, start: nat, segments: seq<seq<LatLng>>, options: SnapOptions)
    requires NeverSucceeds(answer)
    ensures SnapChunks(m, answer, start, segments, options).snapped == segments
  {
    var requests := SegmentRequests(m, segments, options.maxWaypointsPerSegment, options.travelMode);
    PassesFallBack(answer, segments, requests);
    SnapFoldKeeps(ChunkPasses(answer, segments, requests), start, segments, |segments|);
    assert segments[..|segments|] == segments;
  }

  /**
   * The route is the merge of one snapped path per chunk, in chunk order,
   * each the chunk itself or the provider's road path for its request;
   * the merge fails exactly when an empty road path follows points.
   */
  lemma SnapRouteMerges(m: Runtime, answer: Answers, start: nat, idealPath: seq<LatLng>, options: SnapOptions)
    requires |idealPath| >= 2
    ensures var segments := DivideIntoSegments(idealPath, options.numSegments);
            var requests := SegmentRequests(m, segments, options.maxWaypointsPerSegment, options.travelMode);
            var run := SnapChunks(m, answer, start, segments, options);
            var r := SnapRoute(m, answer, start, idealPath, options);
            && |run.snapped| == |segments|
            && (forall i :: 0 <= i < |segments| ==> SnappedFrom(answer, segments[i], requests[i], run.snapped[i]))
            && (r.outcome.Success? <==> !EmptyAfterPoints(run.snapped, |run.snapped|))
            && (r.outcome.Success? ==> r.outcome == MergeSegments(m, run.snapped))
            && (r.outcome.Failure? ==> r.outcome.error == SnapFailedPrefix + TypeErrorPrefix + UndefinedPointError)
  {
    var segments := DivideIntoSegments(idealPath, options.numSegments);
    var requests := SegmentRequests(m, segments, options.maxWaypointsPerSegment, options.travelMode);
    var pass := ChunkPasses(answer, segments, requests);
    var run := SnapChunks(m, answer, start, segments, options);
    SnapFoldShape(pass, start, |segments|, |segments|);
    forall i | 0 <= i < |segments|
      ensures SnappedFrom(answer, segments[i], requests[i], run.snapped[i])
    {
      var k := FirstCall(pass, start, |segments|, i);
      SnapSegmentShape(answer, k, segments[i], requests[i]);
    }
    MergeSegmentsFails(m, run.snapped);
  }

  /** Every request of sent travels by mode. */
  predicate AllBy(sent: seq<DirectionsRequest>, mode: TravelMode)
  {
    forall j :: 0 <= j < |sent| ==> sent[j].travelMode == mode
  }

  /** Every pass over one of the first count chunks sends only requests travelling by mode. */
  ghost predicate PassesBy(pass: ChunkPass, count: nat, mode: TravelMode)
  {
    forall k: nat, i: nat :: i < count ==> AllBy(pass(k, i).sent, mode)
  }

  /** The chunk loop over passes that send only by mode sends only by mode. */
  lemma {:induction false} SnapFoldMode(pass: ChunkPass, start: nat, count: nat, n: nat, mode: TravelMode)
    requires n <= count && PassesBy(pass, count, mode)
    ensures AllBy(SnapFold(pass, start, count, n).sent, mode)
    decreases n
  {
    if n > 0 {
      SnapFoldMode(pass, start, count, n - 1, mode);
      var prev, here := SnapFoldUnfold(pass, start, count, n);
      assert AllBy(here.sent, mode);
      assert SnapFold(pass, start, count, n).sent == prev.sent + here.sent;
    }
  }

  /** The chunks' requests carry the travel mode they were built with. */
  lemma ChunkPassesMode(m: Runtime, answer: Answers, segments: seq<seq<LatLng>>, maxWaypoints: int, mode: TravelMode)
    ensures PassesBy(ChunkPasses(answer, segments, SegmentRequests(m, segments, maxWaypoints, mode)), |segments|, mode)
  {
    var requests := SegmentRequests(m, segments, maxWaypoints, mode);
    forall k: nat, i: nat | i < |segments|
      ensures AllBy(ChunkPasses(answer, segments, requests)(k, i).sent, mode)
    {
      SegmentRequestShape(m, segments[i], maxWaypoints, mode);
      assert requests[i] == SegmentRequest(m, segments[i], maxWaypoints, mode);
    }
  }

  /** snapToRoads sends every request with the travel mode of its options. */
  lemma SnapRouteMode(m: Runtime, answer: Answers, start: nat, idealPath: seq<LatLng>, options: SnapOptions)
    ensures AllBy(SnapRoute(m, answer, start, idealPath, options).sent, options.travelMode)
  {
    if |idealPath| >= 2 {
      var segments := DivideIntoSegments(idealPath, options.numSegments);
      ChunkPassesMode(m, answer, segments, options.maxWaypointsPerSegment, options.travelMode);
      var requests := SegmentRequests(m, segments, options.maxWaypointsPerSegment, options.travelMode);
      SnapFoldMode(ChunkPasses(answer, segments, requests), start, |segments|, |segments|, options.travelMode);
    }
  }

  // ---------------------------------------------------------------------
  // The single-request helpers
  // ---------------------------------------------------------------------

  /** The request of snapSimple: straight from start to end, no waypoints. */
  function SimpleRequest(start: LatLng, end: LatLng, mode: TravelMode): DirectionsRequest
  {
    DirectionsRequest(start, end, [], mode)
  }

  /** isLocationRoutable's probe: from the location to 0.001 degrees north of it, on foot. */
  function RoutabilityRequest(location: LatLng): DirectionsRequest
  {
    DirectionsRequest(location, LatLng(location.lat + 0.001, location.lng), [], Walking)
  }

  /**
   * snapSimple gives the provider's path when the request succeeds, and
   * otherwise just the two ends.
   */
  function SnapSimpleSpec(answer: Answers, first: nat, start: LatLng, end: LatLng, mode: TravelMode): (r: seq<LatLng>)
  {
    var run := Retry(answer, first, SimpleRequest(start, end, mode), DefaultMaxRetries);
    if run.outcome.Success? then run.outcome.value.path else [start, end]
  }

  /**
   * snapSimple's result is the two ends when every attempt fails, and the
   * provider's path from one of at most three attempts otherwise.
   */
  lemma SnapSimpleFallsBack(answer: Answers, first: nat, start: LatLng, end: LatLng, mode: TravelMode)
    ensures var run := Retry(answer, first, SimpleRequest(start, end, mode), DefaultMaxRetries);
            var r := SnapSimpleSpec(answer, first, start, end, mode);
            && 1 <= run.attempts <= DefaultMaxRetries
            && (run.outcome.Failure? ==> r == [start, end])
            && (run.outcome.Success? ==>
                  r == answer(first + run.attempts - 1, SimpleRequest(start, end, mode)).value.path)
  {
    RetryCharacterized(answer, first, SimpleRequest(start, end, mode), DefaultMaxRetries);
  }

  /** The provider model's methods that drive the snapping. */
  method SnapSegmentToRoads(m: Runtime, service: DirectionsService, segment: seq<LatLng>,
                            maxWaypoints: int, mode: TravelMode) returns (path: seq<LatLng>)
    modifies service
    ensures var run := SnapSegment(service.answer, |old(service.sent)|, segment,
                                   SegmentRequest(m, segment, maxWaypoints, mode));
            path == run.path && service.sent == old(service.sent) + run.sent
            && service.waits == old(service.waits) + run.waits
  {
    var request := BuildSegmentRequest(m, segment, maxWaypoints, mode);
    if request.None? {
      return segment;
    }
    var result := service.GetDirectionsWithRetry(request.value, DefaultMaxRetries);
    if result.Success? {
      path := result.value.path;
    } else {
      path := segment;
    }
  }

  /**
   * The part of snapSegmentToRoads before the provider call: the key points,
   * resampled when there are more than maxWaypoints, and the request from
   * the first to the last through the others.
   */
  method BuildSegmentRequest(m: Runtime, segment: seq<LatLng>, maxWaypoints: int, mode: TravelMode)
    returns (request: Option<DirectionsRequest>)
    ensures request == SegmentRequest(m, segment, maxWaypoints, mode)
  {
    if |segment| < 2 {
      return None;
    }
    var keyPoints := ExtractKeyPointsLoop(m, segment, maxWaypoints, DefaultMinAngleChange);
    ExtractKeyPointsShape(m, segment, maxWaypoints, DefaultMinAngleChange);
    var waypoints := keyPoints;
    if |keyPoints| > maxWaypoints {
      waypoints := SamplePointsByDistanceLoop(m, keyPoints, maxWaypoints);
    }
    assert waypoints == SegmentWaypoints(m, segment, maxWaypoints);
    if |waypoints| < 2 {
      return None;
    }
    request := Some(DirectionsRequest(waypoints[0], waypoints[|waypoints| - 1], waypoints[1..|waypoints| - 1], mode));
  }

  /**
   * snapToRoads with its chunk loop: the reported progress values are
   * returned alongside the route.
   */
  method SnapToRoads(m: Runtime, service: DirectionsService, idealPath: seq<LatLng>, options: SnapOptions)
    returns (r: Result<seq<LatLng>>, progress: seq<real>)
    modifies service
    ensures var run := SnapRoute(m, service.answer, |old(service.sent)|, idealPath, options);
            r == run.outcome && progress == run.progress
            && service.sent == old(service.sent) + run.sent && service.waits == old(service.waits) + run.waits
  {
    if |idealPath| < 2 {
      return Failure(TooShortMessage), [];
    }
    r, progress := SnapLongPath(m, service, idealPath, options);
  }

  /** snapToRoads for a path of two points or more. */
  method SnapLongPath(m: Runtime, service: DirectionsService, idealPath: seq<LatLng>, options: SnapOptions)
    returns (r: Result<seq<LatLng>>, progress: seq<real>)
    requires |idealPath| >= 2
    modifies service
    ensures var segments := DivideIntoSegments(idealPath, options.numSegments);
            var run := SnapChunks(m, service.answer, |old(service.sent)|, segments, options);
            var merged := MergeSegments(m, run.snapped);
            && r == (if merged.Success? then merged else Failure(SnapFailedPrefix + TypeErrorPrefix + merged.error))
            && progress == RouteProgress(|segments|, merged.Success?)
            && service.sent == old(service.sent) + run.sent && service.waits == old(service.waits) + run.waits
  {
    progress := [10.0];
    var segments := DivideIntoSegmentsLoop(idealPath, options.numSegments);
    progress := progress + [20.0];
    var snapped, chunkProgress := SnapChunksLoop(m, service, segments, options);
    progress := progress + chunkProgress + [85.0];
    ghost var reported := progress;
    var merged := MergeSegmentsLoop(m, snapped);
    if merged.Failure? {
      r := Failure(SnapFailedPrefix + TypeErrorPrefix + merged.error);
    } else {
      progress := progress + [95.0];
      r := merged;
    }
    RouteProgressParts(|segments|, merged.Success?, chunkProgress, reported, progress);
  }

  lemma RouteProgressParts(count: nat, merged: bool, chunks: seq<real>, reported: seq<real>, progress: seq<real>)
    requires chunks == SegmentProgresses(count, count) && reported == [10.0] + [20.0] + chunks + [85.0]
    requires progress == if merged then reported + [95.0] else reported
    ensures progress == RouteProgress(count, merged)
  {
    assert reported == [10.0, 20.0] + chunks + [85.0];
  }

  /**
   * The chunk loop of snapToRoads: one report before each chunk, then the
   * chunk snapped and the pause after it.
   */
  method SnapChunksLoop(m: Runtime, service: DirectionsService, segments: seq<seq<LatLng>>, options: SnapOptions)
    returns (snapped: seq<seq<LatLng>>, progress: seq<real>)
    modifies service
    ensures var run := SnapChunks(m, service.answer, |old(service.sent)|, segments, options);
            snapped == run.snapped && progress == SegmentProgresses(|segments|, |segments|)
            && service.sent == old(service.sent) + run.sent && service.waits == old(service.waits) + run.waits
  {
    ghost var start := |service.sent|;
    ghost var sent0 := service.sent;
    ghost var waits0 := service.waits;
    var maxWaypoints := options.maxWaypointsPerSegment;
    var mode := options.travelMode;
    snapped := [];
    progress := [];
    ghost var requests := SegmentRequests(m, segments, maxWaypoints, mode);
    ghost var pass := ChunkPasses(service.answer, segments, requests);
    for i := 0 to |segments|
      invariant SnapTracks(pass, start, |segments|, i, sent0, waits0, service.sent, service.waits, snapped)
      invariant progress == SegmentProgresses(|segments|, i)
    {
      progress := progress + [SegmentProgress(i, |segments|)];
      ghost var sentHere := service.sent;
      ghost var waitsHere := service.waits;
      var path := SnapStep(m, service, segments, requests, pass, i, maxWaypoints, mode);
      SnapFoldStep(pass, start, |segments|, i, sent0, waits0, sentHere, waitsHere, snapped,
                   service.sent, service.waits, path);
      snapped := snapped + [path];
    }
  }

  /** One pass of snapToRoads' chunk loop: snap chunk i, then pause unless it is the last. */
  method SnapStep(m: Runtime, service: DirectionsService, segments: seq<seq<LatLng>>,
                  ghost requests: seq<Option<DirectionsRequest>>, ghost pass: ChunkPass, i: nat,
                  maxWaypoints: int, mode: TravelMode) returns (path: seq<LatLng>)
    requires i < |segments|
    requires requests == SegmentRequests(m, segments, maxWaypoints, mode)
    requires pass == ChunkPasses(service.answer, segments, requests)
    modifies service
    ensures var here := pass(|old(service.sent)|, i);
            && path == here.path && service.sent == old(service.sent) + here.sent
            && service.waits == old(service.waits) + here.waits + Pause(i + 1, |segments|)
  {
    path := SnapSegmentToRoads(m, service, segments[i], maxWaypoints, mode);
    if i < |segments| - 1 {
      service.Sleep(SegmentDelay);
    }
  }

  /** snapSimple. */
  method SnapSimple(service: DirectionsService, start: LatLng, end: LatLng, mode: TravelMode)
    returns (path: seq<LatLng>)
    modifies service
    ensures path == SnapSimpleSpec(service.answer, |old(service.sent)|, start, end, mode)
    ensures var run := Retry(service.answer, |old(service.sent)|, SimpleRequest(start, end, mode), DefaultMaxRetries);
            service.sent == old(service.sent) + Repeat(SimpleRequest(start, end, mode), run.attempts)
            && service.waits == old(service.waits) + run.waits
  {
    var result := service.GetDirectionsWithRetry(SimpleRequest(start, end, mode), DefaultMaxRetries);
    if result.Success? {
      path := result.value.path;
    } else {
      path := [start, end];
    }
  }

  /** isLocationRoutable: whether the northward probe gets directions. */
  method IsLocationRoutable(service: DirectionsService, location: LatLng) returns (routable: bool)
    modifies service
    ensures var run := Retry(service.answer, |old(service.sent)|, RoutabilityRequest(location), DefaultMaxRetries);
            (routable <==> run.outcome.Success?)
            && service.sent == old(service.sent) + Repeat(RoutabilityRequest(location), run.attempts)
            && service.waits == old(service.waits) + run.waits
  {
    var result := service.GetDirectionsWithRetry(RoutabilityRequest(location), DefaultMaxRetries);
    routable := result.Success?;
  }
}
