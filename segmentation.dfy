// src/lib/routing/segmentation.ts: cutting a route into overlapping chunks
// for the directions provider, picking the waypoints of a chunk, resampling
// by distance, thinning, comparing and merging routes back together.

module Segmentation {
  import opened Types
  import opened Seqs
  import opened Distance

  /** Math.ceil(a / b) for a whole a >= 0 and b >= 1. */
  function CeilDiv(a: int, b: int): (k: int)
    requires a >= 0 && b >= 1
    ensures (k - 1) * b < a <= k * b
    ensures a > 0 ==> k >= 1
  {
    var q := (a + b - 1) / b;
    assert q * b + (a + b - 1) % b == a + b - 1;
    q
  }

  function IntMin(a: int, b: int): int { if a <= b then a else b }

  /** Index of the first point of chunk i: i * pointsPerSegment, counted up chunk by chunk. */
  function SegmentStart(k: int, i: int): (r: int)
    requires k >= 1 && i >= 0
    ensures r >= i
    decreases i
  {
    if i == 0 then 0 else SegmentStart(k, i - 1) + k
  }

  lemma {:induction false} StartIsProduct(k: int, i: int)
    requires k >= 1 && i >= 0
    ensures SegmentStart(k, i) == i * k
    decreases i
  {
    if i > 0 {
      StartIsProduct(k, i - 1);
    }
  }

  /** One past the last point of chunk i: it overlaps the next chunk by one point. */
  function SegmentEnd(k: int, i: int, len: int): int
    requires k >= 1 && i >= 0
  {
    IntMin(SegmentStart(k, i + 1) + 1, len)
  }

  lemma {:induction false} StartMonotone(k: int, j: int, i: int)
    requires k >= 1 && 0 <= j <= i
    ensures SegmentStart(k, j) <= SegmentStart(k, i)
    decreases i
  {
    if j < i {
      StartMonotone(k, j, i - 1);
    }
  }

  /** The slice path.slice(start, end) pushed for chunk i. */
  function Segment(path: seq<LatLng>, k: int, i: int): (r: seq<LatLng>)
    requires k >= 1 && i >= 0 && SegmentStart(k, i) < |path|
    ensures |r| > 0
  {
    path[SegmentStart(k, i)..SegmentEnd(k, i, |path|)]
  }

  /** The segments array after the first n iterations of the chunking loop. */
  function Segments(path: seq<LatLng>, k: int, n: int): seq<seq<LatLng>>
    requires k >= 1 && n >= 0
    decreases n
  {
    if n == 0 then []
    else if SegmentStart(k, n - 1) < |path| then Segments(path, k, n - 1) + [Segment(path, k, n - 1)]
    else Segments(path, k, n - 1)
  }

  /** r holds the chunks 0, 1, ..., |r| - 1 of path, in order. */
  predicate Chunked(path: seq<LatLng>, k: int, r: seq<seq<LatLng>>)
    requires k >= 1
  {
    forall j {:trigger r[j]} :: 0 <= j < |r| ==> SegmentStart(k, j) < |path| && r[j] == Segment(path, k, j)
  }

  /**
   * After n iterations the segments are the chunks 0, 1, ... in order, and
   * the loop skipped an index only once chunks had reached the end.
   */
  lemma {:induction false} SegmentsShape(path: seq<LatLng>, k: int, n: int)
    requires k >= 1 && n >= 0
    ensures var r := Segments(path, k, n);
            |r| <= n && Chunked(path, k, r) && (|r| < n ==> SegmentStart(k, |r|) >= |path|)
    decreases n
  {
    if n > 0 {
      SegmentsShape(path, k, n - 1);
      SegmentsGrow(path, k, n);
    }
  }

  /** One iteration of divideIntoSegments' loop keeps the shape SegmentsShape states. */
  lemma SegmentsGrow(path: seq<LatLng>, k: int, n: int)
    requires k >= 1 && n > 0
    requires var r := Segments(path, k, n - 1);
             |r| <= n - 1 && Chunked(path, k, r) && (|r| < n - 1 ==> SegmentStart(k, |r|) >= |path|)
    ensures var r := Segments(path, k, n);
            |r| <= n && Chunked(path, k, r) && (|r| < n ==> SegmentStart(k, |r|) >= |path|)
  {
    if SegmentStart(k, n - 1) < |path| {
      SegmentsCount(path, k, n - 1);
      ChunkedSnoc(path, k, Segments(path, k, n - 1), Segments(path, k, n));
    }
  }

  /** The number of segments after n iterations, and the gap it leaves. */
  lemma {:induction false} SegmentsCount(path: seq<LatLng>, k: int, n: int)
    requires k >= 1 && n >= 0
    ensures var c := |Segments(path, k, n)|;
            c <= n && (c < n ==> SegmentStart(k, c) >= |path|)
            && (SegmentStart(k, n) <= |path| ==> c == n)
    decreases n
  {
    if n > 0 {
      SegmentsCount(path, k, n - 1);
      var c := |Segments(path, k, n - 1)|;
      if c < n - 1 {
        StartMonotone(k, c, n - 1);
        StartMonotone(k, n - 1, n);
      }
    }
  }

  lemma ChunkedSnoc(path: seq<LatLng>, k: int, r: seq<seq<LatLng>>, r': seq<seq<LatLng>>)
    requires k >= 1 && Chunked(path, k, r) && SegmentStart(k, |r|) < |path|
    requires r' == r + [Segment(path, k, |r|)]
    ensures Chunked(path, k, r')
  {
    forall j | 0 <= j < |r'|
      ensures SegmentStart(k, j) < |path| && r'[j] == Segment(path, k, j)
    {
      if j < |r| {
        assert r'[j] == r[j];
      }
    }
  }

  /** The last chunk reaches the end of the path. */
  lemma ChunksReachEnd(path: seq<LatLng>, numSegments: int)
    requires |path| > 0 && numSegments >= 2
    ensures var k := CeilDiv(|path|, numSegments);
            var r := Segments(path, k, numSegments);
            |r| >= 1 && Chunked(path, k, r) && SegmentEnd(k, |r| - 1, |path|) == |path|
  {
    var k := CeilDiv(|path|, numSegments);
    var r := Segments(path, k, numSegments);
    SegmentsShape(path, k, numSegments);
    assert SegmentStart(k, 0) == 0;
    if |r| == numSegments {
      CeilReachesEnd(|path|, numSegments);
    }
  }

  /** ceil(len / n) points per chunk cover the path within n chunks. */
  lemma CeilReachesEnd(len: int, n: int)
    requires len >= 1 && n >= 1
    ensures SegmentStart(CeilDiv(len, n), n) >= len
  {
    StartIsProduct(CeilDiv(len, n), n);
  }

  /** divideIntoSegments. */
  function DivideIntoSegments(path: seq<LatLng>, numSegments: int): seq<seq<LatLng>>
  {
    if |path| == 0 then []
    else if numSegments <= 1 then [path]
    else Segments(path, CeilDiv(|path|, numSegments), numSegments)
  }

  /** divideIntoSegments with its loop. */
  method DivideIntoSegmentsLoop(path: seq<LatLng>, numSegments: int) returns (segments: seq<seq<LatLng>>)
    ensures segments == DivideIntoSegments(path, numSegments)
  {
    if |path| == 0 {
      return [];
    }
    if numSegments <= 1 {
      return [path];
    }
    segments := [];
    var pointsPerSegment := CeilDiv(|path|, numSegments);
    for i := 0 to numSegments
      invariant segments == Segments(path, pointsPerSegment, i)
    {
      var start := i * pointsPerSegment;
      var end := IntMin((i + 1) * pointsPerSegment + 1, |path|);
      StartIsProduct(pointsPerSegment, i);
      StartIsProduct(pointsPerSegment, i + 1);
      if start < |path| {
        segments := segments + [path[start..end]];
      }
    }
  }

  /**
   * For a non-empty path and at least two requested chunks: at most that
   * many chunks, each a non-empty slice starting at a multiple of
   * ceil(len / n) and reaching one point into the next chunk, so that
   * consecutive chunks share their boundary point.
   */
  lemma DivideIntoSegmentsShape(path: seq<LatLng>, numSegments: int)
    requires |path| > 0 && numSegments >= 2
    ensures var r := DivideIntoSegments(path, numSegments);
            var k := CeilDiv(|path|, numSegments);
            1 <= |r| <= numSegments && Chunked(path, k, r)
            && (forall j :: 0 <= j < |r| - 1 ==> Last(r[j]) == r[j + 1][0])
  {
    var k := CeilDiv(|path|, numSegments);
    var r := Segments(path, k, numSegments);
    SegmentsShape(path, k, numSegments);
    assert SegmentStart(k, 0) == 0;
    forall j | 0 <= j < |r| - 1
      ensures Last(r[j]) == r[j + 1][0]
    {
      ChunkBoundary(path, k, j);
    }
  }

  /** Chunk j ends on the first point of chunk j + 1. */
  lemma ChunkBoundary(path: seq<LatLng>, k: int, j: int)
    requires k >= 1 && j >= 0 && SegmentStart(k, j + 1) < |path|
    ensures SegmentStart(k, j) < |path| && Last(Segment(path, k, j)) == Segment(path, k, j + 1)[0]
  {
  }

  /** The distance below which a chunk's first point is taken for the merged tail. */
  const BoundaryDistance: real := 10.0

  /**
   * The message of the TypeError a JavaScript engine raises when the merge
   * reads the first point of an empty segment and then its latitude.
   */
  const UndefinedPointError: string := "Cannot read properties of undefined (reading 'lat')"

  /**
   * One push of mergeSegments. Reading the first point of an empty segment
   * is harmless while nothing has been merged (the `&&` short-circuits), and
   * throws once there is a tail to compare it with.
   */
  function MergeStep(m: Runtime, merged: seq<LatLng>, segment: seq<LatLng>): Result<seq<LatLng>>
  {
    if |merged| > 0 && |segment| == 0 then Failure(UndefinedPointError)
    else if |merged| > 0 && m.haversine(Last(merged), segment[0]) < BoundaryDistance then Success(merged + segment[1..])
    else Success(merged + segment)
  }

  /** The merged array after the first n segments, stopping at the first throw. */
  function MergeSegmentsFold(m: Runtime, segments: seq<seq<LatLng>>, n: int): Result<seq<LatLng>>
    requires 1 <= n <= |segments|
    decreases n
  {
    if n == 1 then Success(segments[0])
    else
      match MergeSegmentsFold(m, segments, n - 1)
      case Failure(e) => Failure(e)
      case Success(merged) => MergeStep(m, merged, segments[n - 1])
  }

  /** mergeSegments. */
  function MergeSegments(m: Runtime, segments: seq<seq<LatLng>>): Result<seq<LatLng>>
  {
    if |segments| == 0 then Success([]) else MergeSegmentsFold(m, segments, |segments|)
  }

  /** mergeSegments with its loop. */
  method MergeSegmentsLoop(m: Runtime, segments: seq<seq<LatLng>>) returns (r: Result<seq<LatLng>>)
    ensures r == MergeSegments(m, segments)
  {
    if |segments| == 0 {
      return Success([]);
    }
    var merged := segments[0];
    for i := 1 to |segments|
      invariant MergeSegmentsFold(m, segments, i) == Success(merged)
    {
      var segment := segments[i];
      if |merged| > 0 && |segment| == 0 {
        FailureSticks(m, segments, i + 1, UndefinedPointError);
        return Failure(UndefinedPointError);
      }
      var startIndex := if |merged| > 0 && m.haversine(merged[|merged| - 1], segment[0]) < 10.0 then 1 else 0;
      merged := merged + segment[startIndex..];
    }
    r := Success(merged);
  }

  /** Once the merge has thrown, later segments leave the error as it is. */
  lemma {:induction false} FailureSticks(m: Runtime, segments: seq<seq<LatLng>>, n: int, e: string)
    requires 1 <= n <= |segments| && MergeSegmentsFold(m, segments, n) == Failure(e)
    ensures MergeSegmentsFold(m, segments, |segments|) == Failure(e)
    decreases |segments| - n
  {
    if n < |segments| {
      FailureSticks(m, segments, n + 1, e);
    }
  }

  /** Some segment holds points and a later one is empty. */
  ghost predicate EmptyAfterPoints(segments: seq<seq<LatLng>>, n: int)
    requires n <= |segments|
  {
    exists i, j :: 0 <= j < i < n && |segments[j]| > 0 && |segments[i]| == 0
  }

  /**
   * The merge of the first n segments throws exactly when an empty segment
   * follows one with points, and then with the TypeError; otherwise the
   * merged list is empty exactly when all those segments are.
   */
  lemma {:induction false} MergeSegmentsFoldFails(m: Runtime, segments: seq<seq<LatLng>>, n: int)
    requires 1 <= n <= |segments|
    ensures MergeSegmentsFold(m, segments, n).Failure? <==> EmptyAfterPoints(segments, n)
    ensures MergeSegmentsFold(m, segments, n).Failure? ==> MergeSegmentsFold(m, segments, n).error == UndefinedPointError
    ensures MergeSegmentsFold(m, segments, n).Success? ==>
              (|MergeSegmentsFold(m, segments, n).value| > 0 <==> exists j :: 0 <= j < n && |segments[j]| > 0)
    decreases n
  {
    if n > 1 {
      MergeSegmentsFoldFails(m, segments, n - 1);
      if EmptyAfterPoints(segments, n - 1) {
        var i, j :| 0 <= j < i < n - 1 && |segments[j]| > 0 && |segments[i]| == 0;
        assert 0 <= j < i < n;
      }
      if EmptyAfterPoints(segments, n) && !EmptyAfterPoints(segments, n - 1) {
        var i, j :| 0 <= j < i < n && |segments[j]| > 0 && |segments[i]| == 0;
        assert i == n - 1;
        assert 0 <= j < n - 1 && |segments[j]| > 0;
      }
    }
  }

  /**
   * mergeSegments throws exactly when an empty segment follows one with
   * points, and the error is then the TypeError.
   */
  lemma MergeSegmentsFails(m: Runtime, segments: seq<seq<LatLng>>)
    ensures MergeSegments(m, segments).Failure? <==> EmptyAfterPoints(segments, |segments|)
    ensures MergeSegments(m, segments).Failure? ==> MergeSegments(m, segments).error == UndefinedPointError
  {
    if |segments| > 0 {
      MergeSegmentsFoldFails(m, segments, |segments|);
    } else {
      assert !EmptyAfterPoints(segments, 0);
    }
  }

  /** Every chunk after the first has a first point to compare with the merged tail. */
  predicate Mergeable(segments: seq<seq<LatLng>>)
  {
    forall i :: 1 <= i < |segments| ==> |segments[i]| > 0
  }

  /** One push of mergeSegments onto a segment that has a first point. */
  function MergeInto(m: Runtime, merged: seq<LatLng>, segment: seq<LatLng>): (r: seq<LatLng>)
    requires |segment| > 0
    ensures MergeStep(m, merged, segment) == Success(r)
  {
    if |merged| > 0 && m.haversine(Last(merged), segment[0]) < BoundaryDistance then merged + segment[1..]
    else merged + segment
  }

  /** The merged array after the first n segments, when none after the first is empty. */
  function MergeFold(m: Runtime, segments: seq<seq<LatLng>>, n: int): seq<LatLng>
    requires 1 <= n <= |segments| && Mergeable(segments)
    decreases n
  {
    if n == 1 then segments[0] else MergeInto(m, MergeFold(m, segments, n - 1), segments[n - 1])
  }

  /** Without an empty segment after the first, mergeSegments never throws and computes MergeFold. */
  lemma {:induction false} MergeFoldAgrees(m: Runtime, segments: seq<seq<LatLng>>, n: int)
    requires 1 <= n <= |segments| && Mergeable(segments)
    ensures MergeSegmentsFold(m, segments, n) == Success(MergeFold(m, segments, n))
    decreases n
  {
    if n > 1 {
      MergeFoldAgrees(m, segments, n - 1);
      assert |segments[n - 1]| > 0;
    }
  }

  /** A chunk that starts on the merged tail point contributes only its remaining points. */
  lemma MergeIntoRepeated(m: Runtime, path: seq<LatLng>, s: int, e: int)
    requires 0 <= s < e <= |path|
    ensures MergeInto(m, path[..s + 1], path[s..e]) == path[..e]
  {
    SliceJoin(path, s, e);
  }

  /** Merging the first i chunks of a path gives the path up to the end of chunk i - 1. */
  lemma {:induction false} MergeChunks(m: Runtime, path: seq<LatLng>, k: int, r: seq<seq<LatLng>>, i: int)
    requires k >= 1 && Chunked(path, k, r) && Mergeable(r) && 1 <= i <= |r|
    ensures MergeFold(m, r, i) == path[..SegmentEnd(k, i - 1, |path|)]
    decreases i
  {
    if i == 1 {
      assert SegmentStart(k, 0) == 0;
    } else {
      MergeChunks(m, path, k, r, i - 1);
      MergeChunkStep(m, path, k, r, i);
    }
  }

  /** Merging chunk i - 1 onto the path up to its first point extends it to the chunk's end. */
  lemma MergeChunkStep(m: Runtime, path: seq<LatLng>, k: int, r: seq<seq<LatLng>>, i: int)
    requires k >= 1 && Chunked(path, k, r) && Mergeable(r) && 2 <= i <= |r|
    requires MergeFold(m, r, i - 1) == path[..SegmentEnd(k, i - 2, |path|)]
    ensures MergeFold(m, r, i) == path[..SegmentEnd(k, i - 1, |path|)]
  {
    assert SegmentStart(k, i - 1) < |path| && r[i - 1] == Segment(path, k, i - 1);
    var s := SegmentStart(k, i - 1);
    var e := SegmentEnd(k, i - 1, |path|);
    assert SegmentEnd(k, i - 2, |path|) == s + 1;
    MergeIntoRepeated(m, path, s, e);
  }

  /** Chunks are never empty. */
  lemma ChunkedMergeable(path: seq<LatLng>, k: int, r: seq<seq<LatLng>>)
    requires k >= 1 && Chunked(path, k, r)
    ensures Mergeable(r)
  {
  }

  /** Merging the chunks of a path gives back the path, without a throw. */
  lemma MergeDividedPath(m: Runtime, path: seq<LatLng>, numSegments: int)
    ensures Mergeable(DivideIntoSegments(path, numSegments))
    ensures MergeSegments(m, DivideIntoSegments(path, numSegments)) == Success(path)
  {
    if |path| > 0 && numSegments >= 2 {
      MergeEvenChunks(m, path, numSegments);
    } else if |path| > 0 {
      assert DivideIntoSegments(path, numSegments) == [path];
    }
  }

  /** The case of MergeDividedPath where the path is cut into ceil(|path| / numSegments)-point chunks. */
  lemma MergeEvenChunks(m: Runtime, path: seq<LatLng>, numSegments: int)
    requires |path| > 0 && numSegments >= 2
    ensures var r := Segments(path, CeilDiv(|path|, numSegments), numSegments);
            Mergeable(r) && MergeSegments(m, r) == Success(path)
  {
    var k := CeilDiv(|path|, numSegments);
    ChunksReachEnd(path, numSegments);
    MergeAllChunks(m, path, k, Segments(path, k, numSegments));
  }

  /** Chunks that reach the end of the path merge back into the whole path. */
  lemma MergeAllChunks(m: Runtime, path: seq<LatLng>, k: int, r: seq<seq<LatLng>>)
    requires k >= 1 && |r| >= 1 && Chunked(path, k, r) && SegmentEnd(k, |r| - 1, |path|) == |path|
    ensures Mergeable(r) && MergeSegments(m, r) == Success(path)
  {
    ChunkedMergeable(path, k, r);
    MergeChunks(m, path, k, r, |r|);
    MergeFoldAgrees(m, r, |r|);
    assert path[..|path|] == path;
  }


  /** The default tolerance of simplifyGeoPath, in metres. */
  const DefaultGeoTolerance: real := 50.0

  /** The result array and lastKept index of simplifyGeoPath. */
  datatype Thinning = Thinning(result: seq<LatLng>, lastKept: int)

  /** The state of simplifyGeoPath's loop after the iterations i = 1 .. n - 1. */
  function ThinFold(m: Runtime, path: seq<LatLng>, tolerance: real, n: int): (r: Thinning)
    requires 1 <= n < |path|
    ensures 0 <= r.lastKept < n
    decreases n
  {
    if n == 1 then Thinning([path[0]], 0)
    else KeepIfApart(m, path, tolerance, ThinFold(m, path, tolerance, n - 1), n - 1)
  }

  /** Iteration i: path[i] is kept when it is at least tolerance from path[lastKept]. */
  function KeepIfApart(m: Runtime, path: seq<LatLng>, tolerance: real, st: Thinning, i: int): (r: Thinning)
    requires 0 <= st.lastKept < i < |path|
    ensures r.lastKept == st.lastKept || r.lastKept == i
  {
    if m.haversine(path[st.lastKept], path[i]) >= tolerance then Thinning(st.result + [path[i]], i) else st
  }

  /** simplifyGeoPath. */
  function SimplifyGeoPath(m: Runtime, path: seq<LatLng>, tolerance: real): seq<LatLng>
  {
    if |path| <= 2 then path else ThinFold(m, path, tolerance, |path| - 1).result + [Last(path)]
  }

  /** Consecutive points of s are at least tolerance apart. */
  predicate Spaced(m: Runtime, s: seq<LatLng>, tolerance: real)
  {
    forall j :: 1 <= j < |s| ==> m.haversine(s[j - 1], s[j]) >= tolerance
  }

  /**
   * The loop invariant of simplifyGeoPath after the points before index n:
   * the result starts at path[0], ends at path[lastKept], is a subsequence
   * of the points seen so far, and each kept point is at least tolerance
   * from the one kept before it.
   */
  predicate ThinInvariant(m: Runtime, path: seq<LatLng>, tolerance: real, st: Thinning, n: int)
    requires 0 <= st.lastKept < n <= |path|
  {
    |st.result| > 0 && st.result[0] == path[0] && Last(st.result) == path[st.lastKept]
    && IsSubsequence(st.result, path[..n]) && Spaced(m, st.result, tolerance)
  }

  lemma KeepIfApartKeeps(m: Runtime, path: seq<LatLng>, tolerance: real, st: Thinning, i: int)
    requires 0 <= st.lastKept < i < |path| && ThinInvariant(m, path, tolerance, st, i)
    ensures ThinInvariant(m, path, tolerance, KeepIfApart(m, path, tolerance, st, i), i + 1)
  {
    PrefixSnoc(path, i);
    if m.haversine(path[st.lastKept], path[i]) >= tolerance {
      SubsequenceSnoc(st.result, path[..i], path[i]);
      SpacedSnoc(m, st.result, path[i], tolerance);
    } else {
      SubsequenceExtend(st.result, path[..i], path[i]);
    }
  }

  lemma {:induction false} ThinFoldShape(m: Runtime, path: seq<LatLng>, tolerance: real, n: int)
    requires 1 <= n < |path|
    ensures ThinInvariant(m, path, tolerance, ThinFold(m, path, tolerance, n), n)
    decreases n
  {
    if n == 1 {
      ThinStartKeeps(m, path, tolerance);
    } else {
      ThinFoldShape(m, path, tolerance, n - 1);
      ThinFoldStep(m, path, tolerance, n);
    }
  }

  lemma ThinFoldStep(m: Runtime, path: seq<LatLng>, tolerance: real, n: int)
    requires 1 < n < |path| && ThinInvariant(m, path, tolerance, ThinFold(m, path, tolerance, n - 1), n - 1)
    ensures ThinInvariant(m, path, tolerance, ThinFold(m, path, tolerance, n), n)
  {
    var st := ThinFold(m, path, tolerance, n - 1);
    assert ThinFold(m, path, tolerance, n) == KeepIfApart(m, path, tolerance, st, n - 1);
    KeepIfApartKeeps(m, path, tolerance, st, n - 1);
  }

  /** Before the loop: the result holds path[0] alone. */
  lemma ThinStartKeeps(m: Runtime, path: seq<LatLng>, tolerance: real)
    requires 1 < |path|
    ensures ThinInvariant(m, path, tolerance, Thinning([path[0]], 0), 1)
  {
    SubsequenceRefl([path[0]]);
    assert path[..1] == [path[0]];
  }

  lemma SpacedSnoc(m: Runtime, s: seq<LatLng>, x: LatLng, tolerance: real)
    requires |s| > 0 && Spaced(m, s, tolerance) && m.haversine(Last(s), x) >= tolerance
    ensures Spaced(m, s + [x], tolerance)
  {
  }

  /**
   * simplifyGeoPath returns up to two points unchanged; otherwise it keeps
   * the first and the last point, keeps an order-preserving subsequence, and
   * every kept point before the last is at least tolerance from the point
   * kept before it.
   */
  lemma SimplifyGeoPathShape(m: Runtime, path: seq<LatLng>, tolerance: real)
    ensures var r := SimplifyGeoPath(m, path, tolerance);
            (|path| <= 2 ==> r == path)
            && (|path| > 2 ==>
                  r[0] == path[0] && Last(r) == Last(path) && IsSubsequence(r, path) && |r| <= |path|
                  && Spaced(m, DropLast(r), tolerance))
  {
    if |path| > 2 {
      var n := |path| - 1;
      ThinFoldShape(m, path, tolerance, n);
      var st := ThinFold(m, path, tolerance, n);
      SubsequenceSnoc(st.result, path[..n], path[n]);
      PrefixSnoc(path, n);
      assert path[..n + 1] == path;
      SnocParts(st.result, Last(path));
      SubsequenceLength(st.result + [Last(path)], path);
    }
  }

  /** simplifyGeoPath with its loop. */
  method SimplifyGeoPathLoop(m: Runtime, path: seq<LatLng>, tolerance: real) returns (result: seq<LatLng>)
    ensures result == SimplifyGeoPath(m, path, tolerance)
  {
    if |path| <= 2 {
      return path;
    }
    result := [path[0]];
    var lastKept := 0;
    for i := 1 to |path| - 1
      invariant Thinning(result, lastKept) == ThinFold(m, path, tolerance, i)
    {
      var distance := m.haversine(path[lastKept], path[i]);
      if distance >= tolerance {
        result := result + [path[i]];
        lastKept := i;
      }
    }
    result := result + [path[|path| - 1]];
  }

  /** pathsAreSimilar: same length and every pair of corresponding points within threshold. */
  predicate PathsAreSimilar(m: Runtime, path1: seq<LatLng>, path2: seq<LatLng>, threshold: real)
  {
    |path1| == |path2| && forall i :: 0 <= i < |path1| ==> m.haversine(path1[i], path2[i]) <= threshold
  }

  /** pathsAreSimilar with its early-return loop. */
  method PathsAreSimilarLoop(m: Runtime, path1: seq<LatLng>, path2: seq<LatLng>, threshold: real)
    returns (similar: bool)
    ensures similar == PathsAreSimilar(m, path1, path2, threshold)
  {
    if |path1| != |path2| {
      return false;
    }
    for i := 0 to |path1|
      invariant forall j :: 0 <= j < i ==> m.haversine(path1[j], path2[j]) <= threshold
    {
      var distance := m.haversine(path1[i], path2[i]);
      if distance > threshold {
        return false;
      }
    }
    return true;
  }

  /** A path is similar to itself for any threshold that is not negative. */
  lemma SimilarToItself(m: Runtime, path: seq<LatLng>, threshold: real)
    requires threshold >= 0.0
    ensures PathsAreSimilar(m, path, path, threshold)
  {
  }

  /** Similarity with a larger threshold follows from similarity with a smaller one. */
  lemma SimilarityWidens(m: Runtime, path1: seq<LatLng>, path2: seq<LatLng>, t1: real, t2: real)
    requires t1 <= t2 && PathsAreSimilar(m, path1, path2, t1)
    ensures PathsAreSimilar(m, path1, path2, t2)
  {
  }

  /** Defaults of extractKeyPoints: 10 waypoints, 5 degrees of turn, a point every 100 m. */
  const DefaultMaxPoints: int := 10
  const DefaultMinAngleChange: real := 5.0
  const KeyPointSpacing: real := 100.0

  /** The keyPoints array and lastDirection of extractKeyPoints (None for null). */
  datatype KeyState = KeyState(keyPoints: seq<LatLng>, lastDirection: Option<real>)

  /** The turn between two bearings, folded into [0, 180] for bearings in [0, 360). */
  function AngleDiff(bearing: real, lastDirection: real): real
  {
    var d := Abs(bearing - lastDirection);
    if d > 180.0 then 360.0 - d else d
  }

  /**
   * Iteration i of extractKeyPoints: a turn of at least minAngleChange from
   * the last direction keeps path[i] (while there is room); otherwise a point
   * more than 100 m from the last kept one is kept (while there is room).
   */
  function KeyStep(m: Runtime, path: seq<LatLng>, maxPoints: int, minAngleChange: real, st: KeyState, i: int)
    : (r: KeyState)
    requires 0 < i < |path| && |st.keyPoints| > 0
    ensures r.keyPoints == st.keyPoints || r.keyPoints == st.keyPoints + [path[i]]
    ensures r.keyPoints != st.keyPoints ==> |st.keyPoints| < maxPoints - 1
  {
    var previous := Last(st.keyPoints);
    var bearing := m.bearing(previous, path[i]);
    var room := |st.keyPoints| < maxPoints - 1;
    if st.lastDirection.Some? && AngleDiff(bearing, st.lastDirection.value) >= minAngleChange && room then
      KeyState(st.keyPoints + [path[i]], Some(bearing))
    else
      var direction := if st.lastDirection.Some? then st.lastDirection else Some(bearing);
      if m.haversine(previous, path[i]) > KeyPointSpacing && room then KeyState(st.keyPoints + [path[i]], Some(bearing))
      else KeyState(st.keyPoints, direction)
  }

  /** The state after the iterations i = 1 .. n - 1 (of at most |path| - 2). */
  function KeyFold(m: Runtime, path: seq<LatLng>, maxPoints: int, minAngleChange: real, n: int): (r: KeyState)
    requires 0 < n <= |path| && (n == 1 || n < |path|)
    ensures |r.keyPoints| > 0
    decreases n
  {
    if n == 1 then KeyState([path[0]], None)
    else KeyStep(m, path, maxPoints, minAngleChange, KeyFold(m, path, maxPoints, minAngleChange, n - 1), n - 1)
  }

  /**
   * extractKeyPoints. A path longer than maxPoints has at least one point
   * unless maxPoints is negative; for an empty path with a negative
   * maxPoints the source reads path[0] and path[-1], which JavaScript
   * answers with undefined rather than an exception, and returns two
   * undefined entries; a LatLng has no such value, so that input is excluded.
   */
  function ExtractKeyPoints(m: Runtime, path: seq<LatLng>, maxPoints: int, minAngleChange: real): seq<LatLng>
    requires |path| > 0 || maxPoints >= 0
  {
    if |path| <= maxPoints then path
    else KeyFold(m, path, maxPoints, minAngleChange, if |path| == 1 then 1 else |path| - 1).keyPoints + [Last(path)]
  }

  /** extractKeyPoints with its loop. */
  method ExtractKeyPointsLoop(m: Runtime, path: seq<LatLng>, maxPoints: int, minAngleChange: real)
    returns (keyPoints: seq<LatLng>)
    requires |path| > 0 || maxPoints >= 0
    ensures keyPoints == ExtractKeyPoints(m, path, maxPoints, minAngleChange)
  {
    if |path| <= maxPoints {
      return path;
    }
    keyPoints := [path[0]];
    var lastDirection: Option<real> := None;
    var i := 1;
    while i < |path| - 1
      invariant 1 <= i <= |path| && (i == 1 || i < |path|)
      invariant KeyState(keyPoints, lastDirection) == KeyFold(m, path, maxPoints, minAngleChange, i)
    {
      var prevPoint := keyPoints[|keyPoints| - 1];
      var currPoint := path[i];
      var bearing := m.bearing(prevPoint, currPoint);
      var turned := false;
      if lastDirection.Some? {
        var angleDiff := Abs(bearing - lastDirection.value);
        if angleDiff > 180.0 {
          angleDiff := 360.0 - angleDiff;
        }
        if angleDiff >= minAngleChange && |keyPoints| < maxPoints - 1 {
          keyPoints := keyPoints + [currPoint];
          lastDirection := Some(bearing);
          turned := true;
        }
      } else {
        lastDirection := Some(bearing);
      }
      if !turned {
        var distanceFromLast := m.haversine(prevPoint, currPoint);
        if distanceFromLast > 100.0 && |keyPoints| < maxPoints - 1 {
          keyPoints := keyPoints + [currPoint];
          lastDirection := Some(bearing);
        }
      }
      i := i + 1;
    }
    keyPoints := keyPoints + [path[|path| - 1]];
  }

  /**
   * The loop keeps path[0] first, keeps a subsequence of the points seen so
   * far, and never grows keyPoints to more than max(1, maxPoints - 1) points.
   */
  lemma {:induction false} KeyFoldShape(m: Runtime, path: seq<LatLng>, maxPoints: int, minAngleChange: real, n: int)
    requires 0 < n <= |path| && (n == 1 || n < |path|)
    ensures var keys := KeyFold(m, path, maxPoints, minAngleChange, n).keyPoints;
            keys[0] == path[0] && IsSubsequence(keys, path[..n])
            && (|keys| == 1 || |keys| <= maxPoints - 1)
    decreases n
  {
    if n == 1 {
      SubsequenceRefl([path[0]]);
      assert path[..1] == [path[0]];
    } else {
      KeyFoldShape(m, path, maxPoints, minAngleChange, n - 1);
      KeyGrowth(path, maxPoints, n, KeyFold(m, path, maxPoints, minAngleChange, n - 1).keyPoints,
                KeyFold(m, path, maxPoints, minAngleChange, n).keyPoints);
    }
  }

  /** One iteration of extractKeyPoints' loop keeps the shape KeyFoldShape states. */
  lemma KeyGrowth(path: seq<LatLng>, maxPoints: int, n: int, keys: seq<LatLng>, keys': seq<LatLng>)
    requires 1 < n <= |path| && |keys| > 0 && keys[0] == path[0] && IsSubsequence(keys, path[..n - 1])
    requires |keys| == 1 || |keys| <= maxPoints - 1
    requires keys' == keys || (keys' == keys + [path[n - 1]] && |keys| < maxPoints - 1)
    ensures keys'[0] == path[0] && IsSubsequence(keys', path[..n]) && (|keys'| == 1 || |keys'| <= maxPoints - 1)
  {
    PrefixSnoc(path, n - 1);
    if keys' == keys {
      SubsequenceExtend(keys, path[..n - 1], path[n - 1]);
    } else {
      SubsequenceSnoc(keys, path[..n - 1], path[n - 1]);
    }
  }

  /**
   * A path of at most maxPoints points comes back unchanged. A longer one of
   * two or more points gives a subsequence that starts and ends with its
   * ends and, for maxPoints >= 2, has at most maxPoints points (corners
   * beyond that limit are dropped too). A single point with maxPoints <= 0
   * comes back twice.
   */
  lemma ExtractKeyPointsShape(m: Runtime, path: seq<LatLng>, maxPoints: int, minAngleChange: real)
    requires |path| > 0 || maxPoints >= 0
    ensures var r := ExtractKeyPoints(m, path, maxPoints, minAngleChange);
            (|path| <= maxPoints ==> r == path)
            && (|path| == 1 && maxPoints <= 0 ==> r == [path[0], path[0]])
            && (|path| > maxPoints && |path| >= 2 ==>
                  |r| >= 2 && r[0] == path[0] && Last(r) == Last(path) && IsSubsequence(r, path)
                  && (maxPoints >= 2 ==> |r| <= maxPoints))
  {
    if |path| > maxPoints && |path| >= 2 {
      LongPathKeyPoints(m, path, maxPoints, minAngleChange);
    }
  }

  /** The case of ExtractKeyPointsShape where the path has two or more points and is longer than maxPoints. */
  lemma LongPathKeyPoints(m: Runtime, path: seq<LatLng>, maxPoints: int, minAngleChange: real)
    requires |path| > maxPoints && |path| >= 2
    ensures var r := ExtractKeyPoints(m, path, maxPoints, minAngleChange);
            |r| >= 2 && r[0] == path[0] && Last(r) == Last(path) && IsSubsequence(r, path)
            && (maxPoints >= 2 ==> |r| <= maxPoints)
  {
    var n := |path| - 1;
    KeyFoldShape(m, path, maxPoints, minAngleChange, n);
    var keys := KeyFold(m, path, maxPoints, minAngleChange, n).keyPoints;
    SubsequenceSnoc(keys, path[..n], path[n]);
    PrefixSnoc(path, n);
    assert path[..n + 1] == path;
    SnocParts(keys, Last(path));
  }

  /**
   * The distances array of samplePointsByDistance: entry i is the length of
   * the path up to point i.
   */
  function Distances(m: Runtime, path: seq<LatLng>): (d: seq<real>)
    ensures |d| == |path|
  {
    seq(|path|, i requires 0 <= i < |path| => SumOfLegs(m, path, i + 1))
  }

  /** The cumulative distances start at 0, never decrease and end at the path's length. */
  lemma DistancesAscending(m: Runtime, path: seq<LatLng>)
    requires |path| >= 1
    ensures Distances(m, path)[0] == 0.0
    ensures Last(Distances(m, path)) == PathDistance(m, path)
    ensures forall a, b :: 0 <= a <= b < |path| ==> Distances(m, path)[a] <= Distances(m, path)[b]
  {
    var d := Distances(m, path);
    forall a, b | 0 <= a <= b < |path|
      ensures d[a] <= d[b]
    {
      SumOfLegsMonotone(m, path, a + 1, b + 1);
    }
  }

  lemma {:induction false} SumOfLegsMonotone(m: Runtime, path: seq<LatLng>, a: int, b: int)
    requires 0 <= a <= b <= |path|
    ensures SumOfLegs(m, path, a) <= SumOfLegs(m, path, b)
    decreases b - a
  {
    if a < b {
      SumOfLegsMonotone(m, path, a, b - 1);
    }
  }

  /**
   * The inner while loop: from pathIndex j, the first index whose distance
   * reaches current, or the length when there is none.
   */
  function Advance(distances: seq<real>, j: int, current: real): (r: int)
    requires 1 <= j <= |distances|
    ensures j <= r <= |distances|
    ensures r < |distances| ==> distances[r] >= current
    ensures r == j || distances[r - 1] < current
    decreases |distances| - j
  {
    if j < |distances| && distances[j] < current then Advance(distances, j + 1, current) else j
  }

  /**
   * Whichever of indices p - 1 and p has its distance closer to the target,
   * the later one on a tie.
   */
  function Closer(distances: seq<real>, p: int, target: real): (c: int)
    requires 1 <= p < |distances|
    ensures c == p - 1 || c == p
  {
    if Abs(distances[p - 1] - target) < Abs(distances[p] - target) then p - 1 else p
  }

  /**
   * The loop state of samplePointsByDistance: the sampledPoints array, the
   * indices of the points pushed after path[0], pathIndex, currentDistance,
   * and whether the loop has broken off.
   */
  datatype SampleState = SampleState(sampled: seq<LatLng>, picked: seq<int>, pathIndex: int, current: real, stopped: bool)

  /** Indices within path and pathIndex within 1 .. |path|. */
  predicate SampleStateInRange(path: seq<LatLng>, st: SampleState)
  {
    1 <= st.pathIndex <= |path| && forall a :: 0 <= a < |st.picked| ==> 0 <= st.picked[a] < |path|
  }

  /**
   * One iteration: advance pathIndex to the target distance; stop if the
   * path ran out; otherwise push whichever of path[pathIndex - 1] and
   * path[pathIndex] is closer to the target and move the target one
   * interval on.
   */
  function SampleStep(path: seq<LatLng>, distances: seq<real>, interval: real, st: SampleState): (r: SampleState)
    requires |distances| == |path| && SampleStateInRange(path, st)
    ensures SampleStateInRange(path, r)
  {
    if st.stopped then st
    else
      var p := Advance(distances, st.pathIndex, st.current);
      if p >= |path| then SampleState(st.sampled, st.picked, p, st.current, true)
      else
        var c := Closer(distances, p, st.current);
        SampleState(st.sampled + [path[c]], st.picked + [c], p, st.current + interval, false)
  }

  /** The state after n iterations of the outer loop. */
  function SampleFold(path: seq<LatLng>, distances: seq<real>, interval: real, n: int): (r: SampleState)
    requires |path| >= 1 && |distances| == |path| && n >= 0
    ensures SampleStateInRange(path, r) && |r.picked| <= n
    decreases n
  {
    if n == 0 then SampleState([path[0]], [], 1, interval, false)
    else SampleStep(path, distances, interval, SampleFold(path, distances, interval, n - 1))
  }

  /** The points of path at the given indices. */
  function PointsAt(path: seq<LatLng>, indices: seq<int>): (r: seq<LatLng>)
    requires forall a :: 0 <= a < |indices| ==> 0 <= indices[a] < |path|
    ensures |r| == |indices|
  {
    seq(|indices|, a requires 0 <= a < |indices| => path[indices[a]])
  }

  /**
   * samplePointsByDistance. Below three samples the loop does not run and
   * the distances are not used. For an empty path with a negative
   * numPoints the source returns [path[0], path[-1]], two undefined entries
   * (JavaScript does not throw on those reads); a LatLng has no such value,
   * so that input is excluded.
   */
  function SamplePointsByDistance(m: Runtime, path: seq<LatLng>, numPoints: int): seq<LatLng>
    requires (|path| > 0 || numPoints >= 0)
  {
    if |path| <= numPoints then path
    else if numPoints < 3 then [path[0], Last(path)]
    else SampleWithDistances(path, Distances(m, path), numPoints)
  }

  /**
   * The sampling of samplePointsByDistance once the distances array is
   * known: numPoints - 2 iterations at a spacing of the whole length over
   * numPoints - 1 intervals, then the last point.
   */
  function SampleWithDistances(path: seq<LatLng>, distances: seq<real>, numPoints: int): seq<LatLng>
    requires |path| > numPoints >= 3 && |distances| == |path|
  {
    var interval := distances[|path| - 1] / (numPoints - 1) as real;
    SampleFold(path, distances, interval, numPoints - 2).sampled + [path[|path| - 1]]
  }

  /** The sampled points are path[0] followed by the points at the picked indices. */
  lemma {:induction false} SampleFoldPoints(path: seq<LatLng>, distances: seq<real>, interval: real, n: int)
    requires |path| >= 1 && |distances| == |path| && n >= 0
    ensures var st := SampleFold(path, distances, interval, n);
            (forall a :: 0 <= a < |[0] + st.picked| ==> 0 <= ([0] + st.picked)[a] < |path|)
            && st.sampled == PointsAt(path, [0] + st.picked)
    decreases n
  {
    if n > 0 {
      SampleFoldPoints(path, distances, interval, n - 1);
      var st := SampleFold(path, distances, interval, n - 1);
      var next := SampleFold(path, distances, interval, n);
      if next.picked != st.picked {
        var c := Last(next.picked);
        assert next.picked == st.picked + [c] && next.sampled == st.sampled + [path[c]];
        PointsAtSnoc(path, [0] + st.picked, c);
        assert [0] + (st.picked + [c]) == [0] + st.picked + [c];
      }
    }
  }

  /**
   * The facts that keep the picked indices in order: the distance at
   * pathIndex - 1 has not passed the last target, and a pick of pathIndex
   * itself was at least as close to the last target as pathIndex - 1.
   */
  predicate SampleInvariant(path: seq<LatLng>, distances: seq<real>, interval: real, st: SampleState)
    requires |distances| == |path| && SampleStateInRange(path, st)
  {
    (forall a, b :: 0 <= a < b < |st.picked| ==> st.picked[a] <= st.picked[b])
    && (forall a :: 0 <= a < |st.picked| ==> st.picked[a] <= st.pathIndex)
    && (!st.stopped ==>
          distances[st.pathIndex - 1] <= st.current - interval
          && (|st.picked| > 0 && Last(st.picked) == st.pathIndex ==>
                distances[st.pathIndex] + distances[st.pathIndex - 1] <= 2.0 * (st.current - interval)))
  }

  lemma SampleStepKeeps(path: seq<LatLng>, distances: seq<real>, interval: real, st: SampleState)
    requires |distances| == |path| && interval >= 0.0 && SampleStateInRange(path, st)
    requires SampleInvariant(path, distances, interval, st)
    ensures SampleInvariant(path, distances, interval, SampleStep(path, distances, interval, st))
  {
    if !st.stopped {
      var p := Advance(distances, st.pathIndex, st.current);
      if p < |path| {
        SamplePickKeeps(path, distances, interval, st, p, Closer(distances, p, st.current));
      }
    }
  }

  /** A pass that pushes a point keeps the picks in order. */
  lemma SamplePickKeeps(path: seq<LatLng>, distances: seq<real>, interval: real, st: SampleState, p: int, c: int)
    requires |distances| == |path| && interval >= 0.0 && SampleStateInRange(path, st) && !st.stopped
    requires SampleInvariant(path, distances, interval, st)
    requires p == Advance(distances, st.pathIndex, st.current) && p < |path| && c == Closer(distances, p, st.current)
    ensures SampleInvariant(path, distances, interval, SampleState(st.sampled + [path[c]], st.picked + [c], p, st.current + interval, false))
  {
    var t := st.current;
    assert distances[p - 1] <= t;
    if |st.picked| > 0 && Last(st.picked) == p {
      assert c == p;
    }
  }

  lemma {:induction false} SampleFoldInOrder(path: seq<LatLng>, distances: seq<real>, interval: real, n: int)
    requires |path| >= 1 && |distances| == |path| && n >= 0
    requires distances[0] <= 0.0 && interval >= 0.0
    ensures SampleInvariant(path, distances, interval, SampleFold(path, distances, interval, n))
    decreases n
  {
    if n > 0 {
      SampleFoldInOrder(path, distances, interval, n - 1);
      SampleStepKeeps(path, distances, interval, SampleFold(path, distances, interval, n - 1));
    }
  }

  /**
   * Once the loop has broken off it stays broken off and pushes nothing
   * more: the break leaves the same points as running the remaining
   * iterations would.
   */
  lemma {:induction false} SampleFoldStopped(path: seq<LatLng>, distances: seq<real>, interval: real, n: int, n': int)
    requires |path| >= 1 && |distances| == |path| && 0 <= n <= n'
    requires SampleFold(path, distances, interval, n).stopped
    ensures SampleFold(path, distances, interval, n') == SampleFold(path, distances, interval, n)
    decreases n'
  {
    if n < n' {
      SampleFoldStopped(path, distances, interval, n, n' - 1);
    }
  }

  /**
   * samplePointsByDistance returns a path of at most numPoints points
   * unchanged. Otherwise (a non-empty path) it returns the points at indices
   * that start at 0, end at the last index and never decrease (so a point
   * may repeat); for numPoints >= 2 there are at most numPoints of them.
   */
  lemma SamplePointsByDistanceShape(m: Runtime, path: seq<LatLng>, numPoints: int) returns (indices: seq<int>)
    requires (|path| > 0 || numPoints >= 0)
    ensures var r := SamplePointsByDistance(m, path, numPoints);
            (|path| <= numPoints ==> r == path)
            && (|path| > numPoints ==>
                  (forall a :: 0 <= a < |indices| ==> 0 <= indices[a] < |path|)
                  && r == PointsAt(path, indices) && |indices| >= 2
                  && indices[0] == 0 && Last(indices) == |path| - 1
                  && (forall a, b :: 0 <= a < b < |indices| ==> indices[a] <= indices[b])
                  && (numPoints >= 2 ==> |r| <= numPoints))
  {
    if |path| <= numPoints {
      indices := [];
    } else if numPoints < 3 {
      indices := [0, |path| - 1];
    } else {
      DistancesAscending(m, path);
      indices := SampleWithDistancesShape(path, Distances(m, path), numPoints);
    }
  }

  /**
   * Over distances that start at 0 and end non-negative, the samples are the
   * points at indices that start at 0, end at the last index, never
   * decrease and number at most numPoints.
   */
  lemma SampleWithDistancesShape(path: seq<LatLng>, distances: seq<real>, numPoints: int) returns (indices: seq<int>)
    requires |path| > numPoints >= 3 && |distances| == |path|
    requires distances[0] <= 0.0 && distances[|path| - 1] >= 0.0
    ensures var r := SampleWithDistances(path, distances, numPoints);
            (forall a :: 0 <= a < |indices| ==> 0 <= indices[a] < |path|)
            && r == PointsAt(path, indices) && |indices| >= 2
            && indices[0] == 0 && Last(indices) == |path| - 1
            && (forall a, b :: 0 <= a < b < |indices| ==> indices[a] <= indices[b])
            && |r| <= numPoints
  {
    var interval := distances[|path| - 1] / (numPoints - 1) as real;
    SampleFoldInOrder(path, distances, interval, numPoints - 2);
    SampleFoldPoints(path, distances, interval, numPoints - 2);
    var st := SampleFold(path, distances, interval, numPoints - 2);
    var picked := st.picked;
    indices := [0] + picked + [|path| - 1];
    PointsAtSnoc(path, [0] + picked, |path| - 1);
    BracketedInOrder(picked, |path| - 1);
  }

  /** Indices in order within [0, last], with 0 before them and last after them, are still in order. */
  lemma BracketedInOrder(picked: seq<int>, last: int)
    requires forall a :: 0 <= a < |[0] + picked| ==> 0 <= ([0] + picked)[a] <= last
    requires forall a, b :: 0 <= a < b < |picked| ==> picked[a] <= picked[b]
    ensures var indices := [0] + picked + [last];
            forall a, b :: 0 <= a < b < |indices| ==> indices[a] <= indices[b]
  {
    var indices := [0] + picked + [last];
    forall a, b | 0 <= a < b < |indices|
      ensures indices[a] <= indices[b]
    {
      if 0 < a && b < |indices| - 1 {
        assert indices[a] == picked[a - 1] && indices[b] == picked[b - 1];
      } else if a == 0 && b < |indices| - 1 {
        assert indices[b] == ([0] + picked)[b];
      } else if 0 < a {
        assert indices[a] == ([0] + picked)[a];
      }
    }
  }

  lemma PointsAtSnoc(path: seq<LatLng>, indices: seq<int>, c: int)
    requires forall a :: 0 <= a < |indices| ==> 0 <= indices[a] < |path|
    requires 0 <= c < |path|
    ensures PointsAt(path, indices + [c]) == PointsAt(path, indices) + [path[c]]
  {
  }

  /** The inner while loop of samplePointsByDistance over the distances array. */
  method AdvanceLoop(distances: seq<real>, start: int, currentDistance: real) returns (pathIndex: int)
    requires 1 <= start <= |distances|
    ensures pathIndex == Advance(distances, start, currentDistance)
  {
    pathIndex := start;
    while pathIndex < |distances| && distances[pathIndex] < currentDistance
      invariant start <= pathIndex <= |distances|
      invariant Advance(distances, pathIndex, currentDistance) == Advance(distances, start, currentDistance)
      decreases |distances| - pathIndex
    {
      pathIndex := pathIndex + 1;
    }
  }

  /**
   * One pass of the outer loop of samplePointsByDistance: the new pathIndex
   * and, unless the path ran out, the index of the point pushed.
   */
  method SampleIteration(path: seq<LatLng>, distances: seq<real>, interval: real,
                         pathIndex: int, currentDistance: real, ghost st: SampleState)
    returns (newIndex: int, c: int)
    requires |distances| == |path| && SampleStateInRange(path, st) && !st.stopped
    requires pathIndex == st.pathIndex && currentDistance == st.current
    ensures var next := SampleStep(path, distances, interval, st);
            if newIndex >= |path| then next == st.(pathIndex := newIndex, stopped := true)
            else 0 <= c < |path|
                 && next == SampleState(st.sampled + [path[c]], st.picked + [c], newIndex, st.current + interval, false)
  {
    newIndex := AdvanceLoop(distances, pathIndex, currentDistance);
    c := newIndex;
    if newIndex < |path| {
      var distToPrev := Abs(distances[newIndex - 1] - currentDistance);
      var distToCurr := Abs(distances[newIndex] - currentDistance);
      c := if distToPrev < distToCurr then newIndex - 1 else newIndex;
    }
  }

  /** A break after i - 1 full iterations leaves the points the whole fold ends with. */
  lemma SampleBreak(path: seq<LatLng>, distances: seq<real>, interval: real, i: int, n: int)
    requires |path| >= 1 && |distances| == |path| && 1 <= i <= n
    requires SampleStep(path, distances, interval, SampleFold(path, distances, interval, i - 1)).stopped
    ensures SampleFold(path, distances, interval, n).sampled == SampleFold(path, distances, interval, i - 1).sampled
  {
    SampleFoldStopped(path, distances, interval, i, n);
  }

  /** samplePointsByDistance with its loops. */
  method SamplePointsByDistanceLoop(m: Runtime, path: seq<LatLng>, numPoints: int) returns (sampledPoints: seq<LatLng>)
    requires (|path| > 0 || numPoints >= 0)
    ensures sampledPoints == SamplePointsByDistance(m, path, numPoints)
  {
    if |path| <= numPoints {
      return path;
    }
    if numPoints < 3 {
      return [path[0], path[|path| - 1]];
    }
    var distances := CumulativeLoop(m, path);
    sampledPoints := SampleWithDistancesLoop(path, numPoints, distances);
  }

  /** The part of samplePointsByDistance after the distances array is built. */
  method SampleWithDistancesLoop(path: seq<LatLng>, numPoints: int, distances: seq<real>)
    returns (sampledPoints: seq<LatLng>)
    requires |path| > numPoints >= 3 && |distances| == |path|
    ensures sampledPoints == SampleWithDistances(path, distances, numPoints)
  {
    var interval := distances[|path| - 1] / (numPoints - 1) as real;
    sampledPoints := SampleLoop(path, numPoints, distances, interval);
    sampledPoints := sampledPoints + [path[|path| - 1]];
  }

  /**
   * The sampling loop of samplePointsByDistance, given the distances array
   * and the interval: the points pushed before the last one.
   */
  method SampleLoop(path: seq<LatLng>, numPoints: int, distances: seq<real>, interval: real)
    returns (sampledPoints: seq<LatLng>)
    requires |path| > numPoints >= 3 && |distances| == |path|
    ensures sampledPoints == SampleFold(path, distances, interval, numPoints - 2).sampled
  {
    sampledPoints := [path[0]];
    var currentDistance := interval;
    var pathIndex := 1;
    ghost var st := SampleFold(path, distances, interval, 0);
    var i := 1;
    while i < numPoints - 1
      invariant 1 <= i <= numPoints - 1
      invariant st == SampleFold(path, distances, interval, i - 1) && !st.stopped
      invariant sampledPoints == st.sampled && pathIndex == st.pathIndex && currentDistance == st.current
    {
      var c;
      pathIndex, c := SampleIteration(path, distances, interval, pathIndex, currentDistance, st);
      if pathIndex >= |path| {
        SampleBreak(path, distances, interval, i, numPoints - 2);
        break;
      }
      sampledPoints := sampledPoints + [path[c]];
      currentDistance := currentDistance + interval;
      st := SampleStep(path, distances, interval, st);
      i := i + 1;
    }
  }

  /** The distances array: the cumulative length at every index. */
  method CumulativeLoop(m: Runtime, path: seq<LatLng>) returns (distances: seq<real>)
    requires |path| >= 1
    ensures |distances| == |path| && distances == Distances(m, path)
  {
    distances := [0.0];
    var totalDistance := 0.0;
    for i := 1 to |path|
      invariant |distances| == i
      invariant totalDistance == SumOfLegs(m, path, i)
      invariant forall j :: 0 <= j < i ==> distances[j] == SumOfLegs(m, path, j + 1)
    {
      totalDistance := totalDistance + m.haversine(path[i - 1], path[i]);
      distances := distances + [totalDistance];
    }
  }
}
