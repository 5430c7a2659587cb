// src/lib/maps/directionsApi.ts: decoding Google's Encoded Polyline
// Algorithm Format, retrying a directions request with exponential backoff
// while the provider reports rate limiting, and running a batch of requests
// in order.
//
// The provider call itself (getDirections, a wrapper over the Google Maps
// SDK) is not modelled. A `DirectionsService` object stands in for it: its
// `answer` says what the provider replies to the n-th call, and the object
// records every request sent and every setTimeout pause taken instead of
// waiting.

module DirectionsApi {
  import opened Types
  import opened Seqs

  datatype TravelMode = Walking | Bicycling

  /** A directions request: origin, destination, intermediate waypoints in order, travel mode. */
  datatype DirectionsRequest = DirectionsRequest(
    origin: LatLng, destination: LatLng, waypoints: seq<LatLng>, travelMode: TravelMode)

  /** The road path found, with its length in metres and duration in seconds. */
  datatype DirectionsResult = DirectionsResult(path: seq<LatLng>, distance: real, duration: real)

  // ---------------------------------------------------------------------
  // Encoded polylines

  /** A value read from an encoded polyline and the index just past it. */
  datatype Varint = Varint(value: int, next: int)

  /** A coordinate in whole units of 1e-5 degree, as the format stores it. */
  datatype E5 = E5(lat: int, lng: int)

  /**
   * One do-while loop of decodePolyline from index i. Each character gives
   * b = charCodeAt - 63; its low five bits (b & 0x1f, which is b mod 32 also
   * for a negative b) are the next chunk, low chunks first, and the value
   * goes on while b >= 0x20. Past the end charCodeAt is NaN: the chunk is 0
   * and the value ends, one index further on.
   */
  function ReadVarint(encoded: string, i: int): (r: Varint)
    requires i >= 0
    ensures r.next > i && r.value >= 0
    decreases |encoded| - i
  {
    if i >= |encoded| then Varint(0, i + 1)
    else
      var b := encoded[i] as int - 63;
      if b >= 32 then
        var rest := ReadVarint(encoded, i + 1);
        Varint(b % 32 + 32 * rest.value, rest.next)
      else Varint(b % 32, i + 1)
  }

  /** (r & 1) !== 0 ? ~(r >> 1) : r >> 1 on a non-negative r: odd values stand for negatives. */
  function ZigZag(r: int): int
    requires r >= 0
  {
    if r % 2 == 1 then -(r / 2) - 1 else r / 2
  }

  /** A point of the decoded path: the running sums divided by 1e5. */
  function FromE5(lat: int, lng: int): LatLng
  {
    LatLng(lat as real / 100000.0, lng as real / 100000.0)
  }

  /**
   * The points decodePolyline pushes from index i on, with lat and lng the
   * running sums so far: a latitude delta then a longitude delta per point.
   */
  function DecodeFrom(encoded: string, i: int, lat: int, lng: int): seq<LatLng>
    requires i >= 0
    decreases |encoded| - i
  {
    if i >= |encoded| then []
    else
      var a := ReadVarint(encoded, i);
      var lat' := lat + ZigZag(a.value);
      var b := ReadVarint(encoded, a.next);
      var lng' := lng + ZigZag(b.value);
      [FromE5(lat', lng')] + DecodeFrom(encoded, b.next, lat', lng')
  }

  /** decodePolyline. */
  function DecodePolyline(encoded: string): seq<LatLng>
  {
    DecodeFrom(encoded, 0, 0, 0)
  }

  /** Each decoded point consumes at least two characters, the last possibly past the end. */
  lemma {:induction false} DecodeLength(encoded: string, i: int, lat: int, lng: int)
    requires i >= 0
    ensures 2 * |DecodeFrom(encoded, i, lat, lng)| <= |encoded| - i + 1 || |DecodeFrom(encoded, i, lat, lng)| == 0
    decreases |encoded| - i
  {
    if i < |encoded| {
      var a := ReadVarint(encoded, i);
      var b := ReadVarint(encoded, a.next);
      DecodeLength(encoded, b.next, lat + ZigZag(a.value), lng + ZigZag(b.value));
    }
  }

  /**
   * The format's encoder for one non-negative value: 5-bit chunks, low
   * first, 0x20 set on every chunk but the last, plus 63.
   */
  function EncodeVarint(v: int): (s: string)
    requires v >= 0
    ensures |s| >= 1
    decreases v
  {
    if v < 32 then [(v + 63) as char] else [(v % 32 + 95) as char] + EncodeVarint(v / 32)
  }

  /** The format's sign folding (v << 1, inverted for a negative v); ZigZag undoes it. */
  function ZigZagEncode(d: int): (r: int)
    ensures r >= 0 && ZigZag(r) == d
  {
    if d < 0 then -2 * d - 1 else 2 * d
  }

  /** The encoding of points as deltas from (lat, lng) onwards. */
  function EncodeFrom(points: seq<E5>, lat: int, lng: int): string
    decreases |points|
  {
    if |points| == 0 then []
    else
      EncodeVarint(ZigZagEncode(points[0].lat - lat)) + EncodeVarint(ZigZagEncode(points[0].lng - lng))
      + EncodeFrom(points[1..], points[0].lat, points[0].lng)
  }

  /** The format's encoder for a path of whole E5 coordinates. */
  function EncodePolyline(points: seq<E5>): string
  {
    EncodeFrom(points, 0, 0)
  }

  /** The coordinates in degrees. */
  function Degrees(points: seq<E5>): (r: seq<LatLng>)
    ensures |r| == |points|
  {
    seq(|points|, i requires 0 <= i < |points| => FromE5(points[i].lat, points[i].lng))
  }

  /** Reading an encoded value back from where it sits in a string, whatever follows it. */
  lemma {:induction false} ReadEncoded(s: string, i: nat, v: int, next: int)
    requires v >= 0 && next == i + |EncodeVarint(v)| && next <= |s| && s[i..next] == EncodeVarint(v)
    ensures ReadVarint(s, i) == Varint(v, next)
    decreases v
  {
    var rest := if v < 32 then [] else EncodeVarint(v / 32);
    var c := if v < 32 then (v + 63) as char else (v % 32 + 95) as char;
    assert EncodeVarint(v) == [c] + rest;
    SliceCons(s, i, c, rest);
    if v >= 32 {
      ReadEncoded(s, i + 1, v / 32, next);
      ChunkReadsBack(v);
    }
  }

  /** A string holding [c] + rest from index i holds c at i and rest right after it. */
  lemma SliceCons(s: string, i: nat, c: char, rest: string)
    requires i + 1 + |rest| <= |s| && s[i..i + 1 + |rest|] == [c] + rest
    ensures s[i] == c && s[i + 1..i + 1 + |rest|] == rest
  {
    assert s[i] == s[i..i + 1 + |rest|][0];
    assert s[i + 1..i + 1 + |rest|] == s[i..i + 1 + |rest|][1..];
  }

  /** A chunk of a value of 32 or more is read back with its continuation bit, and the chunks make the value. */
  lemma ChunkReadsBack(v: int)
    requires v >= 32
    ensures v % 32 + 32 >= 32 && (v % 32 + 32) % 32 == v % 32 && v % 32 + 32 * (v / 32) == v
  {
  }

  /** Decoding one point whose two deltas read back as encoded: the point is at the running sums lat2, lng2. */
  lemma DecodeOne(s: string, i: nat, lat: int, lng: int, a: Varint, b: Varint, lat2: int, lng2: int)
    requires i < |s| && ReadVarint(s, i) == a && ReadVarint(s, a.next) == b
    requires lat2 == lat + ZigZag(a.value) && lng2 == lng + ZigZag(b.value)
    ensures b.next >= 0
    ensures DecodeFrom(s, i, lat, lng) == [FromE5(lat2, lng2)] + DecodeFrom(s, b.next, lat2, lng2)
  {
    var a0 := ReadVarint(s, i);
    var b0 := ReadVarint(s, a0.next);
    assert DecodeFrom(s, i, lat, lng)
        == [FromE5(lat + ZigZag(a0.value), lng + ZigZag(b0.value))]
           + DecodeFrom(s, b0.next, lat + ZigZag(a0.value), lng + ZigZag(b0.value));
  }

  /** The three parts of a string that ends in x + y + tail from index i. */
  lemma SplitThree(s: string, i: nat, x: string, y: string, tail: string) returns (k: nat, j: nat)
    requires i <= |s| && s[i..] == x + y + tail
    ensures k == i + |x| && j == k + |y| && j <= |s|
    ensures s[i..k] == x && s[k..j] == y && s[j..] == tail
  {
    k, j := i + |x|, i + |x| + |y|;
    assert s[i..k] == s[i..][..|x|];
    assert s[k..j] == s[i..][|x|..|x| + |y|];
    assert s[j..] == s[i..][|x| + |y|..];
  }

  /** One step of the encoder: the first point's two varints, then the rest. */
  lemma EncodeFromCons(points: seq<E5>, lat: int, lng: int, x: string, y: string, tail: string)
    requires |points| > 0
    requires x == EncodeVarint(ZigZagEncode(points[0].lat - lat)) && y == EncodeVarint(ZigZagEncode(points[0].lng - lng))
    requires tail == EncodeFrom(points[1..], points[0].lat, points[0].lng)
    ensures EncodeFrom(points, lat, lng) == x + y + tail
  {
  }

  lemma DegreesCons(points: seq<E5>)
    requires |points| > 0
    ensures Degrees(points) == [FromE5(points[0].lat, points[0].lng)] + Degrees(points[1..])
  {
  }

  /** The first point of an encoded path decodes back, and the rest of the encoding follows it. */
  lemma DecodeEncodedHead(s: string, i: nat, points: seq<E5>, lat: int, lng: int) returns (j: nat)
    requires |points| > 0 && i <= |s| && s[i..] == EncodeFrom(points, lat, lng)
    ensures j <= |s| && s[j..] == EncodeFrom(points[1..], points[0].lat, points[0].lng)
    ensures DecodeFrom(s, i, lat, lng) == [FromE5(points[0].lat, points[0].lng)] + DecodeFrom(s, j, points[0].lat, points[0].lng)
  {
    var p := points[0];
    var va, vb := ZigZagEncode(p.lat - lat), ZigZagEncode(p.lng - lng);
    var x, y, tail := EncodeVarint(va), EncodeVarint(vb), EncodeFrom(points[1..], p.lat, p.lng);
    EncodeFromCons(points, lat, lng, x, y, tail);
    var k;
    k, j := SplitThree(s, i, x, y, tail);
    ReadEncoded(s, i, va, k);
    ReadEncoded(s, k, vb, j);
    DecodeOne(s, i, lat, lng, Varint(va, k), Varint(vb, j), p.lat, p.lng);
  }

  /** Decoding from where an encoded path sits at the end of a string. */
  lemma {:induction false} DecodeEncoded(s: string, i: nat, points: seq<E5>, lat: int, lng: int)
    requires i <= |s| && s[i..] == EncodeFrom(points, lat, lng)
    ensures DecodeFrom(s, i, lat, lng) == Degrees(points)
    decreases |points|
  {
    if |points| > 0 {
      var j := DecodeEncodedHead(s, i, points, lat, lng);
      DecodeEncoded(s, j, points[1..], points[0].lat, points[0].lng);
      DegreesCons(points);
    } else {
      var e := EncodeFrom(points, lat, lng);
      assert e == [];
      assert |s[i..]| == |e| == 0;
    }
  }

  /** Decoding the encoding of a path gives the path back, in degrees. */
  lemma PolylineRoundTrip(points: seq<E5>)
    ensures DecodePolyline(EncodePolyline(points)) == Degrees(points)
  {
    var s := EncodePolyline(points);
    assert s[0..] == s;
    DecodeEncoded(s, 0, points, 0, 0);
  }

  lemma ScaleChunk(scale: int, chunk: int, rest: int)
    ensures scale * (chunk + 32 * rest) == scale * chunk + (scale * 32) * rest
  {
  }

  /**
   * One do-while loop of decodePolyline with its result and index
   * variables. result |= (b & 0x1f) << shift is an addition of the chunk
   * times 2^shift (held in scale): the chunks occupy disjoint bits.
   */
  method ReadVarintLoop(encoded: string, start: int) returns (result: int, index: int)
    requires start >= 0
    ensures Varint(result, index) == ReadVarint(encoded, start)
  {
    index := start;
    result := 0;
    var scale := 1;
    while true
      invariant index >= start && scale >= 1
      invariant result + scale * ReadVarint(encoded, index).value == ReadVarint(encoded, start).value
      invariant ReadVarint(encoded, index).next == ReadVarint(encoded, start).next
      decreases |encoded| - index
    {
      var b := if index < |encoded| then encoded[index] as int - 63 else 0;
      var more := index < |encoded| && b >= 32;
      if more {
        ghost var rest := ReadVarint(encoded, index + 1).value;
        assert ReadVarint(encoded, index).value == b % 32 + 32 * rest;
        ScaleChunk(scale, b % 32, rest);
      }
      result := result + scale * (b % 32);
      index := index + 1;
      scale := scale * 32;
      if !more {
        break;
      }
    }
  }

  /** decodePolyline with its loops. */
  method DecodePolylineLoop(encoded: string) returns (points: seq<LatLng>)
    ensures points == DecodePolyline(encoded)
  {
    points := [];
    var index := 0;
    var lat := 0;
    var lng := 0;
    while index < |encoded|
      invariant index >= 0
      invariant points + DecodeFrom(encoded, index, lat, lng) == DecodePolyline(encoded)
      decreases |encoded| - index
    {
      ghost var i0, lat0, lng0, before := index, lat, lng, points;
      var result;
      result, index := ReadVarintLoop(encoded, index);
      ghost var a := Varint(result, index);
      lat := lat + ZigZag(result);
      result, index := ReadVarintLoop(encoded, index);
      ghost var b := Varint(result, index);
      lng := lng + ZigZag(result);
      DecodeStep(encoded, i0, lat0, lng0, a, b, lat, lng, before);
      points := points + [FromE5(lat, lng)];
    }
  }

  /** One pass of the decoding loop moves one point from what is left to decode onto the points decoded. */
  lemma DecodeStep(s: string, i: nat, lat: int, lng: int, a: Varint, b: Varint, lat2: int, lng2: int, before: seq<LatLng>)
    requires i < |s| && ReadVarint(s, i) == a && ReadVarint(s, a.next) == b
    requires lat2 == lat + ZigZag(a.value) && lng2 == lng + ZigZag(b.value)
    ensures b.next >= 0
    ensures before + DecodeFrom(s, i, lat, lng) == (before + [FromE5(lat2, lng2)]) + DecodeFrom(s, b.next, lat2, lng2)
  {
    DecodeOne(s, i, lat, lng, a, b, lat2, lng2);
  }

  // ---------------------------------------------------------------------
  // Retrying and batching

  /** The attempts getDirectionsWithRetry makes when none is given. */
  const DefaultMaxRetries: int := 3

  /** The pause batchDirections takes between requests when none is given. */
  const DefaultBatchDelay: int := 500

  const RateLimitStatus: string := "OVER_QUERY_LIMIT"
  const MaxRetriesMessage: string := "Max retries exceeded"

  /** What the provider replies to a call: the n-th call (from 0) carrying a request. */
  type Answers = (nat, DirectionsRequest) -> Result<DirectionsResult>

  /** n copies of x. */
  function Repeat<T>(x: T, n: nat): (r: seq<T>)
    ensures |r| == n
  {
    seq(n, _ => x)
  }

  lemma RepeatSnoc<T>(x: T, n: nat)
    ensures Repeat(x, n) + [x] == Repeat(x, n + 1)
  {
    assert forall i :: 0 <= i < n + 1 ==> (Repeat(x, n) + [x])[i] == x;
  }

  function Pow2(k: nat): (r: nat)
    ensures r >= 1
  {
    if k == 0 then 1 else 2 * Pow2(k - 1)
  }

  /** Math.pow(2, attempt) * 1000: the pause after rate-limited attempt k. */
  function Backoff(k: nat): int
  {
    Pow2(k) * 1000
  }

  /** A reply that is a failure whose message mentions OVER_QUERY_LIMIT. */
  predicate RateLimited(reply: Result<DirectionsResult>)
  {
    reply.Failure? && Includes(reply.error, RateLimitStatus)
  }

  /** The call numbered start + j to the provider with this request was rate limited. */
  predicate LimitedAt(answer: Answers, start: nat, request: DirectionsRequest, j: nat)
  {
    RateLimited(answer(start + j, request))
  }

  /** A run of getDirectionsWithRetry: the calls it made, the pauses it took, its outcome. */
  datatype RetryRun = RetryRun(attempts: nat, waits: seq<int>, outcome: Result<DirectionsResult>)

  /**
   * The retry loop from attempt on, with lastError the message of the last
   * failure: a success is returned, a failure without OVER_QUERY_LIMIT is
   * rethrown at once, a rate-limited one is followed by a pause of
   * 2^attempt seconds and the next attempt; when the attempts run out the
   * last error is thrown, or 'Max retries exceeded' if there was none.
   */
  function RetryFrom(answer: Answers, start: nat, request: DirectionsRequest, maxRetries: int,
                     attempt: nat, lastError: Option<string>): RetryRun
    decreases maxRetries - attempt
  {
    if attempt >= maxRetries then
      RetryRun(0, [], Failure(if lastError.Some? then lastError.value else MaxRetriesMessage))
    else
      var reply := answer(start + attempt, request);
      if !RateLimited(reply) then RetryRun(1, [], reply)
      else
        var rest := RetryFrom(answer, start, request, maxRetries, attempt + 1, Some(reply.error));
        RetryRun(rest.attempts + 1, [Backoff(attempt)] + rest.waits, rest.outcome)
  }

  /** getDirectionsWithRetry, whose first call is the start-th call to the provider. */
  function Retry(answer: Answers, start: nat, request: DirectionsRequest, maxRetries: int): RetryRun
  {
    RetryFrom(answer, start, request, maxRetries, 0, None)
  }

  /**
   * From attempt on, the loop makes n calls, at most as many as attempts
   * remain; every call but the last was rate limited; the outcome is the
   * last reply; it stops early only on a reply that is not rate limited;
   * and it pauses 2^k seconds after each rate-limited attempt k.
   */
  lemma {:induction false} RetryFromCharacterized(answer: Answers, start: nat, request: DirectionsRequest,
                                                  maxRetries: int, attempt: nat, lastError: Option<string>)
    ensures var run := RetryFrom(answer, start, request, maxRetries, attempt, lastError);
            var n := run.attempts;
            && (attempt >= maxRetries ==>
                  && n == 0 && run.waits == []
                  && run.outcome == Failure(if lastError.Some? then lastError.value else MaxRetriesMessage))
            && (attempt < maxRetries ==>
                  && 1 <= n <= maxRetries - attempt
                  && run.outcome == answer(start + attempt + n - 1, request)
                  && (forall j :: attempt <= j < attempt + n - 1 ==> LimitedAt(answer, start, request, j))
                  && (attempt + n < maxRetries ==> !RateLimited(run.outcome))
                  && |run.waits| == (if RateLimited(run.outcome) then n else n - 1)
                  && (forall j :: 0 <= j < |run.waits| ==> run.waits[j] == Backoff(attempt + j)))
    decreases maxRetries - attempt
  {
    if attempt < maxRetries {
      var reply := answer(start + attempt, request);
      if RateLimited(reply) {
        RetryFromCharacterized(answer, start, request, maxRetries, attempt + 1, Some(reply.error));
        var rest := RetryFrom(answer, start, request, maxRetries, attempt + 1, Some(reply.error));
        var run := RetryFrom(answer, start, request, maxRetries, attempt, lastError);
        assert run == RetryRun(rest.attempts + 1, [Backoff(attempt)] + rest.waits, rest.outcome);
        RetryLimitedStep(answer, start, request, maxRetries, attempt, attempt + 1, reply, rest, run);
      } else {
        var run := RetryFrom(answer, start, request, maxRetries, attempt, lastError);
        assert run == RetryRun(1, [], reply);
        assert start + attempt + run.attempts - 1 == start + attempt;
      }
    }
  }

  /** A rate-limited attempt followed by the rest of the loop is one more rate-limited call and pause. */
  lemma RetryLimitedStep(answer: Answers, start: nat, request: DirectionsRequest, maxRetries: int,
                         attempt: nat, next: nat, reply: Result<DirectionsResult>, rest: RetryRun, run: RetryRun)
    requires next == attempt + 1 && attempt < maxRetries
    requires reply == answer(start + attempt, request) && RateLimited(reply)
    requires run == RetryRun(rest.attempts + 1, [Backoff(attempt)] + rest.waits, rest.outcome)
    requires next >= maxRetries ==> rest.attempts == 0 && rest.waits == [] && rest.outcome == Failure(reply.error)
    requires next < maxRetries ==>
               && 1 <= rest.attempts <= maxRetries - next
               && rest.outcome == answer(start + next + rest.attempts - 1, request)
               && (forall j :: next <= j < next + rest.attempts - 1 ==> LimitedAt(answer, start, request, j))
               && (next + rest.attempts < maxRetries ==> !RateLimited(rest.outcome))
               && |rest.waits| == (if RateLimited(rest.outcome) then rest.attempts else rest.attempts - 1)
               && (forall j :: 0 <= j < |rest.waits| ==> rest.waits[j] == Backoff(next + j))
    ensures var n := run.attempts;
            && 1 <= n <= maxRetries - attempt
            && run.outcome == answer(start + attempt + n - 1, request)
            && (forall j :: attempt <= j < attempt + n - 1 ==> LimitedAt(answer, start, request, j))
            && (attempt + n < maxRetries ==> !RateLimited(run.outcome))
            && |run.waits| == (if RateLimited(run.outcome) then n else n - 1)
            && (forall j :: 0 <= j < |run.waits| ==> run.waits[j] == Backoff(attempt + j))
  {
    assert LimitedAt(answer, start, request, attempt);
    forall j | 0 < j < |run.waits|
      ensures run.waits[j] == Backoff(attempt + j)
    {
      assert run.waits[j] == rest.waits[j - 1];
    }
  }

  /**
   * getDirectionsWithRetry calls the provider at most maxRetries times and
   * returns the first success; a failure that is not rate limited ends it
   * after that attempt; after maxRetries rate-limited failures it throws the
   * last one; with maxRetries <= 0 it throws 'Max retries exceeded' without
   * a call. Rate-limited attempt k is followed by a pause of 2^k * 1000 ms,
   * the last one included.
   */
  lemma RetryCharacterized(answer: Answers, start: nat, request: DirectionsRequest, maxRetries: int)
    ensures var run := Retry(answer, start, request, maxRetries);
            var n := run.attempts;
            && (maxRetries <= 0 ==>
                  n == 0 && run.waits == [] && run.outcome == Failure(MaxRetriesMessage))
            && (maxRetries >= 1 ==>
                  && 1 <= n <= maxRetries
                  && run.outcome == answer(start + n - 1, request)
                  && (forall j :: 0 <= j < n - 1 ==> LimitedAt(answer, start, request, j))
                  && (n < maxRetries ==> !RateLimited(run.outcome))
                  && |run.waits| == (if RateLimited(run.outcome) then n else n - 1)
                  && (forall j :: 0 <= j < |run.waits| ==> run.waits[j] == Backoff(j)))
  {
    RetryFromCharacterized(answer, start, request, maxRetries, 0, None);
  }

  /** A run of batchDirections: the calls it made, the pauses it took, its outcome. */
  datatype BatchRun = BatchRun(sent: seq<DirectionsRequest>, waits: seq<int>, outcome: Result<seq<DirectionsResult>>)

  /** A batch outcome with results already collected in front of it. */
  function Prepend(results: seq<DirectionsResult>, outcome: Result<seq<DirectionsResult>>): Result<seq<DirectionsResult>>
  {
    if outcome.Success? then Success(results + outcome.value) else outcome
  }

  /**
   * batchDirections from request i on: each request in turn with the
   * default retries, a pause of delayMs between requests but not after the
   * last, and the first failure rethrown, ending the batch.
   */
  function BatchFrom(answer: Answers, start: nat, requests: seq<DirectionsRequest>, i: nat, delayMs: int): BatchRun
    decreases |requests| - i
  {
    if i >= |requests| then BatchRun([], [], Success([]))
    else
      var run := Retry(answer, start, requests[i], DefaultMaxRetries);
      var calls := Repeat(requests[i], run.attempts);
      if run.outcome.Failure? then BatchRun(calls, run.waits, Failure(run.outcome.error))
      else
        var pause := if i + 1 < |requests| then [delayMs] else [];
        var rest := BatchFrom(answer, start + run.attempts, requests, i + 1, delayMs);
        BatchRun(calls + rest.sent, run.waits + pause + rest.waits, Prepend([run.outcome.value], rest.outcome))
  }

  /** batchDirections, whose first call is the start-th call to the provider. */
  function Batch(answer: Answers, start: nat, requests: seq<DirectionsRequest>, delayMs: int): BatchRun
  {
    BatchFrom(answer, start, requests, 0, delayMs)
  }

  /** The provider gave this reply to some call with this request. */
  ghost predicate Answered(answer: Answers, request: DirectionsRequest, reply: Result<DirectionsResult>)
  {
    exists k: nat :: answer(k, request) == reply
  }

  /** Each result is a success the provider gave to the request at the same place from index i on. */
  ghost predicate AllAnswered(answer: Answers, requests: seq<DirectionsRequest>, i: nat, results: seq<DirectionsResult>)
    requires i + |results| <= |requests|
  {
    forall t :: 0 <= t < |results| ==> Answered(answer, requests[i + t], Success(results[t]))
  }

  /** A batch run from request i failed on request j: with a reply to it, and with no later request sent. */
  ghost predicate FailedOn(answer: Answers, requests: seq<DirectionsRequest>, i: nat, j: int, run: BatchRun)
    requires i <= j < |requests| && run.outcome.Failure?
  {
    && Answered(answer, requests[j], Failure(run.outcome.error))
    && forall x :: x in run.sent ==> x in requests[i..j + 1]
  }

  /**
   * A successful batch from request i has one result per request, in
   * order, each a reply the provider gave to that request. A failed batch
   * fails with a reply the provider gave to some request j, and no request
   * after j was sent.
   */
  lemma {:induction false} BatchOutcome(answer: Answers, start: nat, requests: seq<DirectionsRequest>, i: nat, delayMs: int)
    requires i <= |requests|
    ensures var run := BatchFrom(answer, start, requests, i, delayMs);
            && (run.outcome.Success? ==>
                  && |run.outcome.value| == |requests| - i
                  && AllAnswered(answer, requests, i, run.outcome.value))
            && (run.outcome.Failure? ==>
                  exists j :: i <= j < |requests| && FailedOn(answer, requests, i, j, run))
    decreases |requests| - i
  {
    if i < |requests| {
      var run := Retry(answer, start, requests[i], DefaultMaxRetries);
      var whole := BatchFrom(answer, start, requests, i, delayMs);
      if run.outcome.Failure? {
        BatchFailsFirst(answer, start, requests, i, delayMs);
      } else {
        var rest := BatchFrom(answer, start + run.attempts, requests, i + 1, delayMs);
        BatchOutcome(answer, start + run.attempts, requests, i + 1, delayMs);
        BatchOutcomeStep(answer, start, requests, i, i + 1, delayMs, run, whole, rest);
      }
    }
  }

  /** A first request that succeeds carries the outcome of the batch from the next request back one step. */
  lemma BatchOutcomeStep(answer: Answers, start: nat, requests: seq<DirectionsRequest>, i: nat, next: nat, delayMs: int,
                         run: RetryRun, whole: BatchRun, rest: BatchRun)
    requires i < |requests| && next == i + 1
    requires run == Retry(answer, start, requests[i], DefaultMaxRetries) && run.outcome.Success?
    requires whole == BatchFrom(answer, start, requests, i, delayMs)
    requires rest == BatchFrom(answer, start + run.attempts, requests, next, delayMs)
    requires rest.outcome.Success? ==>
               |rest.outcome.value| == |requests| - next && AllAnswered(answer, requests, next, rest.outcome.value)
    requires rest.outcome.Failure? ==> exists j :: next <= j < |requests| && FailedOn(answer, requests, next, j, rest)
    ensures whole.outcome.Success? ==>
              |whole.outcome.value| == |requests| - i && AllAnswered(answer, requests, i, whole.outcome.value)
    ensures whole.outcome.Failure? ==> exists j :: i <= j < |requests| && FailedOn(answer, requests, i, j, whole)
  {
    BatchUnfold(answer, start, requests, i, delayMs, run, whole, rest);
    FirstAnswered(answer, start, requests[i]);
    if rest.outcome.Success? {
      BatchResultsJoin(answer, requests, i, whole, rest, run.outcome.value);
    } else {
      var j :| i + 1 <= j < |requests| && FailedOn(answer, requests, i + 1, j, rest);
      BatchFailedLater(answer, requests, i, j, run.attempts, whole, rest);
    }
  }

  /** A batch whose first request fails fails on that request, having sent only it. */
  lemma BatchFailsFirst(answer: Answers, start: nat, requests: seq<DirectionsRequest>, i: nat, delayMs: int)
    requires i < |requests| && Retry(answer, start, requests[i], DefaultMaxRetries).outcome.Failure?
    ensures var whole := BatchFrom(answer, start, requests, i, delayMs);
            whole.outcome.Failure? && FailedOn(answer, requests, i, i, whole)
  {
    var whole := BatchFrom(answer, start, requests, i, delayMs);
    FirstAnswered(answer, start, requests[i]);
    forall x | x in whole.sent
      ensures x in requests[i..i + 1]
    {
      assert x == requests[i];
    }
  }

  /** A reply to request i followed by the replies to the requests after it are replies to the requests from i. */
  lemma BatchResultsJoin(answer: Answers, requests: seq<DirectionsRequest>, i: nat, whole: BatchRun, rest: BatchRun,
                         first: DirectionsResult)
    requires i < |requests| && Answered(answer, requests[i], Success(first))
    requires rest.outcome.Success? && whole.outcome == Prepend([first], rest.outcome)
    requires |rest.outcome.value| == |requests| - (i + 1) && AllAnswered(answer, requests, i + 1, rest.outcome.value)
    ensures whole.outcome.Success? && |whole.outcome.value| == |requests| - i
    ensures AllAnswered(answer, requests, i, whole.outcome.value)
  {
    forall t | 0 <= t < |whole.outcome.value|
      ensures Answered(answer, requests[i + t], Success(whole.outcome.value[t]))
    {
      if t > 0 {
        assert whole.outcome.value[t] == rest.outcome.value[t - 1];
        assert requests[i + t] == requests[i + 1 + (t - 1)];
      }
    }
  }

  /** The outcome of a retry run is a reply of the provider. */
  lemma FirstAnswered(answer: Answers, start: nat, request: DirectionsRequest)
    ensures Answered(answer, request, Retry(answer, start, request, DefaultMaxRetries).outcome)
  {
    RetryCharacterized(answer, start, request, DefaultMaxRetries);
    var run := Retry(answer, start, request, DefaultMaxRetries);
    var k: nat := start + run.attempts - 1;
    assert answer(k, request) == run.outcome;
  }

  /** A failure on request j of the batch from i + 1 is a failure on request j of the batch from i. */
  lemma BatchFailedLater(answer: Answers, requests: seq<DirectionsRequest>, i: nat, j: int, n: nat,
                         whole: BatchRun, rest: BatchRun)
    requires i + 1 <= j < |requests|
    requires rest.outcome.Failure? && whole.outcome == rest.outcome
    requires whole.sent == Repeat(requests[i], n) + rest.sent
    requires FailedOn(answer, requests, i + 1, j, rest)
    ensures exists j' :: i <= j' < |requests| && FailedOn(answer, requests, i, j', whole)
  {
    forall x | x in whole.sent
      ensures x in requests[i..j + 1]
    {
      if x in rest.sent {
        assert x in requests[i + 1..j + 1];
        assert requests[i + 1..j + 1] == requests[i..j + 1][1..];
      } else {
        assert x == requests[i] == requests[i..j + 1][0];
      }
    }
    assert FailedOn(answer, requests, i, j, whole);
  }

  lemma PrependSnoc(results: seq<DirectionsResult>, x: DirectionsResult, outcome: Result<seq<DirectionsResult>>)
    ensures Prepend(results, Prepend([x], outcome)) == Prepend(results + [x], outcome)
  {
    if outcome.Success? {
      assert results + ([x] + outcome.value) == results + [x] + outcome.value;
    }
  }

  /** One request of a batch from index i: its retry run, then the batch from i + 1. */
  lemma BatchUnfold(answer: Answers, start: nat, requests: seq<DirectionsRequest>, i: nat, delayMs: int,
                    run: RetryRun, here: BatchRun, next: BatchRun)
    requires i < |requests| && run == Retry(answer, start, requests[i], DefaultMaxRetries)
    requires here == BatchFrom(answer, start, requests, i, delayMs)
    requires next == BatchFrom(answer, start + run.attempts, requests, i + 1, delayMs)
    ensures run.outcome.Failure? ==>
              here == BatchRun(Repeat(requests[i], run.attempts), run.waits, Failure(run.outcome.error))
    ensures run.outcome.Success? ==>
              && here.sent == Repeat(requests[i], run.attempts) + next.sent
              && here.waits == run.waits + (if i + 1 < |requests| then [delayMs] else []) + next.waits
              && here.outcome == Prepend([run.outcome.value], next.outcome)
  {
  }

  /**
   * The state of batchDirections' loop before request i: the requests
   * sent and pauses taken so far, followed by those of the batch from i on,
   * make up those of the whole batch, and so do the results collected so
   * far followed by its results.
   */
  ghost predicate BatchTracks(answer: Answers, requests: seq<DirectionsRequest>, delayMs: int, i: nat,
                              sent0: seq<DirectionsRequest>, waits0: seq<int>, whole: BatchRun,
                              sent: seq<DirectionsRequest>, waits: seq<int>, results: seq<DirectionsResult>)
  {
    var rest := BatchFrom(answer, |sent|, requests, i, delayMs);
    && sent0 + whole.sent == sent + rest.sent
    && waits0 + whole.waits == waits + rest.waits
    && whole.outcome == Prepend(results, rest.outcome)
  }

  lemma BatchTracksStart(answer: Answers, requests: seq<DirectionsRequest>, delayMs: int,
                         sent0: seq<DirectionsRequest>, waits0: seq<int>)
    ensures BatchTracks(answer, requests, delayMs, 0, sent0, waits0, Batch(answer, |sent0|, requests, delayMs),
                        sent0, waits0, [])
  {
    var whole := Batch(answer, |sent0|, requests, delayMs);
    if whole.outcome.Success? {
      assert [] + whole.outcome.value == whole.outcome.value;
    }
  }

  /** A failed pass of the loop ends the batch with its outcome. */
  lemma BatchTracksFail(answer: Answers, requests: seq<DirectionsRequest>, delayMs: int, i: nat,
                        sent0: seq<DirectionsRequest>, waits0: seq<int>, whole: BatchRun,
                        sent: seq<DirectionsRequest>, waits: seq<int>, results: seq<DirectionsResult>,
                        sent': seq<DirectionsRequest>, waits': seq<int>, result: Result<DirectionsResult>)
    requires i < |requests| && BatchTracks(answer, requests, delayMs, i, sent0, waits0, whole, sent, waits, results)
    requires var run := Retry(answer, |sent|, requests[i], DefaultMaxRetries);
             && result == run.outcome && result.Failure?
             && sent' == sent + Repeat(requests[i], run.attempts)
             && waits' == waits + run.waits
    ensures whole.outcome == Failure(result.error) && sent' == sent0 + whole.sent && waits' == waits0 + whole.waits
  {
    var run := Retry(answer, |sent|, requests[i], DefaultMaxRetries);
    var rest := BatchFrom(answer, |sent|, requests, i, delayMs);
    var next := BatchFrom(answer, |sent| + run.attempts, requests, i + 1, delayMs);
    BatchUnfold(answer, |sent|, requests, i, delayMs, run, rest, next);
  }

  /** A successful pass of the loop keeps the loop state. */
  lemma BatchTracksNext(answer: Answers, requests: seq<DirectionsRequest>, delayMs: int, i: nat,
                        sent0: seq<DirectionsRequest>, waits0: seq<int>, whole: BatchRun,
                        sent: seq<DirectionsRequest>, waits: seq<int>, results: seq<DirectionsResult>,
                        sent': seq<DirectionsRequest>, waits': seq<int>, result: Result<DirectionsResult>)
    requires i < |requests| && BatchTracks(answer, requests, delayMs, i, sent0, waits0, whole, sent, waits, results)
    requires var run := Retry(answer, |sent|, requests[i], DefaultMaxRetries);
             && result == run.outcome && result.Success?
             && sent' == sent + Repeat(requests[i], run.attempts)
             && waits' == waits + run.waits + (if i + 1 < |requests| then [delayMs] else [])
    ensures BatchTracks(answer, requests, delayMs, i + 1, sent0, waits0, whole, sent', waits', results + [result.value])
  {
    var run := Retry(answer, |sent|, requests[i], DefaultMaxRetries);
    BatchPassMoves(answer, requests, delayMs, i, sent, waits, results, sent', waits', run, result.value);
  }

  /**
   * A successful pass moves what the loop has done from the batch from i
   * on to the logs and the results: the logs followed by the rest of the
   * batch, and the results followed by its results, stay the same.
   */
  lemma BatchPassMoves(answer: Answers, requests: seq<DirectionsRequest>, delayMs: int, i: nat,
                       sent: seq<DirectionsRequest>, waits: seq<int>, results: seq<DirectionsResult>,
                       sent': seq<DirectionsRequest>, waits': seq<int>, run: RetryRun, value: DirectionsResult)
    requires i < |requests| && run == Retry(answer, |sent|, requests[i], DefaultMaxRetries)
    requires run.outcome == Success(value) && |sent'| == |sent| + run.attempts
    requires sent' == sent + Repeat(requests[i], run.attempts)
    requires waits' == waits + run.waits + (if i + 1 < |requests| then [delayMs] else [])
    ensures var rest := BatchFrom(answer, |sent|, requests, i, delayMs);
            var next := BatchFrom(answer, |sent'|, requests, i + 1, delayMs);
            && sent + rest.sent == sent' + next.sent && waits + rest.waits == waits' + next.waits
            && Prepend(results, rest.outcome) == Prepend(results + [value], next.outcome)
  {
    var rest := BatchFrom(answer, |sent|, requests, i, delayMs);
    var next := BatchFrom(answer, |sent'|, requests, i + 1, delayMs);
    BatchUnfold(answer, |sent|, requests, i, delayMs, run, rest, next);
    PassMovesLogs(sent, sent', Repeat(requests[i], run.attempts), rest.sent, next.sent,
                  waits, waits', run.waits, if i + 1 < |requests| then [delayMs] else [], rest.waits, next.waits);
    PrependSnoc(results, value, next.outcome);
  }

  /** The logs of a pass, moved from the rest of the batch to the loop's logs. */
  lemma PassMovesLogs(sent: seq<DirectionsRequest>, sent': seq<DirectionsRequest>, calls: seq<DirectionsRequest>,
                      restSent: seq<DirectionsRequest>, nextSent: seq<DirectionsRequest>,
                      waits: seq<int>, waits': seq<int>, pauses: seq<int>, pause: seq<int>,
                      restWaits: seq<int>, nextWaits: seq<int>)
    requires sent' == sent + calls && restSent == calls + nextSent
    requires waits' == waits + pauses + pause && restWaits == pauses + pause + nextWaits
    ensures sent + restSent == sent' + nextSent && waits + restWaits == waits' + nextWaits
  {
    LogAppend(sent, sent', calls, nextSent);
    LogStep(waits, waits', pauses, pause, nextWaits);
  }

  /** The loop state, from the batch from i on. */
  lemma BatchTracksFrom(answer: Answers, requests: seq<DirectionsRequest>, delayMs: int, i: nat,
                        sent0: seq<DirectionsRequest>, waits0: seq<int>, whole: BatchRun,
                        sent: seq<DirectionsRequest>, waits: seq<int>, results: seq<DirectionsResult>, rest: BatchRun)
    requires rest == BatchFrom(answer, |sent|, requests, i, delayMs)
    requires sent0 + whole.sent == sent + rest.sent && waits0 + whole.waits == waits + rest.waits
    requires whole.outcome == Prepend(results, rest.outcome)
    ensures BatchTracks(answer, requests, delayMs, i, sent0, waits0, whole, sent, waits, results)
  {
  }

  lemma BatchTracksDone(answer: Answers, requests: seq<DirectionsRequest>, delayMs: int,
                        sent0: seq<DirectionsRequest>, waits0: seq<int>, whole: BatchRun,
                        sent: seq<DirectionsRequest>, waits: seq<int>, results: seq<DirectionsResult>)
    requires BatchTracks(answer, requests, delayMs, |requests|, sent0, waits0, whole, sent, waits, results)
    ensures whole.outcome == Success(results) && sent == sent0 + whole.sent && waits == waits0 + whole.waits
  {
    assert results + [] == results;
  }

  /** Appending one part to a log, in front of the rest of the log. */
  lemma LogAppend<T>(here: seq<T>, now: seq<T>, part: seq<T>, nextLog: seq<T>)
    requires now == here + part
    ensures here + (part + nextLog) == now + nextLog
  {
  }

  /** Appending two parts to a log, in front of the rest of the log. */
  lemma LogStep<T>(here: seq<T>, now: seq<T>, p1: seq<T>, p2: seq<T>, nextLog: seq<T>)
    requires now == here + p1 + p2
    ensures here + (p1 + p2 + nextLog) == now + nextLog
  {
  }

  /**
   * The state of getDirectionsWithRetry's loop before attempt: the calls
   * made so far are attempt times the request, and the attempts, the
   * pauses and the outcome still to come are those of the retries from
   * attempt on.
   */
  ghost predicate RetryTracks(answer: Answers, start: nat, request: DirectionsRequest, maxRetries: int, attempt: nat,
                              lastError: Option<string>, whole: RetryRun, sent0: seq<DirectionsRequest>,
                              waits0: seq<int>, sent: seq<DirectionsRequest>, waits: seq<int>)
  {
    var rest := RetryFrom(answer, start, request, maxRetries, attempt, lastError);
    && |sent0| == start && sent == sent0 + Repeat(request, attempt)
    && whole.attempts == attempt + rest.attempts && whole.outcome == rest.outcome
    && waits0 + whole.waits == waits + rest.waits
  }

  /** A reply that is not rate limited ends the retries with that reply. */
  lemma RetryTracksStop(answer: Answers, start: nat, request: DirectionsRequest, maxRetries: int, attempt: nat,
                        lastError: Option<string>, whole: RetryRun, sent0: seq<DirectionsRequest>, waits0: seq<int>,
                        sent: seq<DirectionsRequest>, waits: seq<int>, reply: Result<DirectionsResult>,
                        sent': seq<DirectionsRequest>)
    requires attempt < maxRetries
    requires RetryTracks(answer, start, request, maxRetries, attempt, lastError, whole, sent0, waits0, sent, waits)
    requires reply == answer(|sent|, request) && !RateLimited(reply) && sent' == sent + [request]
    ensures reply == whole.outcome && sent' == sent0 + Repeat(request, whole.attempts) && waits == waits0 + whole.waits
  {
    assert |sent| == start + attempt;
    RepeatSnoc(request, attempt);
    assert waits0 + whole.waits + [] == waits0 + whole.waits;
  }

  /** A rate-limited reply is followed by its pause and the next attempt. */
  lemma RetryTracksNext(answer: Answers, start: nat, request: DirectionsRequest, maxRetries: int, attempt: nat,
                        lastError: Option<string>, whole: RetryRun, sent0: seq<DirectionsRequest>, waits0: seq<int>,
                        sent: seq<DirectionsRequest>, waits: seq<int>, reply: Result<DirectionsResult>,
                        sent': seq<DirectionsRequest>, waits': seq<int>)
    requires attempt < maxRetries
    requires RetryTracks(answer, start, request, maxRetries, attempt, lastError, whole, sent0, waits0, sent, waits)
    requires reply == answer(|sent|, request) && RateLimited(reply)
    requires sent' == sent + [request] && waits' == waits + [Backoff(attempt)]
    ensures RetryTracks(answer, start, request, maxRetries, attempt + 1, Some(reply.error), whole,
                        sent0, waits0, sent', waits')
  {
    assert |sent| == start + attempt;
    RepeatSnoc(request, attempt);
    var next := RetryFrom(answer, start, request, maxRetries, attempt + 1, Some(reply.error));
    LogAppend(waits, waits', [Backoff(attempt)], next.waits);
  }

  /** Attempts that have run out end the retries with the last error, or with 'Max retries exceeded'. */
  lemma RetryTracksDone(answer: Answers, start: nat, request: DirectionsRequest, maxRetries: int, attempt: nat,
                        lastError: Option<string>, whole: RetryRun, sent0: seq<DirectionsRequest>, waits0: seq<int>,
                        sent: seq<DirectionsRequest>, waits: seq<int>)
    requires attempt >= maxRetries
    requires RetryTracks(answer, start, request, maxRetries, attempt, lastError, whole, sent0, waits0, sent, waits)
    ensures whole.outcome == Failure(if lastError.Some? then lastError.value else MaxRetriesMessage)
    ensures sent == sent0 + Repeat(request, whole.attempts) && waits == waits0 + whole.waits
  {
    assert waits0 + whole.waits == waits + [];
  }

  /**
   * The provider as a stateful object: its answers are fixed by `answer`,
   * and it records the requests sent and the pauses taken.
   */
  class DirectionsService {
    const answer: Answers
    /** Every request sent to the provider, in order. */
    var sent: seq<DirectionsRequest>
    /** Every setTimeout pause taken, in milliseconds, in order. */
    var waits: seq<int>

    constructor (answer: Answers)
      ensures this.answer == answer && sent == [] && waits == []
    {
      this.answer := answer;
      sent := [];
      waits := [];
    }

    /** getDirections: one call to the provider. */
    method GetDirections(request: DirectionsRequest) returns (reply: Result<DirectionsResult>)
      modifies this
      ensures sent == old(sent) + [request] && waits == old(waits)
      ensures reply == answer(|old(sent)|, request)
    {
      reply := answer(|sent|, request);
      sent := sent + [request];
    }

    /** A setTimeout pause: recorded, not taken. */
    method Sleep(ms: int)
      modifies this
      ensures waits == old(waits) + [ms] && sent == old(sent)
    {
      waits := waits + [ms];
    }

    /** getDirectionsWithRetry with its loop. */
    method GetDirectionsWithRetry(request: DirectionsRequest, maxRetries: int) returns (r: Result<DirectionsResult>)
      modifies this
      ensures var run := Retry(answer, |old(sent)|, request, maxRetries);
              r == run.outcome && sent == old(sent) + Repeat(request, run.attempts)
              && waits == old(waits) + run.waits
    {
      ghost var start, sent0, waits0 := |sent|, sent, waits;
      ghost var whole := Retry(answer, start, request, maxRetries);
      var lastError: Option<string> := None;
      var attempt := 0;
      while attempt < maxRetries
        invariant RetryTracks(answer, start, request, maxRetries, attempt, lastError, whole, sent0, waits0, sent, waits)
        decreases maxRetries - attempt
      {
        ghost var sent1, waits1, lastError1 := sent, waits, lastError;
        var reply := GetDirections(request);
        if reply.Success? {
          RetryTracksStop(answer, start, request, maxRetries, attempt, lastError, whole, sent0, waits0, sent1, waits,
                          reply, sent);
          return reply;
        }
        lastError := Some(reply.error);
        if Includes(reply.error, RateLimitStatus) {
          var waitTime := Backoff(attempt);
          Sleep(waitTime);
          RetryTracksNext(answer, start, request, maxRetries, attempt, lastError1, whole, sent0, waits0, sent1, waits1,
                          reply, sent, waits);
          attempt := attempt + 1;
        } else {
          RetryTracksStop(answer, start, request, maxRetries, attempt, lastError1, whole, sent0, waits0, sent1, waits,
                          reply, sent);
          return reply;
        }
      }
      RetryTracksDone(answer, start, request, maxRetries, attempt, lastError, whole, sent0, waits0, sent, waits);
      r := Failure(if lastError.Some? then lastError.value else MaxRetriesMessage);
    }

    /**
     * One pass of batchDirections' loop: request i with retries, then the
     * pause if the request succeeded and another one follows.
     */
    method BatchStep(requests: seq<DirectionsRequest>, i: nat, delayMs: int) returns (result: Result<DirectionsResult>)
      requires i < |requests|
      modifies this
      ensures var run := Retry(answer, |old(sent)|, requests[i], DefaultMaxRetries);
              && result == run.outcome
              && sent == old(sent) + Repeat(requests[i], run.attempts)
              && waits == old(waits) + run.waits + (if result.Success? && i + 1 < |requests| then [delayMs] else [])
    {
      result := GetDirectionsWithRetry(requests[i], DefaultMaxRetries);
      if result.Success? && i < |requests| - 1 {
        Sleep(delayMs);
      }
    }

    /** batchDirections with its loop. */
    method BatchDirections(requests: seq<DirectionsRequest>, delayMs: int) returns (r: Result<seq<DirectionsResult>>)
      modifies this
      ensures var run := Batch(answer, |old(sent)|, requests, delayMs);
              r == run.outcome && sent == old(sent) + run.sent && waits == old(waits) + run.waits
    {
      ghost var sent0 := sent;
      ghost var waits0 := waits;
      ghost var whole := Batch(answer, |sent|, requests, delayMs);
      var results: seq<DirectionsResult> := [];
      var i := 0;
      BatchTracksStart(answer, requests, delayMs, sent0, waits0);
      while i < |requests|
        invariant i <= |requests|
        invariant BatchTracks(answer, requests, delayMs, i, sent0, waits0, whole, sent, waits, results)
      {
        ghost var sentHere := sent;
        ghost var waitsHere := waits;
        var result := BatchStep(requests, i, delayMs);
        if result.Failure? {
          BatchTracksFail(answer, requests, delayMs, i, sent0, waits0, whole, sentHere, waitsHere, results,
                          sent, waits, result);
          return Failure(result.error);
        }
        BatchTracksNext(answer, requests, delayMs, i, sent0, waits0, whole, sentHere, waitsHere, results,
                        sent, waits, result);
        results := results + [result.value];
        i := i + 1;
      }
      BatchTracksDone(answer, requests, delayMs, sent0, waits0, whole, sent, waits, results);
      r := Success(results);
    }
  }
}
