// src/lib/vectorization/strokeMerger.ts: joining strokes into one path,
// with an elbow point between consecutive strokes when they are not aligned.

module StrokeMerger {
  import opened Types
  import opened Seqs

  /** Offsets at most this large count as aligned. */
  const AlignTolerance: real := 0.001

  /**
   * createConnector: in grid mode the corner (end.x, start.y) of a
   * horizontal-then-vertical elbow, when the two points differ by more than
   * the tolerance on both axes; in smooth mode nothing.
   */
  function CreateConnector(start: Point2D, end: Point2D, gridMode: bool): (r: seq<Point2D>)
    ensures |r| <= 1
  {
    if gridMode then
      var midPoint := Point2D(end.x, start.y);
      if Abs(midPoint.x - start.x) > AlignTolerance && Abs(midPoint.y - end.y) > AlignTolerance then [midPoint]
      else []
    else []
  }

  /**
   * A connector point turns a Manhattan corner: it shares its y with the
   * start and its x with the end, so the step into it is horizontal and the
   * step out of it vertical. There is one exactly when the ends are
   * misaligned on both axes in grid mode.
   */
  lemma ConnectorIsElbow(start: Point2D, end: Point2D, gridMode: bool)
    ensures var r := CreateConnector(start, end, gridMode);
            (|r| == 1 <==> gridMode && Abs(end.x - start.x) > AlignTolerance && Abs(start.y - end.y) > AlignTolerance)
            && forall c :: c in r ==> c.y == start.y && c.x == end.x
  {
  }

  /** Every stroke has a point (the source reads the first and last point of each). */
  predicate HasPoints(strokes: seq<TextStroke>)
  {
    forall i :: 0 <= i < |strokes| ==> |strokes[i].points| > 0
  }

  /**
   * The strokes mergeStrokes can join: a single stroke, whatever its
   * points, or strokes that all have a point (with two strokes or more an
   * empty one makes createConnector read a coordinate of undefined).
   */
  predicate Mergeable(strokes: seq<TextStroke>)
  {
    |strokes| == 1 || HasPoints(strokes)
  }

  /** The connector pushed after stroke i, towards stroke i + 1 (none after the last). */
  function ConnectorAfter(strokes: seq<TextStroke>, i: int): (r: seq<Point2D>)
    requires HasPoints(strokes) && 0 <= i < |strokes|
    ensures |r| <= 1
  {
    if i < |strokes| - 1 then CreateConnector(Last(strokes[i].points), strokes[i + 1].points[0], true)
    else []
  }

  /** mergedPath after the first n iterations of the loop of mergeStrokes. */
  function Pushed(strokes: seq<TextStroke>, n: int): seq<Point2D>
    requires HasPoints(strokes) && 0 <= n <= |strokes|
    decreases n
  {
    if n == 0 then [] else Pushed(strokes, n - 1) + strokes[n - 1].points + ConnectorAfter(strokes, n - 1)
  }

  /** mergeStrokes. The connector is always the grid one: gridMode is never passed. */
  function MergeStrokes(strokes: seq<TextStroke>): seq<Point2D>
    requires Mergeable(strokes)
  {
    if |strokes| == 0 then []
    else if |strokes| == 1 then strokes[0].points
    else Pushed(strokes, |strokes|)
  }

  /** Number of points of the first n strokes. */
  function PointCount(strokes: seq<TextStroke>, n: int): nat
    requires 0 <= n <= |strokes|
    decreases n
  {
    if n == 0 then 0 else PointCount(strokes, n - 1) + |strokes[n - 1].points|
  }

  /**
   * After n iterations the path holds the points of the first n strokes and
   * between 0 and n connector points (one fewer once the last stroke is in).
   */
  lemma {:induction false} PushedLength(strokes: seq<TextStroke>, n: int)
    requires HasPoints(strokes) && 0 <= n <= |strokes|
    ensures PointCount(strokes, n) <= |Pushed(strokes, n)|
    ensures |Pushed(strokes, n)| <= PointCount(strokes, n) + (if 0 < n == |strokes| then n - 1 else n)
    decreases n
  {
    if n > 0 {
      PushedLength(strokes, n - 1);
    }
  }

  /** Stroke i's points sit, whole and in order, at offset |Pushed(strokes, i)| of r. */
  predicate PlacedAt(r: seq<Point2D>, strokes: seq<TextStroke>, i: int)
    requires HasPoints(strokes) && 0 <= i < |strokes|
  {
    var off := |Pushed(strokes, i)|;
    off + |strokes[i].points| <= |r| && r[off..off + |strokes[i].points|] == strokes[i].points
  }

  /**
   * Stroke i is followed in r by its connector, which ends where
   * Pushed(strokes, i + 1) ends.
   */
  predicate ConnectorAt(r: seq<Point2D>, strokes: seq<TextStroke>, i: int)
    requires HasPoints(strokes) && 0 <= i < |strokes|
  {
    var start := |Pushed(strokes, i)| + |strokes[i].points|;
    var next := |Pushed(strokes, i + 1)|;
    start + |ConnectorAfter(strokes, i)| == next <= |r| && r[start..next] == ConnectorAfter(strokes, i)
  }

  /**
   * Once pushed, stroke i and the connector after it keep their place in
   * every later state of the path.
   */
  lemma StrokeAt(strokes: seq<TextStroke>, i: int, n: int)
    requires HasPoints(strokes) && 0 <= i < n <= |strokes|
    ensures PlacedAt(Pushed(strokes, n), strokes, i)
    ensures ConnectorAt(Pushed(strokes, n), strokes, i)
  {
    var p := Pushed(strokes, i + 1);
    var off := |Pushed(strokes, i)|;
    var len := |strokes[i].points|;
    ThreeParts(Pushed(strokes, i), strokes[i].points, ConnectorAfter(strokes, i));
    PushedPrefix(strokes, i + 1, n);
    var w := Pushed(strokes, n);
    SliceOfPrefix(w, p, off, off + len);
    SliceOfPrefix(w, p, off + len, |p|);
  }

  /** Later iterations only append. */
  lemma {:induction false} PushedPrefix(strokes: seq<TextStroke>, k: int, n: int)
    requires HasPoints(strokes) && 0 <= k <= n <= |strokes|
    ensures |Pushed(strokes, k)| <= |Pushed(strokes, n)|
    ensures Pushed(strokes, n)[..|Pushed(strokes, k)|] == Pushed(strokes, k)
    decreases n
  {
    if k < n {
      PushedPrefix(strokes, k, n - 1);
      var a := Pushed(strokes, k);
      var b := Pushed(strokes, n - 1);
      var c := Pushed(strokes, n);
      assert c == b + (strokes[n - 1].points + ConnectorAfter(strokes, n - 1));
      PrefixOfAppend(b, strokes[n - 1].points + ConnectorAfter(strokes, n - 1), |a|);
    }
  }

  /**
   * The merged path is stroke 1, a connector of 0 or 1 point, stroke 2, ...,
   * stroke k, and its length lies between the number of points and that
   * plus k - 1. A single stroke is returned as is, which is also what the
   * general loop would give.
   */
  lemma MergeStrokesShape(strokes: seq<TextStroke>)
    requires Mergeable(strokes)
    ensures var r := MergeStrokes(strokes);
            (|strokes| == 0 ==> r == []) && (|strokes| == 1 ==> r == strokes[0].points)
    ensures HasPoints(strokes) ==>
              var r := MergeStrokes(strokes);
              var k := |strokes|;
              && r == Pushed(strokes, k)
              && PointCount(strokes, k) <= |r| <= PointCount(strokes, k) + (if k == 0 then 0 else k - 1)
              && forall i :: 0 <= i < k ==> PlacedAt(r, strokes, i) && ConnectorAt(r, strokes, i)
  {
    if !HasPoints(strokes) {
      return;
    }
    var k := |strokes|;
    if k == 1 {
      assert Pushed(strokes, 1) == [] + strokes[0].points + [];
    }
    PushedLength(strokes, k);
    forall i | 0 <= i < k
      ensures PlacedAt(Pushed(strokes, k), strokes, i) && ConnectorAt(Pushed(strokes, k), strokes, i)
    {
      StrokeAt(strokes, i, k);
    }
  }

  /** mergeStrokes with its push loop. */
  method MergeStrokesLoop(strokes: seq<TextStroke>) returns (mergedPath: seq<Point2D>)
    requires Mergeable(strokes)
    ensures mergedPath == MergeStrokes(strokes)
  {
    if |strokes| == 0 {
      return [];
    }
    if |strokes| == 1 {
      return strokes[0].points;
    }
    mergedPath := [];
    var i := 0;
    while i < |strokes|
      invariant 0 <= i <= |strokes|
      invariant mergedPath == Pushed(strokes, i)
    {
      var stroke := strokes[i];
      mergedPath := mergedPath + stroke.points;
      if i < |strokes| - 1 {
        var currentEnd := stroke.points[|stroke.points| - 1];
        var nextStart := strokes[i + 1].points[0];
        var connector := CreateConnector(currentEnd, nextStart, true);
        mergedPath := mergedPath + connector;
      } else {
        assert mergedPath == mergedPath + [];
      }
      i := i + 1;
    }
  }
}
