// src/lib/vectorization/strokeOptimizer.ts: ordering the strokes of a text
// greedily, each next stroke being the unvisited one whose start (or, when
// closer, whose end, the stroke then being reversed) is nearest to the tail
// of the current one.

module StrokeOptimizer {
  import opened Types
  import opened Seqs
  import opened Distance
  import opened Normalizer

  /** The ids of a list of strokes. */
  function Ids(strokes: seq<TextStroke>): set<string>
  {
    set i | 0 <= i < |strokes| :: strokes[i].id
  }

  predicate DistinctIds(strokes: seq<TextStroke>)
  {
    forall i, j :: 0 <= i < j < |strokes| ==> strokes[i].id != strokes[j].id
  }

  /** Every stroke has a point (the source reads the first and last point of each). */
  predicate HasPoints(strokes: seq<TextStroke>)
  {
    forall i :: 0 <= i < |strokes| ==> |strokes[i].points| > 0
  }

  /**
   * The strokes optimizeStrokeOrder can order: zero or one stroke, which
   * comes back as it is, or strokes that all have a point (the search reads
   * the first and last point of each).
   */
  predicate Orderable(strokes: seq<TextStroke>)
  {
    |strokes| <= 1 || HasPoints(strokes)
  }

  /** [...points].reverse() */
  function Reverse<T>(s: seq<T>): (r: seq<T>)
    ensures |r| == |s|
  {
    seq(|s|, i requires 0 <= i < |s| => s[|s| - 1 - i])
  }

  /** Reversing twice gives the points back, and swaps the two ends. */
  lemma ReverseInvolutive<T>(s: seq<T>)
    ensures Reverse(Reverse(s)) == s
    ensures |s| > 0 ==> Reverse(s)[0] == Last(s) && Last(Reverse(s)) == s[0]
  {
    var r := Reverse(Reverse(s));
    assert forall i :: 0 <= i < |s| ==> r[i] == s[i];
  }

  /** The state of the inner search: nearestStroke, minDistance (None for Infinity), shouldReverse. */
  datatype Scan = Scan(nearest: Option<int>, minDistance: Option<real>, shouldReverse: bool)

  /** `d < minDistance`, where None stands for Infinity. */
  predicate Below(d: real, minDistance: Option<real>)
  {
    minDistance.None? || d < minDistance.value
  }

  /**
   * The inner for-of loop after it has looked at the first n strokes, from
   * the tail of the current stroke; a visited stroke is skipped.
   */
  function ScanStrokes(m: Runtime, strokes: seq<TextStroke>, visited: set<string>, tail: Point2D, n: int): (s: Scan)
    requires HasPoints(strokes) && 0 <= n <= |strokes|
    ensures s.nearest.Some? <==> s.minDistance.Some?
    ensures s.nearest.Some? ==> 0 <= s.nearest.value < n && strokes[s.nearest.value].id !in visited
    ensures s.nearest.None? ==> forall j :: 0 <= j < n ==> strokes[j].id in visited
    decreases n
  {
    if n == 0 then Scan(None, None, false)
    else
      var prev := ScanStrokes(m, strokes, visited, tail, n - 1);
      var stroke := strokes[n - 1];
      if stroke.id in visited then prev
      else
        var distToStart := Distance2D(m, tail, stroke.points[0]);
        var distToEnd := Distance2D(m, tail, Last(stroke.points));
        var afterStart :=
          if Below(distToStart, prev.minDistance) then Scan(Some(n - 1), Some(distToStart), false) else prev;
        if Below(distToEnd, afterStart.minDistance) then Scan(Some(n - 1), Some(distToEnd), true)
        else afterStart
  }

  function DistToStart(m: Runtime, tail: Point2D, stroke: TextStroke): real
    requires |stroke.points| > 0
  {
    Distance2D(m, tail, stroke.points[0])
  }

  function DistToEnd(m: Runtime, tail: Point2D, stroke: TextStroke): real
    requires |stroke.points| > 0
  {
    Distance2D(m, tail, Last(stroke.points))
  }

  /**
   * A scan of the first n strokes chose the (stroke, orientation) nearest
   * to the tail among all unvisited strokes in both orientations; an
   * earlier unvisited stroke is strictly farther in both orientations, and
   * a reversed choice is strictly nearer than the same stroke taken forward.
   */
  ghost predicate Minimal(m: Runtime, strokes: seq<TextStroke>, visited: set<string>, tail: Point2D, n: int, s: Scan)
    requires HasPoints(strokes) && 0 <= n <= |strokes|
  {
    s.nearest.Some? ==>
      var k := s.nearest.value;
      && 0 <= k < n && s.minDistance.Some?
      && var d := s.minDistance.value;
      && d == (if s.shouldReverse then DistToEnd(m, tail, strokes[k]) else DistToStart(m, tail, strokes[k]))
      && (s.shouldReverse ==> DistToStart(m, tail, strokes[k]) > d)
      && (forall j :: 0 <= j < n && strokes[j].id !in visited ==>
            DistToStart(m, tail, strokes[j]) >= d && DistToEnd(m, tail, strokes[j]) >= d)
      && (forall j :: 0 <= j < k && strokes[j].id !in visited ==>
            DistToStart(m, tail, strokes[j]) > d && DistToEnd(m, tail, strokes[j]) > d)
  }

  /** The search's choice is the nearest unvisited stroke end, the earliest such stroke on a tie. */
  lemma {:induction false} ScanIsMinimal(m: Runtime, strokes: seq<TextStroke>, visited: set<string>, tail: Point2D, n: int)
    requires HasPoints(strokes) && 0 <= n <= |strokes|
    ensures Minimal(m, strokes, visited, tail, n, ScanStrokes(m, strokes, visited, tail, n))
    decreases n
  {
    if n > 0 {
      ScanIsMinimal(m, strokes, visited, tail, n - 1);
      if strokes[n - 1].id !in visited {
        ScanStepMinimal(m, strokes, visited, tail, n);
      }
    }
  }

  /** Looking at one more unvisited stroke keeps the choice minimal. */
  lemma ScanStepMinimal(m: Runtime, strokes: seq<TextStroke>, visited: set<string>, tail: Point2D, n: int)
    requires HasPoints(strokes) && 0 < n <= |strokes| && strokes[n - 1].id !in visited
    requires Minimal(m, strokes, visited, tail, n - 1, ScanStrokes(m, strokes, visited, tail, n - 1))
    ensures Minimal(m, strokes, visited, tail, n, ScanStrokes(m, strokes, visited, tail, n))
  {
    var prev := ScanStrokes(m, strokes, visited, tail, n - 1);
    var ds, de := DistToStart(m, tail, strokes[n - 1]), DistToEnd(m, tail, strokes[n - 1]);
    var afterStart := if Below(ds, prev.minDistance) then Scan(Some(n - 1), Some(ds), false) else prev;
    if Below(de, afterStart.minDistance) {
      var s := Scan(Some(n - 1), Some(de), true);
      assert ScanStrokes(m, strokes, visited, tail, n) == s;
      MinimalExtend(m, strokes, visited, tail, n, prev, s);
    } else if Below(ds, prev.minDistance) {
      assert ScanStrokes(m, strokes, visited, tail, n) == afterStart;
      MinimalExtend(m, strokes, visited, tail, n, prev, afterStart);
    } else {
      assert ScanStrokes(m, strokes, visited, tail, n) == prev;
      MinimalKeep(m, strokes, visited, tail, n, prev);
    }
  }

  /** A new choice of stroke n - 1 nearer than every earlier choice is minimal. */
  lemma MinimalExtend(m: Runtime, strokes: seq<TextStroke>, visited: set<string>, tail: Point2D, n: int, prev: Scan, s: Scan)
    requires HasPoints(strokes) && 0 < n <= |strokes|
    requires Minimal(m, strokes, visited, tail, n - 1, prev) && (prev.nearest.Some? <==> prev.minDistance.Some?)
    requires prev.nearest.None? ==> forall j :: 0 <= j < n - 1 ==> strokes[j].id in visited
    requires s.nearest == Some(n - 1) && s.minDistance.Some?
    requires var d := s.minDistance.value;
             && d == (if s.shouldReverse then DistToEnd(m, tail, strokes[n - 1]) else DistToStart(m, tail, strokes[n - 1]))
             && (s.shouldReverse ==> DistToStart(m, tail, strokes[n - 1]) > d)
             && DistToStart(m, tail, strokes[n - 1]) >= d && DistToEnd(m, tail, strokes[n - 1]) >= d
             && (prev.minDistance.Some? ==> prev.minDistance.value > d)
    ensures Minimal(m, strokes, visited, tail, n, s)
  {
    var d := s.minDistance.value;
    forall j | 0 <= j < n - 1 && strokes[j].id !in visited
      ensures DistToStart(m, tail, strokes[j]) > d && DistToEnd(m, tail, strokes[j]) > d
    {
      assert prev.nearest.Some?;
    }
  }

  /** Keeping an earlier choice that stroke n - 1 does not beat stays minimal. */
  lemma MinimalKeep(m: Runtime, strokes: seq<TextStroke>, visited: set<string>, tail: Point2D, n: int, prev: Scan)
    requires HasPoints(strokes) && 0 < n <= |strokes|
    requires Minimal(m, strokes, visited, tail, n - 1, prev) && prev.nearest.Some?
    requires !Below(DistToStart(m, tail, strokes[n - 1]), prev.minDistance)
    requires !Below(DistToEnd(m, tail, strokes[n - 1]), prev.minDistance)
    ensures Minimal(m, strokes, visited, tail, n, prev)
  {
  }

  /** The stroke added for a choice: the input stroke, reversed when closer that way. */
  function Oriented(stroke: TextStroke, reverse: bool): TextStroke
  {
    if reverse then TextStroke(stroke.id, Reverse(stroke.points)) else stroke
  }

  /**
   * The strokes the outer while loop adds from a state with the given
   * visited ids and current stroke. When the search finds nothing the
   * source loops forever; that cannot happen with distinct ids
   * (GreedyCovers), and the definition then stops.
   */
  function GreedyFrom(m: Runtime, strokes: seq<TextStroke>, visited: set<string>, current: TextStroke): seq<TextStroke>
    requires HasPoints(strokes) && |current.points| > 0
    decreases |strokes| - |visited|
  {
    if |visited| >= |strokes| then []
    else
      var s := ScanStrokes(m, strokes, visited, Last(current.points), |strokes|);
      match s.nearest
      case None => []
      case Some(k) =>
        var next := Oriented(strokes[k], s.shouldReverse);
        [next] + GreedyFrom(m, strokes, visited + {strokes[k].id}, next)
  }

  /** optimizeStrokeOrder: strokes[0] first, then the greedy choices. */
  function OptimizedOrder(m: Runtime, strokes: seq<TextStroke>): seq<TextStroke>
    requires Orderable(strokes)
  {
    if |strokes| <= 1 then strokes
    else [strokes[0]] + GreedyFrom(m, strokes, {strokes[0].id}, strokes[0])
  }

  /** t is one of the strokes, with its points as given or reversed. */
  ghost predicate FromInput(strokes: seq<TextStroke>, t: TextStroke)
  {
    exists j :: 0 <= j < |strokes| && strokes[j].id == t.id
                && (t.points == strokes[j].points || t.points == Reverse(strokes[j].points))
  }

  lemma {:induction false} IdsCardinality(strokes: seq<TextStroke>)
    requires DistinctIds(strokes)
    ensures |Ids(strokes)| == |strokes|
    decreases |strokes|
  {
    if |strokes| > 0 {
      var front := DropLast(strokes);
      IdsCardinality(front);
      assert Ids(strokes) == Ids(front) + {Last(strokes).id};
    }
  }

  lemma {:induction false} SubsetCardinality<T>(a: set<T>, b: set<T>)
    requires a <= b
    ensures |a| <= |b|
    ensures |a| == |b| ==> a == b
    decreases |b|
  {
    if b != {} {
      var x :| x in b;
      SubsetCardinality(a - {x}, b - {x});
      assert b == (b - {x}) + {x};
      if x in a {
        assert a == (a - {x}) + {x};
      } else {
        assert a - {x} == a;
      }
    }
  }

  /** With distinct ids, a state that has not visited every stroke finds one. */
  lemma ScanFindsUnvisited(m: Runtime, strokes: seq<TextStroke>, visited: set<string>, tail: Point2D)
    requires HasPoints(strokes) && DistinctIds(strokes)
    requires visited <= Ids(strokes) && |visited| < |strokes|
    ensures ScanStrokes(m, strokes, visited, tail, |strokes|).nearest.Some?
  {
    IdsCardinality(strokes);
    if ScanStrokes(m, strokes, visited, tail, |strokes|).nearest.None? {
      assert Ids(strokes) <= visited;
      SubsetCardinality(Ids(strokes), visited);
      assert false;
    }
  }

  /** Prepending a stroke whose id is new keeps the ids distinct. */
  lemma IdsCons(t: TextStroke, rest: seq<TextStroke>)
    ensures Ids([t] + rest) == {t.id} + Ids(rest)
    ensures DistinctIds(rest) && t.id !in Ids(rest) ==> DistinctIds([t] + rest)
  {
    var r := [t] + rest;
    forall id | id in Ids(r)
      ensures id in {t.id} + Ids(rest)
    {
      var i :| 0 <= i < |r| && r[i].id == id;
      if i > 0 {
        assert rest[i - 1].id == id;
      }
    }
    forall id | id in Ids(rest)
      ensures id in Ids(r)
    {
      var i :| 0 <= i < |rest| && rest[i].id == id;
      assert r[i + 1].id == id;
    }
    assert r[0].id == t.id;
    if DistinctIds(rest) && t.id !in Ids(rest) {
      forall i, j | 0 <= i < j < |r|
        ensures r[i].id != r[j].id
      {
        if i == 0 {
          assert r[j].id == rest[j - 1].id;
        } else {
          assert r[i].id == rest[i - 1].id && r[j].id == rest[j - 1].id;
        }
      }
    }
  }

  ghost predicate AllFromInput(strokes: seq<TextStroke>, r: seq<TextStroke>)
  {
    forall i :: 0 <= i < |r| ==> FromInput(strokes, r[i])
  }

  lemma AllFromInputCons(strokes: seq<TextStroke>, t: TextStroke, rest: seq<TextStroke>)
    requires FromInput(strokes, t) && AllFromInput(strokes, rest)
    ensures AllFromInput(strokes, [t] + rest)
  {
    var r := [t] + rest;
    forall i | 0 <= i < |r|
      ensures FromInput(strokes, r[i])
    {
      if i > 0 {
        assert r[i] == rest[i - 1];
      }
    }
  }

  /** One unfolding of the outer loop from a state that has not visited every stroke. */
  lemma GreedyStep(m: Runtime, strokes: seq<TextStroke>, visited: set<string>, current: TextStroke)
    returns (k: int, next: TextStroke)
    requires HasPoints(strokes) && DistinctIds(strokes) && |current.points| > 0
    requires visited <= Ids(strokes) && |visited| < |strokes|
    ensures ScanStrokes(m, strokes, visited, Last(current.points), |strokes|).nearest == Some(k)
    ensures 0 <= k < |strokes| && strokes[k].id in Ids(strokes) - visited
    ensures next == Oriented(strokes[k], ScanStrokes(m, strokes, visited, Last(current.points), |strokes|).shouldReverse)
    ensures FromInput(strokes, next) && |next.points| > 0
    ensures GreedyFrom(m, strokes, visited, current)
            == [next] + GreedyFrom(m, strokes, visited + {strokes[k].id}, next)
  {
    var s := ScanStrokes(m, strokes, visited, Last(current.points), |strokes|);
    ScanFindsUnvisited(m, strokes, visited, Last(current.points));
    k := s.nearest.value;
    next := Oriented(strokes[k], s.shouldReverse);
    assert strokes[k].id in Ids(strokes);
  }

  /**
   * From any state whose visited ids belong to the strokes, the loop adds
   * each unvisited stroke exactly once, with its points kept or reversed.
   */
  lemma {:induction false} GreedyCovers(m: Runtime, strokes: seq<TextStroke>, visited: set<string>, current: TextStroke)
    requires HasPoints(strokes) && DistinctIds(strokes) && |current.points| > 0
    requires visited <= Ids(strokes)
    ensures var r := GreedyFrom(m, strokes, visited, current);
            |r| == |strokes| - |visited|
            && Ids(r) == Ids(strokes) - visited
            && DistinctIds(r)
            && AllFromInput(strokes, r)
    decreases |strokes| - |visited|
  {
    IdsCardinality(strokes);
    SubsetCardinality(visited, Ids(strokes));
    if |visited| < |strokes| {
      var k, next := GreedyStep(m, strokes, visited, current);
      var visited' := visited + {strokes[k].id};
      var rest := GreedyFrom(m, strokes, visited', next);
      GreedyCovers(m, strokes, visited', next);
      IdsCons(next, rest);
      AllFromInputCons(strokes, next, rest);
    }
  }

  /**
   * With distinct ids and non-empty strokes, the order is a permutation of
   * the strokes up to reversal: same length, each id exactly once, strokes[0]
   * first and unreversed. Zero or one stroke is returned unchanged.
   */
  lemma OptimizedOrderProperties(m: Runtime, strokes: seq<TextStroke>)
    requires Orderable(strokes) && DistinctIds(strokes)
    ensures var r := OptimizedOrder(m, strokes);
            (|strokes| <= 1 ==> r == strokes)
            && |r| == |strokes| && Ids(r) == Ids(strokes) && DistinctIds(r)
            && (|strokes| > 0 ==> r[0] == strokes[0])
            && AllFromInput(strokes, r)
  {
    if |strokes| <= 1 {
      if |strokes| == 1 {
        assert FromInput(strokes, strokes[0]);
      }
    } else {
      GreedyOrderProperties(m, strokes);
    }
  }

  /** The order of two strokes or more: strokes[0], then each other stroke once, kept or reversed. */
  lemma GreedyOrderProperties(m: Runtime, strokes: seq<TextStroke>)
    requires HasPoints(strokes) && DistinctIds(strokes) && |strokes| >= 2
    ensures var r := [strokes[0]] + GreedyFrom(m, strokes, {strokes[0].id}, strokes[0]);
            && |r| == |strokes| && Ids(r) == Ids(strokes) && DistinctIds(r) && r[0] == strokes[0]
            && AllFromInput(strokes, r)
  {
    assert strokes[0].id in Ids(strokes);
    var rest := GreedyFrom(m, strokes, {strokes[0].id}, strokes[0]);
    GreedyCovers(m, strokes, {strokes[0].id}, strokes[0]);
    IdsCons(strokes[0], rest);
    assert FromInput(strokes, strokes[0]);
    AllFromInputCons(strokes, strokes[0], rest);
  }

  /** The inner for-of loop of optimizeStrokeOrder: the nearest unvisited stroke and orientation. */
  method FindNearest(m: Runtime, strokes: seq<TextStroke>, visited: set<string>, tail: Point2D)
    returns (nearest: Option<int>, minDistance: Option<real>, shouldReverse: bool)
    requires HasPoints(strokes)
    ensures Scan(nearest, minDistance, shouldReverse) == ScanStrokes(m, strokes, visited, tail, |strokes|)
  {
    nearest, minDistance, shouldReverse := None, None, false;
    var j := 0;
    while j < |strokes|
      invariant 0 <= j <= |strokes|
      invariant Scan(nearest, minDistance, shouldReverse) == ScanStrokes(m, strokes, visited, tail, j)
    {
      var stroke := strokes[j];
      if stroke.id !in visited {
        var distToStart := Distance2D(m, tail, stroke.points[0]);
        var distToEnd := Distance2D(m, tail, stroke.points[|stroke.points| - 1]);
        if Below(distToStart, minDistance) {
          minDistance := Some(distToStart);
          nearest := Some(j);
          shouldReverse := false;
        }
        if Below(distToEnd, minDistance) {
          minDistance := Some(distToEnd);
          nearest := Some(j);
          shouldReverse := true;
        }
      }
      j := j + 1;
    }
  }

  /** One iteration of the outer loop keeps the loop's relation to OptimizedOrder. */
  lemma OrderStep(m: Runtime, strokes: seq<TextStroke>, visited: set<string>, current: TextStroke,
                  ordered: seq<TextStroke>, s: Scan)
    requires HasPoints(strokes) && DistinctIds(strokes) && |current.points| > 0
    requires visited <= Ids(strokes) && |visited| < |strokes|
    requires s == ScanStrokes(m, strokes, visited, Last(current.points), |strokes|)
    ensures s.nearest.Some? && 0 <= s.nearest.value < |strokes|
    ensures var id := strokes[s.nearest.value].id;
            var next := Oriented(strokes[s.nearest.value], s.shouldReverse);
            id !in visited && visited + {id} <= Ids(strokes) && |visited + {id}| == |visited| + 1
            && |next.points| > 0
            && ordered + GreedyFrom(m, strokes, visited, current)
               == (ordered + [next]) + GreedyFrom(m, strokes, visited + {id}, next)
  {
    var k, next := GreedyStep(m, strokes, visited, current);
    var id := strokes[k].id;
    assert k == s.nearest.value && id in Ids(strokes) - visited;
    assert |visited + {id}| == |visited| + 1;
    var rest := GreedyFrom(m, strokes, visited + {id}, next);
    assert ordered + ([next] + rest) == (ordered + [next]) + rest;
  }

  /** optimizeStrokeOrder, with its visited set and outer while loop. */
  method OptimizeStrokeOrder(m: Runtime, strokes: seq<TextStroke>) returns (orderedStrokes: seq<TextStroke>)
    requires Orderable(strokes) && DistinctIds(strokes)
    ensures orderedStrokes == OptimizedOrder(m, strokes)
  {
    if |strokes| <= 1 {
      return strokes;
    }
    var visited: set<string> := {};
    orderedStrokes := [];
    var currentStroke := strokes[0];
    visited := visited + {currentStroke.id};
    orderedStrokes := orderedStrokes + [currentStroke];
    assert strokes[0].id in Ids(strokes);
    while |visited| < |strokes|
      invariant visited <= Ids(strokes) && |currentStroke.points| > 0
      invariant orderedStrokes + GreedyFrom(m, strokes, visited, currentStroke) == OptimizedOrder(m, strokes)
      decreases |strokes| - |visited|
    {
      var tail := currentStroke.points[|currentStroke.points| - 1];
      var nearest, minDistance, shouldReverse := FindNearest(m, strokes, visited, tail);
      // Some stroke is unvisited, so the search found one: `if (nearestStroke)` holds.
      OrderStep(m, strokes, visited, currentStroke, orderedStrokes, Scan(nearest, minDistance, shouldReverse));
      var k := nearest.value;
      visited := visited + {strokes[k].id};
      var strokeToAdd := Oriented(strokes[k], shouldReverse);
      orderedStrokes := orderedStrokes + [strokeToAdd];
      currentStroke := strokeToAdd;
    }
  }
}
