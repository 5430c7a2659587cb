// Shared value types of the running-painter core: planar points of a drawn
// path, geographic coordinates, and the Option/Result wrappers used for
// values that may be absent and operations that may fail.

module Types {

  /** A point of a drawn or normalized path (plain JavaScript numbers). */
  datatype Point2D = Point2D(x: real, y: real)

  /** A geographic coordinate in degrees. */
  datatype LatLng = LatLng(lat: real, lng: real)

  /**
   * A stroke of a glyph: an identifier and its points in drawing order.
   * (TextStroke is used by the stroke helpers but not declared by the
   * module they import it from; this is its evident shape.)
   */
  datatype TextStroke = TextStroke(id: string, points: seq<Point2D>)

  datatype Option<T> = None | Some(value: T)

  /** Success carries a value; Failure carries the message of the Error thrown. */
  datatype Result<T> = Success(value: T) | Failure(error: string)

  function Abs(x: real): real { if x < 0.0 then -x else x }

  function Min(a: real, b: real): real { if a <= b then a else b }

  function Max(a: real, b: real): real { if a >= b then a else b }

  /**
   * The product k * x, as a named term: proofs about sums of products match
   * these terms where bare products of variables would not be matched.
   */
  function Times(k: real, x: real): real { k * x }

  /** A bound on the ratio current / target is the scaled bound on current. */
  lemma ScaledBound(ratio: real, target: real, current: real, bound: real)
    requires target > 0.0 && ratio * target == current
    ensures ratio >= bound <==> current >= bound * target
    ensures ratio <= bound <==> current <= bound * target
    ensures ratio > bound <==> current > bound * target
    ensures ratio < bound <==> current < bound * target
  {
    assert (ratio - bound) * target == current - bound * target;
  }

  /** Dividing by y and multiplying back by y gives x. */
  lemma QuotientTimes(x: real, y: real)
    requires y != 0.0
    ensures (x / y) * y == x
  {
  }

  /** JavaScript Math.round: the nearest integer, halves rounded up. */
  function Round(x: real): (r: int)
    ensures x - 0.5 < r as real <= x + 0.5
  {
    (x + 0.5).Floor
  }

  /** JavaScript Math.floor. */
  function Floor(x: real): (r: int)
    ensures r as real <= x < r as real + 1.0
  {
    x.Floor
  }

  /** JavaScript Math.ceil. */
  function Ceil(x: real): (r: int)
    ensures r as real - 1.0 < x <= r as real
  {
    -((-x).Floor)
  }
}

module Seqs {

  function Last<T>(s: seq<T>): T
    requires |s| > 0
  {
    s[|s| - 1]
  }

  function DropLast<T>(s: seq<T>): seq<T>
    requires |s| > 0
  {
    s[..|s| - 1]
  }

  lemma SnocParts<T>(a: seq<T>, x: T)
    ensures DropLast(a + [x]) == a && Last(a + [x]) == x
  {
  }

  lemma DropLastThenSnoc<T>(s: seq<T>)
    requires |s| > 0
    ensures DropLast(s) + [Last(s)] == s
  {
  }

  lemma PrefixParts<T>(s: seq<T>, i: int)
    requires 0 <= i < |s|
    ensures DropLast(s[..i + 1]) == s[..i] && Last(s[..i + 1]) == s[i]
  {
  }

  lemma AppendParts<T>(a: seq<T>, c: seq<T>)
    requires |c| > 0
    ensures DropLast(a + c) == a + DropLast(c) && Last(a + c) == Last(c)
  {
  }

  /** The first t + 1 elements are the first t followed by s[t]. */
  lemma PrefixSnoc<T>(s: seq<T>, t: int)
    requires 0 <= t < |s|
    ensures s[..t] + [s[t]] == s[..t + 1]
  {
  }

  /** Pushing s[t] after a and the first t elements of s. */
  lemma PushPrefix<T>(a: seq<T>, s: seq<T>, t: int)
    requires 0 <= t < |s|
    ensures a + s[..t] + [s[t]] == a + s[..t + 1]
  {
  }

  /**
   * a can be obtained from b by deleting elements: the kept elements keep
   * their relative order.
   */
  predicate IsSubsequence<T(==)>(a: seq<T>, b: seq<T>)
    decreases |b|
  {
    if |b| == 0 then |a| == 0
    else
      (|a| > 0 && Last(a) == Last(b) && IsSubsequence(DropLast(a), DropLast(b)))
      || IsSubsequence(a, DropLast(b))
  }

  lemma {:induction false} EmptyIsSubsequence<T>(b: seq<T>)
    ensures IsSubsequence([], b)
    decreases |b|
  {
    if |b| > 0 {
      EmptyIsSubsequence(DropLast(b));
    }
  }

  lemma {:induction false} SubsequenceRefl<T>(a: seq<T>)
    ensures IsSubsequence(a, a)
    decreases |a|
  {
    if |a| > 0 {
      SubsequenceRefl(DropLast(a));
    }
  }

  lemma SubsequenceSnoc<T>(a: seq<T>, b: seq<T>, x: T)
    requires IsSubsequence(a, b)
    ensures IsSubsequence(a + [x], b + [x])
  {
    SnocParts(a, x);
    SnocParts(b, x);
  }

  lemma SubsequenceExtend<T>(a: seq<T>, b: seq<T>, x: T)
    requires IsSubsequence(a, b)
    ensures IsSubsequence(a, b + [x])
  {
    SnocParts(b, x);
  }

  lemma {:induction false} SubsequenceLength<T>(a: seq<T>, b: seq<T>)
    requires IsSubsequence(a, b)
    ensures |a| <= |b|
    decreases |b|
  {
    if |b| > 0 {
      if |a| > 0 && Last(a) == Last(b) && IsSubsequence(DropLast(a), DropLast(b)) {
        SubsequenceLength(DropLast(a), DropLast(b));
      } else {
        SubsequenceLength(a, DropLast(b));
      }
    }
  }

  /** Dropping the last element of both sides keeps the relation. */
  lemma {:induction false} SubsequenceDropLast<T>(a: seq<T>, b: seq<T>)
    requires |a| > 0 && IsSubsequence(a, b)
    ensures |b| > 0 && IsSubsequence(DropLast(a), DropLast(b))
    decreases |b|
  {
    if Last(a) == Last(b) && IsSubsequence(DropLast(a), DropLast(b)) {
    } else {
      SubsequenceDropLast(a, DropLast(b));
      SubsequenceExtend(DropLast(a), DropLast(DropLast(b)), Last(DropLast(b)));
      DropLastThenSnoc(DropLast(b));
    }
  }

  lemma {:induction false} SubsequenceAppend<T>(a: seq<T>, b: seq<T>, c: seq<T>, d: seq<T>)
    requires IsSubsequence(a, b) && IsSubsequence(c, d)
    ensures IsSubsequence(a + c, b + d)
    decreases |d|
  {
    if |d| == 0 {
      AppendEmpty(a, c);
      AppendEmpty(b, d);
    } else if |c| > 0 && Last(c) == Last(d) && IsSubsequence(DropLast(c), DropLast(d)) {
      SubsequenceAppend(a, b, DropLast(c), DropLast(d));
      AppendParts(a, c);
      AppendParts(b, d);
    } else {
      SubsequenceAppend(a, b, c, DropLast(d));
      AppendParts(b, d);
    }
  }

  lemma {:induction false} SubsequenceTrans<T>(a: seq<T>, b: seq<T>, c: seq<T>)
    requires IsSubsequence(a, b) && IsSubsequence(b, c)
    ensures IsSubsequence(a, c)
    decreases |c|
  {
    if |c| == 0 {
    } else if |b| == 0 {
      assert |a| == 0;
      EmptyIsSubsequence(c);
    } else if Last(b) == Last(c) && IsSubsequence(DropLast(b), DropLast(c)) {
      if |a| > 0 && Last(a) == Last(b) && IsSubsequence(DropLast(a), DropLast(b)) {
        SubsequenceTrans(DropLast(a), DropLast(b), DropLast(c));
      } else {
        SubsequenceTrans(a, DropLast(b), DropLast(c));
      }
    } else {
      SubsequenceTrans(a, b, DropLast(c));
    }
  }

  /** Every element of a subsequence is an element of the sequence. */
  lemma {:induction false} SubsequenceElements<T>(a: seq<T>, b: seq<T>)
    requires IsSubsequence(a, b)
    ensures forall x :: x in a ==> x in b
    decreases |b|
  {
    if |b| > 0 {
      if |a| > 0 && Last(a) == Last(b) && IsSubsequence(DropLast(a), DropLast(b)) {
        SubsequenceElements(DropLast(a), DropLast(b));
        DropLastThenSnoc(a);
        DropLastThenSnoc(b);
      } else {
        SubsequenceElements(a, DropLast(b));
        DropLastThenSnoc(b);
      }
    }
  }

  /**
   * Two subsequences of the parts of s split at index k, where they share
   * s[k], join into a subsequence of s once the left one drops its last
   * element.
   */
  lemma SubsequenceJoin<T>(s: seq<T>, k: int, left: seq<T>, right: seq<T>)
    requires 0 <= k < |s| && |left| > 0
    requires IsSubsequence(left, s[..k + 1]) && IsSubsequence(right, s[k..])
    ensures IsSubsequence(DropLast(left) + right, s)
  {
    SubsequenceDropLast(left, s[..k + 1]);
    PrefixParts(s, k);
    SplitAt(s, k);
    SubsequenceAppend(DropLast(left), s[..k], right, s[k..]);
  }

  lemma SplitAt<T>(s: seq<T>, k: int)
    requires 0 <= k <= |s|
    ensures s[..k] + s[k..] == s
  {
  }

  /** A two-element sequence of the ends is a subsequence. */
  lemma EndsAreSubsequence<T>(b: seq<T>)
    requires |b| >= 2
    ensures IsSubsequence([b[0], Last(b)], b)
  {
    var inner := b[1..|b| - 1];
    EmptyIsSubsequence(inner);
    SubsequenceRefl([b[0]]);
    SubsequenceAppend([b[0]], [b[0]], [], inner);
    SubsequenceSnoc([b[0]] + [], [b[0]] + inner, Last(b));
    EndsParts(b);
  }

  /** The middle and last parts of a + b + c, read back by position. */
  lemma ThreeParts<T>(a: seq<T>, b: seq<T>, c: seq<T>)
    ensures (a + b + c)[|a|..|a| + |b|] == b
    ensures (a + b + c)[|a| + |b|..] == c
  {
  }

  /** A slice within a prefix of w is the same slice of the prefix. */
  lemma SliceOfPrefix<T>(w: seq<T>, p: seq<T>, lo: int, hi: int)
    requires |p| <= |w| && w[..|p|] == p && 0 <= lo <= hi <= |p|
    ensures w[lo..hi] == p[lo..hi]
  {
    assert forall j :: lo <= j < hi ==> w[j] == w[..|p|][j];
  }

  /** A prefix of a that is no longer than a is the same prefix of a + c. */
  lemma PrefixOfAppend<T>(a: seq<T>, c: seq<T>, k: int)
    requires 0 <= k <= |a|
    ensures (a + c)[..k] == a[..k]
  {
  }

  /** The first a + 1 elements followed by s[a..b] without its first element. */
  lemma SliceJoin<T>(s: seq<T>, a: int, b: int)
    requires 0 <= a < b <= |s|
    ensures Last(s[..a + 1]) == s[a] == s[a..b][0]
    ensures s[..a + 1] + s[a..b][1..] == s[..b]
  {
  }

  lemma AppendEmpty<T>(a: seq<T>, c: seq<T>)
    requires |c| == 0
    ensures a + c == a
  {
  }

  lemma EndsParts<T>(b: seq<T>)
    requires |b| >= 2
    ensures [b[0]] + [] + [Last(b)] == [b[0], Last(b)]
    ensures [b[0]] + b[1..|b| - 1] + [Last(b)] == b
  {
  }

  /** String.prototype.includes: part occurs in s as a contiguous run. */
  predicate Includes<T(==)>(s: seq<T>, part: seq<T>)
  {
    exists i | 0 <= i <= |s| - |part| :: OccursAt(s, part, i)
  }

  /** part occurs in s at offset i. */
  predicate OccursAt<T(==)>(s: seq<T>, part: seq<T>, i: int)
    requires 0 <= i <= |s| - |part|
  {
    s[i..i + |part|] == part
  }
}
