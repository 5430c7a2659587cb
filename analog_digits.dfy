// src/lib/vectorization/analogDigits.ts: the hand-drawn outlines of the
// digits 0 to 9, the lookups on that table, and the horizontal layout of a
// text as consecutive digit outlines.

module AnalogDigits {
  import opened Types
  import opened Seqs

  // ANALOG_DIGITS: one outline per digit, in the unit square.

  const Digit0: seq<Point2D> :=
    [Point2D(0.5, 0.0), Point2D(0.75, 0.05), Point2D(0.9, 0.2), Point2D(0.95, 0.5)]
    + [Point2D(0.9, 0.8), Point2D(0.75, 0.95), Point2D(0.5, 1.0), Point2D(0.25, 0.95)]
    + [Point2D(0.1, 0.8), Point2D(0.05, 0.5), Point2D(0.1, 0.2), Point2D(0.25, 0.05)]
    + [Point2D(0.5, 0.0)]

  const Digit1: seq<Point2D> :=
    [Point2D(0.35, 0.15), Point2D(0.5, 0.0), Point2D(0.5, 1.0), Point2D(0.3, 1.0)]
    + [Point2D(0.7, 1.0), Point2D(0.5, 1.0), Point2D(0.5, 0.0), Point2D(0.35, 0.15)]

  const Digit2: seq<Point2D> :=
    [Point2D(0.1, 0.2), Point2D(0.15, 0.05), Point2D(0.3, 0.0), Point2D(0.7, 0.0)]
    + [Point2D(0.85, 0.05), Point2D(0.9, 0.15), Point2D(0.9, 0.3), Point2D(0.85, 0.4)]
    + [Point2D(0.7, 0.5), Point2D(0.5, 0.6), Point2D(0.3, 0.75), Point2D(0.15, 0.9)]
    + [Point2D(0.1, 1.0), Point2D(0.9, 1.0), Point2D(0.9, 0.85), Point2D(0.3, 0.85)]
    + [Point2D(0.5, 0.7), Point2D(0.7, 0.55), Point2D(0.8, 0.4), Point2D(0.8, 0.2)]
    + [Point2D(0.75, 0.1), Point2D(0.6, 0.05), Point2D(0.4, 0.05), Point2D(0.25, 0.1)]
    + [Point2D(0.15, 0.18), Point2D(0.1, 0.2)]

  const Digit3: seq<Point2D> :=
    [Point2D(0.15, 0.15), Point2D(0.25, 0.05), Point2D(0.4, 0.0), Point2D(0.6, 0.0)]
    + [Point2D(0.75, 0.05), Point2D(0.85, 0.15), Point2D(0.9, 0.25), Point2D(0.85, 0.35)]
    + [Point2D(0.7, 0.45), Point2D(0.6, 0.5), Point2D(0.7, 0.55), Point2D(0.85, 0.65)]
    + [Point2D(0.9, 0.75), Point2D(0.85, 0.85), Point2D(0.75, 0.95), Point2D(0.6, 1.0)]
    + [Point2D(0.4, 1.0), Point2D(0.25, 0.95), Point2D(0.15, 0.85), Point2D(0.1, 0.75)]
    + [Point2D(0.15, 0.7), Point2D(0.25, 0.75), Point2D(0.25, 0.85), Point2D(0.35, 0.92)]
    + [Point2D(0.5, 0.95), Point2D(0.65, 0.92), Point2D(0.75, 0.85), Point2D(0.8, 0.75)]
    + [Point2D(0.75, 0.6), Point2D(0.6, 0.52), Point2D(0.5, 0.5), Point2D(0.6, 0.48)]
    + [Point2D(0.75, 0.4), Point2D(0.8, 0.25), Point2D(0.75, 0.15), Point2D(0.65, 0.08)]
    + [Point2D(0.5, 0.05), Point2D(0.35, 0.08), Point2D(0.25, 0.15), Point2D(0.15, 0.15)]

  const Digit4: seq<Point2D> :=
    [Point2D(0.7, 0.0), Point2D(0.7, 0.7), Point2D(0.9, 0.7), Point2D(0.9, 0.8)]
    + [Point2D(0.7, 0.8), Point2D(0.7, 1.0), Point2D(0.6, 1.0), Point2D(0.6, 0.8)]
    + [Point2D(0.1, 0.8), Point2D(0.1, 0.7), Point2D(0.6, 0.7), Point2D(0.6, 0.0)]
    + [Point2D(0.7, 0.0)]

  const Digit5: seq<Point2D> :=
    [Point2D(0.9, 0.0), Point2D(0.9, 0.1), Point2D(0.2, 0.1), Point2D(0.2, 0.45)]
    + [Point2D(0.4, 0.45), Point2D(0.6, 0.48), Point2D(0.75, 0.55), Point2D(0.85, 0.65)]
    + [Point2D(0.9, 0.75), Point2D(0.85, 0.85), Point2D(0.75, 0.95), Point2D(0.6, 1.0)]
    + [Point2D(0.4, 1.0), Point2D(0.25, 0.95), Point2D(0.15, 0.85), Point2D(0.1, 0.75)]
    + [Point2D(0.15, 0.7), Point2D(0.2, 0.75), Point2D(0.25, 0.85), Point2D(0.35, 0.92)]
    + [Point2D(0.5, 0.95), Point2D(0.65, 0.92), Point2D(0.75, 0.85), Point2D(0.8, 0.75)]
    + [Point2D(0.75, 0.6), Point2D(0.65, 0.53), Point2D(0.5, 0.5), Point2D(0.3, 0.5)]
    + [Point2D(0.1, 0.48), Point2D(0.1, 0.0), Point2D(0.9, 0.0)]

  const Digit6: seq<Point2D> :=
    [Point2D(0.7, 0.05), Point2D(0.5, 0.0), Point2D(0.3, 0.05), Point2D(0.15, 0.15)]
    + [Point2D(0.08, 0.3), Point2D(0.05, 0.5), Point2D(0.08, 0.7), Point2D(0.15, 0.85)]
    + [Point2D(0.3, 0.95), Point2D(0.5, 1.0), Point2D(0.7, 0.95), Point2D(0.85, 0.85)]
    + [Point2D(0.92, 0.7), Point2D(0.95, 0.5), Point2D(0.9, 0.35), Point2D(0.8, 0.5)]
    + [Point2D(0.7, 0.9), Point2D(0.5, 0.95), Point2D(0.3, 0.9), Point2D(0.2, 0.8)]
    + [Point2D(0.15, 0.65), Point2D(0.15, 0.5), Point2D(0.2, 0.35), Point2D(0.3, 0.1)]
    + [Point2D(0.5, 0.05), Point2D(0.65, 0.08), Point2D(0.7, 0.05)]

  const Digit7: seq<Point2D> :=
    [Point2D(0.1, 0.0), Point2D(0.9, 0.0), Point2D(0.9, 0.1), Point2D(0.4, 1.0)]
    + [Point2D(0.3, 1.0), Point2D(0.8, 0.1), Point2D(0.1, 0.1), Point2D(0.1, 0.0)]

  const Digit8: seq<Point2D> :=
    [Point2D(0.5, 0.0), Point2D(0.7, 0.03), Point2D(0.85, 0.1), Point2D(0.9, 0.2)]
    + [Point2D(0.85, 0.3), Point2D(0.7, 0.37), Point2D(0.6, 0.4), Point2D(0.5, 0.43)]
    + [Point2D(0.4, 0.4), Point2D(0.3, 0.37), Point2D(0.15, 0.3), Point2D(0.1, 0.2)]
    + [Point2D(0.15, 0.1), Point2D(0.3, 0.03), Point2D(0.5, 0.0)]

  const Digit9: seq<Point2D> :=
    [Point2D(0.3, 0.95), Point2D(0.5, 1.0), Point2D(0.7, 0.95), Point2D(0.85, 0.85)]
    + [Point2D(0.92, 0.7), Point2D(0.95, 0.5), Point2D(0.92, 0.3), Point2D(0.85, 0.15)]
    + [Point2D(0.7, 0.05), Point2D(0.5, 0.0), Point2D(0.3, 0.05), Point2D(0.15, 0.15)]
    + [Point2D(0.08, 0.3), Point2D(0.05, 0.5), Point2D(0.1, 0.65), Point2D(0.2, 0.5)]
    + [Point2D(0.3, 0.1), Point2D(0.5, 0.05), Point2D(0.7, 0.1), Point2D(0.8, 0.2)]
    + [Point2D(0.85, 0.35), Point2D(0.85, 0.5), Point2D(0.8, 0.65), Point2D(0.7, 0.9)]
    + [Point2D(0.5, 0.95), Point2D(0.35, 0.92), Point2D(0.3, 0.95)]

  /** ANALOG_DIGITS[c] for a one-character key: the table has exactly the digits. */
  function DigitPath(c: char): (r: Option<seq<Point2D>>)
    ensures r.Some? <==> '0' <= c <= '9'
  {
    match c
    case '0' => Some(Digit0)
    case '1' => Some(Digit1)
    case '2' => Some(Digit2)
    case '3' => Some(Digit3)
    case '4' => Some(Digit4)
    case '5' => Some(Digit5)
    case '6' => Some(Digit6)
    case '7' => Some(Digit7)
    case '8' => Some(Digit8)
    case '9' => Some(Digit9)
    case _ => None
  }

  /** The own entry of the table under a string key. */
  function TableEntry(key: string): Option<seq<Point2D>>
  {
    if |key| == 1 then DigitPath(key[0]) else None
  }

  predicate IsClosed(path: seq<Point2D>)
  {
    |path| > 0 && path[0] == Last(path)
  }

  predicate InUnitSquare(path: seq<Point2D>)
  {
    forall p :: p in path ==> InUnit(p)
  }

  predicate InUnit(p: Point2D)
  {
    0.0 <= p.x <= 1.0 && 0.0 <= p.y <= 1.0
  }

  /** Every outline of the table is closed and lies in the unit square. */
  lemma DigitOutlines(c: char)
    requires DigitPath(c).Some?
    ensures IsClosed(DigitPath(c).value) && InUnitSquare(DigitPath(c).value)
  {
    match c {
      case '0' => OutlineShape0();
      case '1' => OutlineShape1();
      case '2' => OutlineShape2();
      case '3' => OutlineShape3();
      case '4' => OutlineShape4();
      case '5' => OutlineShape5();
      case '6' => OutlineShape6();
      case '7' => OutlineShape7();
      case '8' => OutlineShape8();
      case '9' => OutlineShape9();
    }
  }

  lemma OutlineShape0() ensures IsClosed(Digit0) && InUnitSquare(Digit0) {}
  lemma OutlineShape1() ensures IsClosed(Digit1) && InUnitSquare(Digit1) {}
  lemma OutlineShape2() ensures IsClosed(Digit2) && InUnitSquare(Digit2) {}
  lemma OutlineShape3() ensures IsClosed(Digit3) && InUnitSquare(Digit3) {}
  lemma OutlineShape4() ensures IsClosed(Digit4) && InUnitSquare(Digit4) {}
  lemma OutlineShape5() ensures IsClosed(Digit5) && InUnitSquare(Digit5) {}
  lemma OutlineShape6() ensures IsClosed(Digit6) && InUnitSquare(Digit6) {}
  lemma OutlineShape7() ensures IsClosed(Digit7) && InUnitSquare(Digit7) {}
  lemma OutlineShape8() ensures IsClosed(Digit8) && InUnitSquare(Digit8) {}
  lemma OutlineShape9() ensures IsClosed(Digit9) && InUnitSquare(Digit9) {}

  /** getSupportedCharacters: Object.keys of the table, integer-like keys in ascending order. */
  function SupportedCharacters(): (r: seq<string>)
    ensures |r| == 10
    ensures forall i :: 0 <= i < |r| ==> TableEntry(r[i]).Some?
    ensures forall c :: DigitPath(c).Some? ==> [c] in r
  {
    ["0", "1", "2", "3", "4", "5", "6", "7", "8", "9"]
  }

  /**
   * The names an object literal inherits from Object.prototype, which the
   * `in` operator also finds.
   */
  const InheritedKeys: set<string> := {
    "constructor", "hasOwnProperty", "isPrototypeOf", "propertyIsEnumerable",
    "toLocaleString", "toString", "valueOf", "__proto__",
    "__defineGetter__", "__defineSetter__", "__lookupGetter__", "__lookupSetter__"
  }

  /** The message of the TypeError the spread of a non-iterable value raises. */
  const NotIterableError: string := "digit is not iterable"

  /**
   * getAnalogDigit: a copy of the entry. A key without an entry throws the
   * "not defined" error; an inherited name such as "toString" finds a
   * function, which passes the truthiness test and then fails the spread
   * with a TypeError.
   */
  function GetAnalogDigit(key: string): (r: Result<seq<Point2D>>)
    ensures r.Success? <==> |key| == 1 && '0' <= key[0] <= '9'
    ensures r.Success? ==> IsClosed(r.value) && InUnitSquare(r.value)
    ensures r.Failure? && key in InheritedKeys ==> r.error == NotIterableError
    ensures r.Failure? && key !in InheritedKeys ==> r.error == "Analog digit not defined for character: " + key
  {
    if key in InheritedKeys then Failure(NotIterableError)
    else match TableEntry(key)
    case None => Failure("Analog digit not defined for character: " + key)
    case Some(path) => DigitOutlines(key[0]); Success(path)
  }

  /** isAnalogDigitSupported as written: `char in ANALOG_DIGITS`. */
  function IsAnalogDigitSupportedAsWritten(key: string): (b: bool)
    ensures b <==> TableEntry(key).Some? || key in InheritedKeys
  {
    TableEntry(key).Some? || key in InheritedKeys
  }

  /** isAnalogDigitSupported as intended: the key has an outline. */
  function IsAnalogDigitSupported(key: string): (b: bool)
    ensures b <==> GetAnalogDigit(key).Success?
  {
    TableEntry(key).Some?
  }

  /** "toString" passes the `in` test although getAnalogDigit has no outline for it. */
  lemma InheritedKeyCounterexample()
    ensures IsAnalogDigitSupportedAsWritten("toString")
    ensures !IsAnalogDigitSupported("toString") && GetAnalogDigit("toString") == Failure(NotIterableError)
  {
  }

  // ---------------------------------------------------------------------
  // textToAnalogPath

  const DigitSpacing: real := 1.1
  const NoDigitsMessage: string := "No valid analog digits found in text"

  /** digitPaths after the first loop: the outlines of the digits of text, in order. */
  function AcceptedDigits(text: string): seq<seq<Point2D>>
    decreases |text|
  {
    if |text| == 0 then []
    else
      var before := AcceptedDigits(DropLast(text));
      match DigitPath(Last(text))
      case Some(path) => before + [path]
      case None => before
  }

  /** The characters the first loop warns about: neither a digit nor a space. */
  function SkippedWithWarning(text: string): seq<char>
    decreases |text|
  {
    if |text| == 0 then []
    else
      var before := SkippedWithWarning(DropLast(text));
      if DigitPath(Last(text)).None? && Last(text) != ' ' then before + [Last(text)] else before
  }

  /** A digit outline moved right by dx. */
  function Shifted(path: seq<Point2D>, dx: real): (r: seq<Point2D>)
    ensures |r| == |path|
  {
    seq(|path|, i requires 0 <= i < |path| => Point2D(path[i].x + dx, path[i].y))
  }

  /** Number of points of all the outlines together. */
  function TotalLength(paths: seq<seq<Point2D>>): nat
    decreases |paths|
  {
    if |paths| == 0 then 0 else TotalLength(DropLast(paths)) + |Last(paths)|
  }

  /** combinedPath: the k-th outline shifted by k * DigitSpacing, one after the other. */
  function Layout(paths: seq<seq<Point2D>>): (r: seq<Point2D>)
    ensures |r| == TotalLength(paths)
    decreases |paths|
  {
    if |paths| == 0 then []
    else Layout(DropLast(paths)) + Shifted(Last(paths), (|paths| - 1) as real * DigitSpacing)
  }

  /** textToAnalogPath: fails only when the text holds no digit. */
  function AnalogPath(text: string): Result<seq<Point2D>>
  {
    var paths := AcceptedDigits(text);
    if |paths| == 0 then Failure(NoDigitsMessage) else Success(Layout(paths))
  }

  /**
   * The j-th point of the k-th outline sits right after the points of the
   * outlines before it, moved right by k * DigitSpacing, with y unchanged.
   */
  lemma {:induction false} LayoutAt(paths: seq<seq<Point2D>>, k: int, j: int)
    requires 0 <= k < |paths| && 0 <= j < |paths[k]|
    ensures TotalLength(paths[..k]) + j < |Layout(paths)|
    ensures Layout(paths)[TotalLength(paths[..k]) + j]
         == Point2D(paths[k][j].x + k as real * DigitSpacing, paths[k][j].y)
    decreases |paths|
  {
    var front := DropLast(paths);
    if k == |paths| - 1 {
      assert paths[..k] == front;
    } else {
      LayoutAt(front, k, j);
      assert front[..k] == paths[..k];
      assert front[k] == paths[k];
      assert TotalLength(paths[..k]) + j < |Layout(front)|;
    }
  }

  /** The outlines of a concatenated text are those of its parts, in order. */
  lemma {:induction false} AcceptedDigitsAppend(a: string, b: string)
    ensures AcceptedDigits(a + b) == AcceptedDigits(a) + AcceptedDigits(b)
    decreases |b|
  {
    if |b| == 0 {
      AppendEmpty(a, b);
      AppendEmpty(AcceptedDigits(a), AcceptedDigits(b));
    } else {
      AcceptedDigitsAppend(a, DropLast(b));
      AppendParts(a, b);
    }
  }

  /** A character without an outline, space or not, does not change the result. */
  lemma SkippedCharacterIgnored(a: string, c: char, b: string)
    requires !('0' <= c <= '9')
    ensures AnalogPath(a + [c] + b) == AnalogPath(a + b)
  {
    AcceptedDigitsAppend(a + [c], b);
    AcceptedDigitsAppend(a, [c]);
    AcceptedDigitsAppend(a, b);
    SnocParts(a, c);
    assert AcceptedDigits([c]) == [] by {
      assert DropLast([c]) == [];
    }
    AppendEmpty(AcceptedDigits(a), AcceptedDigits([c]));
  }

  /** The outlines collected are empty exactly when the text holds no digit. */
  lemma {:induction false} AcceptedDigitsEmpty(text: string)
    ensures |AcceptedDigits(text)| == 0 <==> forall i :: 0 <= i < |text| ==> !('0' <= text[i] <= '9')
    decreases |text|
  {
    if |text| > 0 {
      AcceptedDigitsEmpty(DropLast(text));
      DropLastThenSnoc(text);
      assert forall i :: 0 <= i < |text| - 1 ==> DropLast(text)[i] == text[i];
    }
  }

  /**
   * textToAnalogPath never fails because of an unsupported character: it
   * fails, with its own message, exactly when there is no digit at all.
   * A single digit is laid out unshifted.
   */
  lemma AnalogPathOutcome(text: string)
    ensures var r := AnalogPath(text);
            (r.Failure? <==> forall i :: 0 <= i < |text| ==> !('0' <= text[i] <= '9'))
            && (r.Failure? ==> r.error == NoDigitsMessage)
            && (r.Success? ==> |r.value| == TotalLength(AcceptedDigits(text)))
  {
    AcceptedDigitsEmpty(text);
  }

  /** A single digit gives its outline from the table unchanged. */
  lemma SingleDigitUnshifted(c: char)
    requires '0' <= c <= '9'
    ensures AnalogPath([c]) == Success(DigitPath(c).value)
  {
    var path := DigitPath(c).value;
    assert DropLast([c]) == [] && Last([c]) == c;
    assert AcceptedDigits([c]) == [path];
    assert DropLast([path]) == [] && Last([path]) == path;
    var shifted := Shifted(path, (|[path]| - 1) as real * DigitSpacing);
    assert forall i :: 0 <= i < |path| ==> shifted[i] == path[i];
    assert shifted == path;
    assert Layout([path]) == [] + shifted;
    assert [] + shifted == path;
  }

  /** The first loop: collect outlines and warn about unsupported characters. */
  method CollectDigits(text: string) returns (digitPaths: seq<seq<Point2D>>, warnings: seq<char>)
    ensures digitPaths == AcceptedDigits(text) && warnings == SkippedWithWarning(text)
  {
    digitPaths := [];
    warnings := [];
    var i := 0;
    while i < |text|
      invariant 0 <= i <= |text|
      invariant digitPaths == AcceptedDigits(text[..i]) && warnings == SkippedWithWarning(text[..i])
    {
      PrefixParts(text, i);
      var c := text[i];
      match DigitPath(c) {
        case Some(path) =>
          digitPaths := digitPaths + [path];
        case None =>
          if c != ' ' {
            warnings := warnings + [c];
          }
      }
      i := i + 1;
    }
    assert text[..|text|] == text;
  }

  /** The nested forEach pushing every shifted point into combinedPath. */
  method CombinePaths(digitPaths: seq<seq<Point2D>>) returns (combined: seq<Point2D>)
    ensures combined == Layout(digitPaths)
  {
    combined := [];
    var index := 0;
    while index < |digitPaths|
      invariant 0 <= index <= |digitPaths|
      invariant combined == Layout(digitPaths[..index])
    {
      var digitPath := digitPaths[index];
      var offsetX := index as real * DigitSpacing;
      ghost var shifted := Shifted(digitPath, offsetX);
      ghost var before := combined;
      var j := 0;
      while j < |digitPath|
        invariant 0 <= j <= |digitPath|
        invariant combined == before + shifted[..j]
      {
        PushPrefix(before, shifted, j);
        combined := combined + [Point2D(digitPath[j].x + offsetX, digitPath[j].y)];
        j := j + 1;
      }
      assert shifted[..j] == shifted;
      PrefixParts(digitPaths, index);
      index := index + 1;
    }
    assert digitPaths[..|digitPaths|] == digitPaths;
  }

  /** textToAnalogPath, returning the warned characters beside the result. */
  method TextToAnalogPath(text: string) returns (r: Result<seq<Point2D>>, warnings: seq<char>)
    ensures r == AnalogPath(text) && warnings == SkippedWithWarning(text)
  {
    var digitPaths;
    digitPaths, warnings := CollectDigits(text);
    if |digitPaths| == 0 {
      return Failure(NoDigitsMessage), warnings;
    }
    var combined := CombinePaths(digitPaths);
    r := Success(combined);
  }
}
