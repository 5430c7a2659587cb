// src/lib/vectorization/textToPath.ts: turning the outline of a text into a
// point list. The font (opentype.js loading, caching and glyph layout) is
// not modelled: the conversion receives what `font.getPath(text, ...)` yields,
// either the list of path commands or the error raised while loading a font.

module TextToPath {
  import opened Types
  import opened Seqs
  import opened Distance
  import opened Normalizer
  import opened PathSimplifier

  /**
   * One opentype.js path command. `Unrecognised` stands for a command whose
   * type the switch has no case for, or which lacks one of the coordinates
   * its case tests for: such a command adds no point.
   */
  datatype PathCommand =
    | MoveTo(x: real, y: real)
    | LineTo(x: real, y: real)
    | CurveTo(x1: real, y1: real, x2: real, y2: real, x: real, y: real)
    | QuadTo(x1: real, y1: real, x: real, y: real)
    | ClosePath
    | Unrecognised

  /** Number of sampling intervals on a curve (t runs over 0, 1/10, ..., 1). */
  const Samples: int := 10

  const EmptyTextMessage: string := "Text cannot be empty"
  const NoPathDataMessage: string := "No path data generated from text"
  const ConvertPrefix: string := "Failed to convert text to path: "

  // ---------------------------------------------------------------------
  // Bezier curves

  /** cubicBezier: the point at parameter t of the cubic curve p0 p1 p2 p3. */
  function CubicBezier(p0: Point2D, p1: Point2D, p2: Point2D, p3: Point2D, t: real): Point2D
  {
    var t2 := t * t;
    var t3 := t2 * t;
    var mt := 1.0 - t;
    var mt2 := mt * mt;
    var mt3 := mt2 * mt;
    Point2D(mt3 * p0.x + 3.0 * mt2 * t * p1.x + 3.0 * mt * t2 * p2.x + t3 * p3.x,
            mt3 * p0.y + 3.0 * mt2 * t * p1.y + 3.0 * mt * t2 * p2.y + t3 * p3.y)
  }

  /** quadraticBezier: the point at parameter t of the quadratic curve p0 p1 p2. */
  function QuadraticBezier(p0: Point2D, p1: Point2D, p2: Point2D, t: real): Point2D
  {
    var mt := 1.0 - t;
    var mt2 := mt * mt;
    var t2 := t * t;
    Point2D(mt2 * p0.x + 2.0 * mt * t * p1.x + t2 * p2.x,
            mt2 * p0.y + 2.0 * mt * t * p1.y + t2 * p2.y)
  }

  /** A cubic curve starts at its first control point and ends at its last. */
  lemma CubicEndpoints(p0: Point2D, p1: Point2D, p2: Point2D, p3: Point2D)
    ensures CubicBezier(p0, p1, p2, p3, 0.0) == p0
    ensures CubicBezier(p0, p1, p2, p3, 1.0) == p3
  {
  }

  /** A quadratic curve starts at its first control point and ends at its last. */
  lemma QuadraticEndpoints(p0: Point2D, p1: Point2D, p2: Point2D)
    ensures QuadraticBezier(p0, p1, p2, 0.0) == p0
    ensures QuadraticBezier(p0, p1, p2, 1.0) == p2
  {
  }

  /** The Samples + 1 points the inner loop of a 'C' command pushes. */
  function CubicSamples(p0: Point2D, p1: Point2D, p2: Point2D, p3: Point2D): (r: seq<Point2D>)
    ensures |r| == Samples + 1
  {
    seq(Samples + 1, t => CubicBezier(p0, p1, p2, p3, t as real / Samples as real))
  }

  /** The Samples + 1 points the inner loop of a 'Q' command pushes. */
  function QuadraticSamples(p0: Point2D, p1: Point2D, p2: Point2D): (r: seq<Point2D>)
    ensures |r| == Samples + 1
  {
    seq(Samples + 1, t => QuadraticBezier(p0, p1, p2, t as real / Samples as real))
  }

  /** The sampled points run from the pen position to the curve's end point. */
  lemma CurveSamplesEnds(p0: Point2D, p1: Point2D, p2: Point2D, p3: Point2D)
    ensures CubicSamples(p0, p1, p2, p3)[0] == p0 && Last(CubicSamples(p0, p1, p2, p3)) == p3
    ensures QuadraticSamples(p0, p1, p2)[0] == p0 && Last(QuadraticSamples(p0, p1, p2)) == p2
  {
    CubicEndpoints(p0, p1, p2, p3);
    QuadraticEndpoints(p0, p1, p2);
    assert Samples as real / Samples as real == 1.0;
  }

  // ---------------------------------------------------------------------
  // Flattening the commands

  /** Where a curve starts: the last collected point, or (0, 0) when there is none. */
  function Pen(points: seq<Point2D>): Point2D
  {
    if |points| > 0 then Last(points) else Point2D(0.0, 0.0)
  }

  /** The points one command adds to the collected points. */
  function Added(points: seq<Point2D>, cmd: PathCommand): seq<Point2D>
  {
    match cmd
    case MoveTo(x, y) => [Point2D(x, y)]
    case LineTo(x, y) => [Point2D(x, y)]
    case CurveTo(x1, y1, x2, y2, x, y) =>
      CubicSamples(Pen(points), Point2D(x1, y1), Point2D(x2, y2), Point2D(x, y))
    case QuadTo(x1, y1, x, y) =>
      QuadraticSamples(Pen(points), Point2D(x1, y1), Point2D(x, y))
    case ClosePath => if |points| > 0 then [points[0]] else []
    case Unrecognised => []
  }

  /**
   * How many points a command adds: one for M and L, Samples + 1 for C and Q,
   * one for Z when some point was already collected, none otherwise.
   */
  function AddedCount(cmd: PathCommand, collectedAny: bool): nat
  {
    match cmd
    case MoveTo(_, _) => 1
    case LineTo(_, _) => 1
    case CurveTo(_, _, _, _, _, _) => Samples + 1
    case QuadTo(_, _, _, _) => Samples + 1
    case ClosePath => if collectedAny then 1 else 0
    case Unrecognised => 0
  }

  /** One iteration of the forEach: the collected points only ever grow at the end. */
  function Emit(points: seq<Point2D>, cmd: PathCommand): (r: seq<Point2D>)
    ensures |r| == |points| + AddedCount(cmd, |points| > 0)
    ensures r[..|points|] == points
  {
    points + Added(points, cmd)
  }

  /** What the new points of each command are. */
  lemma EmitContents(points: seq<Point2D>, cmd: PathCommand)
    ensures var r := Emit(points, cmd);
            var n := |points|;
            (cmd.MoveTo? || cmd.LineTo? ==> r[n] == Point2D(cmd.x, cmd.y))
            && (cmd.ClosePath? && n > 0 ==> r[n] == points[0])
            && (cmd.CurveTo? || cmd.QuadTo? ==> r[n] == Pen(points) && Last(r) == Point2D(cmd.x, cmd.y))
  {
    var r := Emit(points, cmd);
    match cmd {
      case CurveTo(x1, y1, x2, y2, x, y) =>
        CurveSamplesEnds(Pen(points), Point2D(x1, y1), Point2D(x2, y2), Point2D(x, y));
        AppendParts(points, Added(points, cmd));
      case QuadTo(x1, y1, x, y) =>
        CurveSamplesEnds(Pen(points), Point2D(x1, y1), Point2D(x, y), Point2D(x, y));
        AppendParts(points, Added(points, cmd));
      case _ =>
    }
  }

  /** Total number of points a command list adds, command by command. */
  function TotalAdded(commands: seq<PathCommand>): nat
    decreases |commands|
  {
    if |commands| == 0 then 0
    else
      var before := TotalAdded(DropLast(commands));
      before + AddedCount(Last(commands), before > 0)
  }

  /** The points collected from a command list, as the forEach leaves them. */
  function Flatten(commands: seq<PathCommand>): (points: seq<Point2D>)
    ensures |points| == TotalAdded(commands)
    decreases |commands|
  {
    if |commands| == 0 then [] else Emit(Flatten(DropLast(commands)), Last(commands))
  }

  /** The points collected from a prefix of the commands begin the whole list. */
  lemma {:induction false} FlattenPrefix(commands: seq<PathCommand>, k: int)
    requires 0 <= k <= |commands|
    ensures |Flatten(commands[..k])| <= |Flatten(commands)|
    ensures Flatten(commands)[..|Flatten(commands[..k])|] == Flatten(commands[..k])
    decreases |commands| - k
  {
    if k == |commands| {
      assert commands[..k] == commands;
    } else {
      var c := commands[..k + 1];
      FlattenPrefix(commands, k + 1);
      PrefixParts(commands, k);
      var a := Flatten(commands[..k]);
      var b := Flatten(c);
      var w := Flatten(commands);
      assert b[..|a|] == a;
      assert w[..|b|] == b;
      assert w[..|a|] == b[..|a|];
    }
  }

  /**
   * Z repeats the first point of the whole list, not the start of the
   * current subpath: after a second M, closing goes back to the first M.
   */
  lemma CloseReturnsToFirstPoint()
    ensures Flatten([MoveTo(0.0, 0.0), LineTo(1.0, 0.0), MoveTo(5.0, 5.0), LineTo(6.0, 5.0), ClosePath])
         == [Point2D(0.0, 0.0), Point2D(1.0, 0.0), Point2D(5.0, 5.0), Point2D(6.0, 5.0), Point2D(0.0, 0.0)]
  {
    var cs := [MoveTo(0.0, 0.0), LineTo(1.0, 0.0), MoveTo(5.0, 5.0), LineTo(6.0, 5.0), ClosePath];
    assert DropLast(cs[..1]) == [];
    assert DropLast(cs[..2]) == cs[..1];
    assert DropLast(cs[..3]) == cs[..2];
    assert DropLast(cs[..4]) == cs[..3];
    assert DropLast(cs) == cs[..4];
    assert Flatten(cs[..1]) == [Point2D(0.0, 0.0)];
    assert Flatten(cs[..2]) == [Point2D(0.0, 0.0), Point2D(1.0, 0.0)];
    assert Flatten(cs[..3]) == [Point2D(0.0, 0.0), Point2D(1.0, 0.0), Point2D(5.0, 5.0)];
    assert Flatten(cs[..4]) == [Point2D(0.0, 0.0), Point2D(1.0, 0.0), Point2D(5.0, 5.0), Point2D(6.0, 5.0)];
  }

  /** The inner sampling loop of a 'C' command. */
  method PushCubicSamples(points: seq<Point2D>, p1: Point2D, p2: Point2D, p3: Point2D) returns (r: seq<Point2D>)
    ensures r == points + CubicSamples(Pen(points), p1, p2, p3)
  {
    var prevPoint := if |points| > 0 then points[|points| - 1] else Point2D(0.0, 0.0);
    ghost var samples := CubicSamples(prevPoint, p1, p2, p3);
    r := points;
    var t := 0;
    while t <= Samples
      invariant 0 <= t <= Samples + 1
      invariant r == points + samples[..t]
    {
      var tNorm := t as real / Samples as real;
      var point := CubicBezier(prevPoint, p1, p2, p3, tNorm);
      PushPrefix(points, samples, t);
      r := r + [point];
      t := t + 1;
    }
    assert samples[..Samples + 1] == samples;
  }

  /** The inner sampling loop of a 'Q' command. */
  method PushQuadraticSamples(points: seq<Point2D>, p1: Point2D, p2: Point2D) returns (r: seq<Point2D>)
    ensures r == points + QuadraticSamples(Pen(points), p1, p2)
  {
    var prevPoint := if |points| > 0 then points[|points| - 1] else Point2D(0.0, 0.0);
    ghost var samples := QuadraticSamples(prevPoint, p1, p2);
    r := points;
    var t := 0;
    while t <= Samples
      invariant 0 <= t <= Samples + 1
      invariant r == points + samples[..t]
    {
      var tNorm := t as real / Samples as real;
      var point := QuadraticBezier(prevPoint, p1, p2, tNorm);
      PushPrefix(points, samples, t);
      r := r + [point];
      t := t + 1;
    }
    assert samples[..Samples + 1] == samples;
  }

  /** The forEach over the commands, pushing into `points`. */
  method FlattenCommands(commands: seq<PathCommand>) returns (points: seq<Point2D>)
    ensures points == Flatten(commands)
  {
    points := [];
    var i := 0;
    while i < |commands|
      invariant 0 <= i <= |commands|
      invariant points == Flatten(commands[..i])
    {
      PrefixParts(commands, i);
      match commands[i] {
        case MoveTo(x, y) =>
          points := points + [Point2D(x, y)];
        case LineTo(x, y) =>
          points := points + [Point2D(x, y)];
        case CurveTo(x1, y1, x2, y2, x, y) =>
          points := PushCubicSamples(points, Point2D(x1, y1), Point2D(x2, y2), Point2D(x, y));
        case QuadTo(x1, y1, x, y) =>
          points := PushQuadraticSamples(points, Point2D(x1, y1), Point2D(x, y));
        case ClosePath =>
          if |points| > 0 {
            points := points + [points[0]];
          }
        case Unrecognised =>
      }
      i := i + 1;
    }
    assert commands[..|commands|] == commands;
  }

  // ---------------------------------------------------------------------
  // textToPath

  /** The characters String.prototype.trim removes: white space and line terminators. */
  predicate IsWhitespace(c: char)
  {
    c == '\t' || c == '\n' || c == '\U{000B}' || c == '\U{000C}' || c == '\r' || c == ' '
    || c == '\U{00A0}' || c == '\U{1680}' || ('\U{2000}' <= c <= '\U{200A}')
    || c == '\U{2028}' || c == '\U{2029}' || c == '\U{202F}' || c == '\U{205F}'
    || c == '\U{3000}' || c == '\U{FEFF}'
  }

  /** `!text || text.trim().length === 0`. */
  predicate IsBlank(text: string)
  {
    forall i :: 0 <= i < |text| ==> IsWhitespace(text[i])
  }

  /** Fonts have y growing downwards: negate every y. */
  function FlipY(points: seq<Point2D>): (r: seq<Point2D>)
    ensures |r| == |points|
  {
    seq(|points|, i requires 0 <= i < |points| => Point2D(points[i].x, -points[i].y))
  }

  /** Flipping twice gives the points back. */
  lemma FlipYInvolutive(points: seq<Point2D>)
    ensures FlipY(FlipY(points)) == points
  {
    var r := FlipY(FlipY(points));
    assert forall i :: 0 <= i < |points| ==> r[i] == points[i];
  }

  /**
   * textToPath: reject blank text before touching the font; otherwise
   * flatten the outline, and then flip, de-duplicate (0.1), simplify (2.0)
   * and normalise, in that order. Errors raised inside the try are rethrown
   * with the conversion prefix.
   */
  function Converted(m: Runtime, text: string, outline: Result<seq<PathCommand>>): (r: Result<seq<Point2D>>)
  {
    if IsBlank(text) then Failure(EmptyTextMessage)
    else match outline
      case Failure(e) => Failure(ConvertPrefix + e)
      case Success(commands) =>
        var points := Flatten(commands);
        if |points| == 0 then Failure(ConvertPrefix + NoPathDataMessage)
        else
          var cleaned := RemoveDuplicatesSpec(m, FlipY(points), 0.1);
          Success(NormalizePath(Simplify(m, cleaned, 2.0)))
  }

  /** textToPath, running the flattening loop and the clean-up methods. */
  method TextToPath(m: Runtime, text: string, outline: Result<seq<PathCommand>>) returns (r: Result<seq<Point2D>>)
    ensures r == Converted(m, text, outline)
  {
    if IsBlank(text) {
      return Failure(EmptyTextMessage);
    }
    match outline {
      case Failure(e) =>
        return Failure(ConvertPrefix + e);
      case Success(commands) =>
        var points := FlattenCommands(commands);
        if |points| == 0 {
          return Failure(ConvertPrefix + NoPathDataMessage);
        }
        var flipped := FlipY(points);
        var cleaned := RemoveDuplicates(m, flipped, 0.1);
        var simplified := SimplifyPath(m, cleaned, 2.0);
        return Success(NormalizePath(simplified));
    }
  }

  /**
   * The conversion succeeds exactly when the text is not blank, the font
   * produced an outline and the outline yields some point. A blank text is
   * refused whatever the font does, without the prefix. A result has between
   * one point and as many points as were collected, all in the unit square.
   */
  lemma ConvertedOutcome(m: Runtime, text: string, outline: Result<seq<PathCommand>>)
    ensures var r := Converted(m, text, outline);
            (r.Success? <==> !IsBlank(text) && outline.Success? && TotalAdded(outline.value) > 0)
            && (IsBlank(text) ==> r == Failure(EmptyTextMessage))
            && (!IsBlank(text) && outline.Failure? ==> r == Failure(ConvertPrefix + outline.error))
            && (r.Success? ==>
                  1 <= |r.value| <= TotalAdded(outline.value)
                  && forall i :: 0 <= i < |r.value| ==> 0.0 <= r.value[i].x <= 1.0 && 0.0 <= r.value[i].y <= 1.0)
  {
    if !IsBlank(text) && outline.Success? && TotalAdded(outline.value) > 0 {
      var flipped := FlipY(Flatten(outline.value));
      var cleaned := RemoveDuplicatesSpec(m, flipped, 0.1);
      RemoveDuplicatesProperties(m, flipped, 0.1);
      SubsequenceLength(cleaned, flipped);
      var simplified := Simplify(m, cleaned, 2.0);
      if |cleaned| <= 2 {
        SimplifyShort(m, cleaned, 2.0);
      }
      NormalizeWithinUnitSquare(simplified);
    }
  }
}
