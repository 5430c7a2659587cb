// src/lib/export/gpxGenerator.ts: the GPX 1.1 document of a route, XML
// escaping, the download file name, and the pre-export coordinate check.
// The clock (`new Date().toISOString()`, `Date.now()`) and number formatting
// (`toFixed(6)`, `toISOString` of a time) are parameters.

module GpxGenerator {
  import opened Types
  import opened Seqs

  // ---------------------------------------------------------------------
  // escapeXml

  /** text.replace(/c/g, rep): every occurrence of c replaced by rep. */
  function ReplaceAll(s: string, c: char, rep: string): string
    decreases |s|
  {
    if |s| == 0 then "" else (if s[0] == c then rep else [s[0]]) + ReplaceAll(s[1..], c, rep)
  }

  /** escapeXml: the five replacements in the source's order, '&' first. */
  function EscapeXml(text: string): string
  {
    ReplaceAll(ReplaceAll(ReplaceAll(ReplaceAll(ReplaceAll(text, '&', "&amp;"), '<', "&lt;"), '>', "&gt;"),
                          '"', "&quot;"), '\'', "&apos;")
  }

  /** The entity for one of the five special characters, or the character itself. */
  function EscapeChar(c: char): string
  {
    match c
    case '&' => "&amp;"
    case '<' => "&lt;"
    case '>' => "&gt;"
    case '"' => "&quot;"
    case '\'' => "&apos;"
    case _ => [c]
  }

  /** Escaping character by character. */
  function EscapeEach(s: string): string
    decreases |s|
  {
    if |s| == 0 then "" else EscapeChar(s[0]) + EscapeEach(s[1..])
  }

  lemma {:induction false} ReplaceAllAppend(a: string, b: string, c: char, rep: string)
    ensures ReplaceAll(a + b, c, rep) == ReplaceAll(a, c, rep) + ReplaceAll(b, c, rep)
    decreases |a|
  {
    if |a| > 0 {
      assert (a + b)[1..] == a[1..] + b;
      ReplaceAllAppend(a[1..], b, c, rep);
    } else {
      assert a + b == b;
    }
  }

  lemma {:induction false} ReplaceAllAbsent(s: string, c: char, rep: string)
    requires forall i :: 0 <= i < |s| ==> s[i] != c
    ensures ReplaceAll(s, c, rep) == s
    decreases |s|
  {
    if |s| > 0 {
      ReplaceAllAbsent(s[1..], c, rep);
      assert s == [s[0]] + s[1..];
    }
  }

  lemma ReplaceAllSingle(x: char, c: char, rep: string)
    ensures ReplaceAll([x], c, rep) == if x == c then rep else [x]
  {
    assert [x][1..] == "";
  }

  /** The replacement chain escapes one character as EscapeChar does. */
  lemma EscapeXmlChar(x: char)
    ensures EscapeXml([x]) == EscapeChar(x)
  {
    if x == '&' {
      EscapeAmpersand(x);
    } else if x == '<' || x == '>' || x == '"' || x == '\'' {
      ReplaceAllSingle(x, '&', "&amp;");
      EscapeMarkup(x);
    } else {
      ReplaceAllSingle(x, '&', "&amp;");
      ReplaceAllSingle(x, '<', "&lt;");
      ReplaceAllSingle(x, '>', "&gt;");
      ReplaceAllSingle(x, '"', "&quot;");
      ReplaceAllSingle(x, '\'', "&apos;");
    }
  }

  /** '&' becomes "&amp;", which no later replacement touches. */
  lemma EscapeAmpersand(x: char)
    requires x == '&'
    ensures EscapeXml([x]) == EscapeChar(x)
  {
    var e := EscapeChar(x);
    ReplaceAllSingle(x, '&', e);
    ReplaceAllAbsent(e, '<', "&lt;");
    ReplaceAllAbsent(e, '>', "&gt;");
    ReplaceAllAbsent(e, '"', "&quot;");
    ReplaceAllAbsent(e, '\'', "&apos;");
  }

  /** The other four specials become their entities, which later replacements do not touch. */
  lemma EscapeMarkup(x: char)
    requires x == '<' || x == '>' || x == '"' || x == '\''
    ensures ReplaceAll(ReplaceAll(ReplaceAll(ReplaceAll([x], '<', "&lt;"), '>', "&gt;"), '"', "&quot;"), '\'', "&apos;")
            == EscapeChar(x)
  {
    var e := EscapeChar(x);
    if x == '<' {
      ReplaceAllSingle(x, '<', e);
      ReplaceAllAbsent(e, '>', "&gt;");
      ReplaceAllAbsent(e, '"', "&quot;");
      ReplaceAllAbsent(e, '\'', "&apos;");
    } else if x == '>' {
      ReplaceAllSingle(x, '<', "&lt;");
      ReplaceAllSingle(x, '>', e);
      ReplaceAllAbsent(e, '"', "&quot;");
      ReplaceAllAbsent(e, '\'', "&apos;");
    } else if x == '"' {
      ReplaceAllSingle(x, '<', "&lt;");
      ReplaceAllSingle(x, '>', "&gt;");
      ReplaceAllSingle(x, '"', e);
      ReplaceAllAbsent(e, '\'', "&apos;");
    } else {
      ReplaceAllSingle(x, '<', "&lt;");
      ReplaceAllSingle(x, '>', "&gt;");
      ReplaceAllSingle(x, '"', "&quot;");
      ReplaceAllSingle(x, '\'', e);
    }
  }

  lemma EscapeXmlAppend(a: string, b: string)
    ensures EscapeXml(a + b) == EscapeXml(a) + EscapeXml(b)
  {
    var a1, b1 := ReplaceAll(a, '&', "&amp;"), ReplaceAll(b, '&', "&amp;");
    ReplaceAllAppend(a, b, '&', "&amp;");
    var a2, b2 := ReplaceAll(a1, '<', "&lt;"), ReplaceAll(b1, '<', "&lt;");
    ReplaceAllAppend(a1, b1, '<', "&lt;");
    var a3, b3 := ReplaceAll(a2, '>', "&gt;"), ReplaceAll(b2, '>', "&gt;");
    ReplaceAllAppend(a2, b2, '>', "&gt;");
    var a4, b4 := ReplaceAll(a3, '"', "&quot;"), ReplaceAll(b3, '"', "&quot;");
    ReplaceAllAppend(a3, b3, '"', "&quot;");
    ReplaceAllAppend(a4, b4, '\'', "&apos;");
  }

  /**
   * The chain of replacements equals escaping each character on its own:
   * because '&' goes first, no entity inserted is escaped again.
   */
  lemma {:induction false} EscapeXmlIsPerChar(s: string)
    ensures EscapeXml(s) == EscapeEach(s)
    decreases |s|
  {
    if |s| > 0 {
      assert s == [s[0]] + s[1..];
      EscapeXmlAppend([s[0]], s[1..]);
      EscapeXmlChar(s[0]);
      EscapeXmlIsPerChar(s[1..]);
    }
  }

  /** No raw <, >, " or ' is left in escaped text. */
  predicate NoMarkup(s: string)
  {
    forall i :: 0 <= i < |s| ==> s[i] != '<' && s[i] != '>' && s[i] != '"' && s[i] != '\''
  }

  lemma {:induction false} EscapeEachNoMarkup(s: string)
    ensures NoMarkup(EscapeEach(s))
    decreases |s|
  {
    if |s| > 0 {
      EscapeEachNoMarkup(s[1..]);
      var e := EscapeChar(s[0]);
      assert NoMarkup(e);
      var r := EscapeEach(s);
      assert r == e + EscapeEach(s[1..]);
      forall i | 0 <= i < |r|
        ensures r[i] != '<' && r[i] != '>' && r[i] != '"' && r[i] != '\''
      {
        if i >= |e| {
          assert r[i] == EscapeEach(s[1..])[i - |e|];
        }
      }
    }
  }

  /** escapeXml leaves no <, >, " or ' in its output. */
  lemma EscapeXmlNoMarkup(s: string)
    ensures NoMarkup(EscapeXml(s))
  {
    EscapeXmlIsPerChar(s);
    EscapeEachNoMarkup(s);
  }

  predicate StartsWith(s: string, prefix: string)
  {
    |prefix| <= |s| && s[..|prefix|] == prefix
  }

  /** Decoding the five entities back into their characters. */
  function UnescapeXml(s: string): string
    decreases |s|
  {
    if |s| == 0 then ""
    else if StartsWith(s, "&amp;") then "&" + UnescapeXml(s[5..])
    else if StartsWith(s, "&lt;") then "<" + UnescapeXml(s[4..])
    else if StartsWith(s, "&gt;") then ">" + UnescapeXml(s[4..])
    else if StartsWith(s, "&quot;") then "\"" + UnescapeXml(s[6..])
    else if StartsWith(s, "&apos;") then "'" + UnescapeXml(s[6..])
    else [s[0]] + UnescapeXml(s[1..])
  }

  lemma UnescapeStep(x: char, rest: string)
    ensures UnescapeXml(EscapeChar(x) + rest) == [x] + UnescapeXml(rest)
  {
    if x == '&' || x == '<' || x == '>' || x == '"' || x == '\'' {
      UnescapeEntity(x, rest);
    } else {
      var s := [x] + rest;
      assert s[0] == x && s[1..] == rest;
      assert !StartsWith(s, "&amp;") && !StartsWith(s, "&lt;") && !StartsWith(s, "&gt;");
      assert !StartsWith(s, "&quot;") && !StartsWith(s, "&apos;");
    }
  }

  lemma UnescapeEntity(x: char, rest: string)
    requires x == '&' || x == '<' || x == '>' || x == '"' || x == '\''
    ensures UnescapeXml(EscapeChar(x) + rest) == [x] + UnescapeXml(rest)
  {
    var e := EscapeChar(x);
    var s := e + rest;
    assert s[..|e|] == e && s[|e|..] == rest;
    assert StartsWith(s, e);
    assert s[1] == e[1];
    if x == '<' {
      assert e == "&lt;";
      assert s[1] == 'l';
      assert !StartsWith(s, "&amp;");
    } else if x == '>' {
      assert e == "&gt;";
      assert s[1] == 'g';
      assert !StartsWith(s, "&amp;") && !StartsWith(s, "&lt;");
    } else if x == '"' {
      assert e == "&quot;";
      assert s[1] == 'q';
      assert !StartsWith(s, "&amp;") && !StartsWith(s, "&lt;") && !StartsWith(s, "&gt;");
    } else if x == '\'' {
      assert e == "&apos;";
      assert s[1] == 'a' && s[2] == 'p';
      assert s[2] == e[2];
      assert !StartsWith(s, "&amp;") && !StartsWith(s, "&lt;") && !StartsWith(s, "&gt;") && !StartsWith(s, "&quot;");
    }
  }

  lemma {:induction false} UnescapeEach(s: string)
    ensures UnescapeXml(EscapeEach(s)) == s
    decreases |s|
  {
    if |s| > 0 {
      UnescapeStep(s[0], EscapeEach(s[1..]));
      UnescapeEach(s[1..]);
      assert s == [s[0]] + s[1..];
    }
  }

  /** Decoding the entities of escaped text gives the text back. */
  lemma EscapeXmlRoundTrip(s: string)
    ensures UnescapeXml(EscapeXml(s)) == s
  {
    EscapeXmlIsPerChar(s);
    UnescapeEach(s);
  }

  // ---------------------------------------------------------------------
  // sanitizeFileName

  /** The characters /[^a-z0-9_\-]/gi does not match. */
  predicate KeptChar(c: char)
  {
    ('a' <= c <= 'z') || ('A' <= c <= 'Z') || ('0' <= c <= '9') || c == '_' || c == '-'
  }

  /** The characters a sanitized file name is made of. */
  predicate FileNameChar(c: char)
  {
    ('a' <= c <= 'z') || ('0' <= c <= '9') || c == '_' || c == '-'
  }

  /** Step 1: every other character becomes '_'. */
  function ReplaceUnkept(s: string): (r: string)
    ensures |r| == |s|
  {
    seq(|s|, i requires 0 <= i < |s| => if KeptChar(s[i]) then s[i] else '_')
  }

  /** Step 2, /_+/g to '_': each run of underscores becomes one. */
  function CollapseUnderscores(s: string): (r: string)
    ensures |r| <= |s|
    ensures |s| > 0 ==> |r| > 0 && r[0] == s[0]
    decreases |s|
  {
    if |s| == 0 then ""
    else if |s| >= 2 && s[0] == '_' && s[1] == '_' then CollapseUnderscores(s[1..])
    else [s[0]] + CollapseUnderscores(s[1..])
  }

  /** Step 3, toLowerCase on text that is ASCII by now. */
  function ToLowerAscii(s: string): (r: string)
    ensures |r| == |s|
  {
    seq(|s|, i requires 0 <= i < |s| => if 'A' <= s[i] <= 'Z' then (s[i] as int + 32) as char else s[i])
  }

  /** sanitizeFileName. */
  function SanitizeFileName(name: string): string
  {
    ToLowerAscii(CollapseUnderscores(ReplaceUnkept(name)))
  }

  /** No two underscores in a row. */
  predicate NoDoubleUnderscore(s: string)
  {
    forall i :: 0 <= i < |s| - 1 ==> !(s[i] == '_' && s[i + 1] == '_')
  }

  lemma {:induction false} CollapseShape(s: string)
    requires forall i :: 0 <= i < |s| ==> KeptChar(s[i])
    ensures var r := CollapseUnderscores(s);
            NoDoubleUnderscore(r) && forall i :: 0 <= i < |r| ==> KeptChar(r[i])
    decreases |s|
  {
    if |s| > 0 {
      CollapseShape(s[1..]);
      var r := CollapseUnderscores(s);
      var t := CollapseUnderscores(s[1..]);
      if !(|s| >= 2 && s[0] == '_' && s[1] == '_') {
        assert r == [s[0]] + t;
        forall i | 0 <= i < |r| - 1
          ensures !(r[i] == '_' && r[i + 1] == '_')
        {
          if i > 0 {
            assert r[i] == t[i - 1] && r[i + 1] == t[i];
          } else if s[0] == '_' && |s| >= 2 {
            assert r[1] == t[0] == s[1];
          }
        }
        forall i | 0 <= i < |r|
          ensures KeptChar(r[i])
        {
          if i > 0 {
            assert r[i] == t[i - 1];
          }
        }
      }
    }
  }

  lemma {:induction false} CollapseFixes(s: string)
    requires NoDoubleUnderscore(s)
    ensures CollapseUnderscores(s) == s
    decreases |s|
  {
    if |s| > 0 {
      assert NoDoubleUnderscore(s[1..]) by {
        forall i | 0 <= i < |s[1..]| - 1
          ensures !(s[1..][i] == '_' && s[1..][i + 1] == '_')
        {
          assert s[1..][i] == s[i + 1] && s[1..][i + 1] == s[i + 2];
        }
      }
      CollapseFixes(s[1..]);
      assert s == [s[0]] + s[1..];
    }
  }

  /**
   * A sanitized name uses only a-z, 0-9, '_' and '-', has no two
   * underscores in a row and is no longer than the name.
   */
  lemma LowerKept(c: char)
    requires KeptChar(c)
    ensures var l := if 'A' <= c <= 'Z' then (c as int + 32) as char else c;
            FileNameChar(l) && (l == '_' <==> c == '_')
  {
  }

  lemma SanitizeFileNameSafe(name: string)
    ensures var r := SanitizeFileName(name);
            && (forall i :: 0 <= i < |r| ==> FileNameChar(r[i]))
            && NoDoubleUnderscore(r)
            && |r| <= |name|
  {
    var kept := ReplaceUnkept(name);
    CollapseShape(kept);
    var c := CollapseUnderscores(kept);
    var r := ToLowerAscii(c);
    forall i | 0 <= i < |r|
      ensures FileNameChar(r[i]) && (r[i] == '_' <==> c[i] == '_')
    {
      LowerKept(c[i]);
    }
    forall i | 0 <= i < |r| - 1
      ensures !(r[i] == '_' && r[i + 1] == '_')
    {
      assert !(c[i] == '_' && c[i + 1] == '_');
    }
  }

  /** A name that is already safe is left as it is. */
  lemma SanitizeFixesSafe(s: string)
    requires forall i :: 0 <= i < |s| ==> FileNameChar(s[i])
    requires NoDoubleUnderscore(s)
    ensures SanitizeFileName(s) == s
  {
    assert ReplaceUnkept(s) == s;
    CollapseFixes(s);
    assert ToLowerAscii(s) == s;
  }

  /** Sanitizing twice is sanitizing once. */
  lemma SanitizeIdempotent(name: string)
    ensures SanitizeFileName(SanitizeFileName(name)) == SanitizeFileName(name)
  {
    SanitizeFileNameSafe(name);
    SanitizeFixesSafe(SanitizeFileName(name));
  }

  // ---------------------------------------------------------------------
  // generateGPX and exportAsGPX

  const GpxHeader: string :=
    "<?xml version=\"1.0\" encoding=\"UTF-8\"?>\n"
    + "<gpx version=\"1.1\"\n"
    + "     creator=\"Running Route Painter - https://claude.com/claude-code\"\n"
    + "     xmlns=\"http://www.topografix.com/GPX/1/1\"\n"
    + "     xmlns:xsi=\"http://www.w3.org/2001/XMLSchema-instance\"\n"
    + "     xsi:schemaLocation=\"http://www.topografix.com/GPX/1/1 http://www.topografix.com/GPX/1/1/gpx.xsd\">\n"

  /** Milliseconds between the timestamps of consecutive track points. */
  const PointInterval: int := 1000

  /** The formatting the document needs: toFixed(6) of a coordinate and toISOString of a time in milliseconds. */
  datatype Formatting = Formatting(fixed6: real -> string, isoTime: int -> string)

  /**
   * The clock: what `new Date().toISOString()` gave for the metadata, and
   * what `Date.now()` returns while the i-th track point is written.
   */
  datatype Clock = Clock(nowIso: string, nowAt: int -> int)

  /** parts.join(sep). */
  function JoinWith(parts: seq<string>, sep: string): string
  {
    if |parts| == 0 then ""
    else if |parts| == 1 then parts[0]
    else parts[0] + sep + JoinWith(parts[1..], sep)
  }

  /** The timestamp of track point i: the clock reading plus i seconds. */
  function PointTime(clock: Clock, i: int): int
  {
    clock.nowAt(i) + i * PointInterval
  }

  /** The <trkpt> element of one point. */
  function TrackPoint(f: Formatting, p: LatLng, time: int): string
  {
    "      <trkpt lat=\"" + f.fixed6(p.lat) + "\" lon=\"" + f.fixed6(p.lng) + "\">\n"
    + "        <ele>0</ele>\n"
    + "        <time>" + f.isoTime(time) + "</time>\n"
    + "      </trkpt>"
  }

  /** One <trkpt> per route point, in route order. */
  function TrackPoints(f: Formatting, clock: Clock, route: seq<LatLng>): (r: seq<string>)
    ensures |r| == |route|
    ensures forall i :: 0 <= i < |r| ==> r[i] == TrackPoint(f, route[i], PointTime(clock, i))
  {
    seq(|route|, i requires 0 <= i < |route| => TrackPoint(f, route[i], PointTime(clock, i)))
  }

  /** `description ? ... : ''`: undefined and the empty string are falsy. */
  function DescElement(description: Option<string>): string
  {
    if description.Some? && description.value != "" then "<desc>" + EscapeXml(description.value) + "</desc>" else ""
  }

  /** generateGPX. */
  function GenerateGpx(f: Formatting, clock: Clock, route: seq<LatLng>, name: string, description: Option<string>): string
  {
    var desc := DescElement(description);
    GpxHeader
    + "  <metadata>\n"
    + "    <name>" + EscapeXml(name) + "</name>\n"
    + "    " + desc + "\n"
    + "    <time>" + clock.nowIso + "</time>\n"
    + "  </metadata>\n"
    + "  <trk>\n"
    + "    <name>" + EscapeXml(name) + "</name>\n"
    + "    " + desc + "\n"
    + "    <type>running</type>\n"
    + "    <trkseg>\n"
    + JoinWith(TrackPoints(f, clock, route), "\n") + "\n"
    + "    </trkseg>\n"
    + "  </trk>\n"
    + "</gpx>"
  }

  /**
   * With a clock that stands still while the points are written, the
   * timestamps of consecutive track points are exactly one second apart.
   */
  lemma TrackTimesOneSecondApart(clock: Clock, t: int, i: int)
    requires forall k :: clock.nowAt(k) == t
    ensures PointTime(clock, i + 1) - PointTime(clock, i) == PointInterval
    ensures PointTime(clock, i) == t + i * PointInterval
  {
  }

  /** A <desc> element is written exactly when the description is a non-empty string, escaped. */
  lemma DescElementCases(description: Option<string>)
    ensures var d := DescElement(description);
            && (d != "" <==> description.Some? && description.value != "")
            && (d != "" ==> d == "<desc>" + EscapeXml(description.value) + "</desc>")
  {
  }

  /** The file exportAsGPX saves: its name, media type and content. */
  datatype GpxFile = GpxFile(fileName: string, mediaType: string, content: string)

  const GpxMediaType: string := "application/gpx+xml"
  const EmptyRouteError: string := "Route is empty"

  /** exportAsGPX up to the call to saveAs. */
  function ExportAsGpx(f: Formatting, clock: Clock, route: seq<LatLng>, name: string, description: Option<string>): (r: Result<GpxFile>)
  {
    if |route| == 0 then Failure(EmptyRouteError)
    else Success(GpxFile(SanitizeFileName(name) + ".gpx", GpxMediaType, GenerateGpx(f, clock, route, name, description)))
  }

  /**
   * Exporting fails exactly for an empty route; otherwise the file is named
   * after the sanitized name with the .gpx extension, in safe characters,
   * and holds the generated document.
   */
  lemma ExportAsGpxFile(f: Formatting, clock: Clock, route: seq<LatLng>, name: string, description: Option<string>)
    ensures var r := ExportAsGpx(f, clock, route, name, description);
            && (r.Failure? <==> |route| == 0)
            && (r.Failure? ==> r.error == EmptyRouteError)
            && (r.Success? ==>
                  var n := r.value.fileName;
                  && |n| >= 4 && n[|n| - 4..] == ".gpx"
                  && (forall i :: 0 <= i < |n| - 4 ==> FileNameChar(n[i]))
                  && r.value.content == GenerateGpx(f, clock, route, name, description))
  {
    SanitizeFileNameSafe(name);
  }

  // ---------------------------------------------------------------------
  // validateRouteForExport

  /** The result of validateRouteForExport: valid, with an optional error. */
  datatype ExportCheck = ExportCheck(valid: bool, error: Option<string>)

  const NoRouteError: string := "No route to export"
  const TooShortError: string := "Route must have at least 2 points"
  const InvalidCoordinatesError: string := "Route contains invalid coordinates"

  /** A latitude outside [-90, 90] or a longitude outside [-180, 180]. */
  predicate OutOfRange(p: LatLng)
  {
    p.lat < -90.0 || p.lat > 90.0 || p.lng < -180.0 || p.lng > 180.0
  }

  /** Whether any of the first n points is out of range: the search loop with its early return. */
  function AnyOutOfRange(route: seq<LatLng>, n: int): bool
    requires 0 <= n <= |route|
    decreases n
  {
    n > 0 && (AnyOutOfRange(route, n - 1) || OutOfRange(route[n - 1]))
  }

  /** validateRouteForExport. */
  function ValidateRouteForExport(route: seq<LatLng>): ExportCheck
  {
    if |route| == 0 then ExportCheck(false, Some(NoRouteError))
    else if |route| < 2 then ExportCheck(false, Some(TooShortError))
    else if AnyOutOfRange(route, |route|) then ExportCheck(false, Some(InvalidCoordinatesError))
    else ExportCheck(true, None)
  }

  lemma {:induction false} AnyOutOfRangeExists(route: seq<LatLng>, n: int)
    requires 0 <= n <= |route|
    ensures AnyOutOfRange(route, n) <==> exists i :: 0 <= i < n && OutOfRange(route[i])
    decreases n
  {
    if n > 0 {
      AnyOutOfRangeExists(route, n - 1);
    }
  }

  /**
   * A route is valid for export exactly when it has two points or more and
   * every point lies within latitude [-90, 90] and longitude [-180, 180];
   * otherwise the error names the first reason in the source's order.
   */
  lemma ValidateRouteForExportCases(route: seq<LatLng>)
    ensures var r := ValidateRouteForExport(route);
            && (r.valid <==> |route| >= 2 && forall i :: 0 <= i < |route| ==> !OutOfRange(route[i]))
            && (r.valid <==> r.error.None?)
            && (|route| == 0 ==> r.error == Some(NoRouteError))
            && (|route| == 1 ==> r.error == Some(TooShortError))
            && (|route| >= 2 && (exists i :: 0 <= i < |route| && OutOfRange(route[i]))
                ==> r.error == Some(InvalidCoordinatesError))
  {
    AnyOutOfRangeExists(route, |route|);
  }
}
