// src/lib/export/googleMapsUrl.ts: the Google Maps directions link for a
// route, the shareable link, and the pre-export check on its length.
// JavaScript's number-to-string conversion is the parameter `show`.

module GoogleMapsUrl {
  import opened Types
  import opened Seqs
  import opened Distance
  import opened Segmentation

  /** At most this many points of the route go into the link. */
  const MaxWaypoints: int := 9

  /** URLs longer than this get a warning from validateRouteForUrl. */
  const MaxUrlLength: int := 2000

  const UrlPrefix: string := "https://www.google.com/maps/dir/?api=1&origin="
  const DestinationKey: string := "&destination="
  const TravelMode: string := "&travelmode=walking"
  const WaypointsKey: string := "&waypoints="

  const EmptyRouteError: string := "Route is empty"
  const NoRouteError: string := "No route to export"
  const TooShortError: string := "Route must have at least 2 points"
  const ComplexWarning: string := "Route is complex and will be simplified for URL export"

  /** The points of the route that go into the link: all of them, or nine sampled by distance. */
  function Waypoints(m: Runtime, route: seq<LatLng>): seq<LatLng>
  {
    if |route| > MaxWaypoints then SamplePointsByDistance(m, route, MaxWaypoints) else route
  }

  /** `${p.lat},${p.lng}`. */
  function Coord(show: real -> string, p: LatLng): string
  {
    show(p.lat) + "," + show(p.lng)
  }

  /** parts.join('|'). */
  function JoinBars(parts: seq<string>): string
  {
    if |parts| == 0 then ""
    else if |parts| == 1 then parts[0]
    else parts[0] + "|" + JoinBars(parts[1..])
  }

  /** The coordinates of each intermediate waypoint. */
  function Coords(show: real -> string, points: seq<LatLng>): (r: seq<string>)
    ensures |r| == |points|
  {
    seq(|points|, i requires 0 <= i < |points| => Coord(show, points[i]))
  }

  /** waypoints.slice(1, -1): everything between the first and the last point. */
  function Intermediate(points: seq<LatLng>): (r: seq<LatLng>)
    requires |points| > 0
    ensures |r| == if |points| <= 2 then 0 else |points| - 2
  {
    if |points| <= 2 then [] else points[1..|points| - 1]
  }

  /** generateGoogleMapsUrl. */
  function GenerateGoogleMapsUrl(m: Runtime, show: real -> string, route: seq<LatLng>): (r: Result<string>)
    ensures r.Success? <==> |route| > 0
    ensures r.Failure? ==> r.error == EmptyRouteError
  {
    if |route| == 0 then Failure(EmptyRouteError)
    else
      var waypoints := Waypoints(m, route);
      assert |waypoints| > 0 by {
        if |route| > MaxWaypoints {
          var _ := SamplePointsByDistanceShape(m, route, MaxWaypoints);
        }
      }
      var inter := Intermediate(waypoints);
      var url := UrlPrefix + Coord(show, waypoints[0]) + DestinationKey + Coord(show, Last(waypoints)) + TravelMode;
      if |inter| > 0 then Success(url + WaypointsKey + JoinBars(Coords(show, inter)))
      else Success(url)
  }

  /**
   * The points in a link: the route itself up to nine points, otherwise two
   * to nine points that start at the route's first point, end at its last
   * point and are points of the route.
   */
  lemma WaypointsShape(m: Runtime, route: seq<LatLng>)
    requires |route| > 0
    ensures var w := Waypoints(m, route);
            && (|route| <= MaxWaypoints ==> w == route)
            && (|route| > MaxWaypoints ==> 2 <= |w| <= MaxWaypoints)
            && |w| > 0 && w[0] == route[0] && Last(w) == Last(route)
            && (forall i :: 0 <= i < |w| ==> w[i] in route)
  {
    if |route| > MaxWaypoints {
      var indices := SamplePointsByDistanceShape(m, route, MaxWaypoints);
      var w := Waypoints(m, route);
      assert w == PointsAt(route, indices);
      forall i | 0 <= i < |w|
        ensures w[i] in route
      {
        assert w[i] == route[indices[i]];
      }
    }
  }

  /**
   * The link of a non-empty route: the origin is the route's first point and
   * the destination its last, walking mode follows, and the waypoints
   * parameter is present exactly when there is a point between them, with
   * at most seven such points.
   */
  lemma GoogleMapsUrlShape(m: Runtime, show: real -> string, route: seq<LatLng>)
    requires |route| > 0
    ensures var r := GenerateGoogleMapsUrl(m, show, route);
            var w := Waypoints(m, route);
            var head := UrlPrefix + Coord(show, route[0]) + DestinationKey + Coord(show, Last(route)) + TravelMode;
            && r.Success?
            && (|w| <= 2 ==> r.value == head)
            && (|w| > 2 ==>
                  r.value == head + WaypointsKey + JoinBars(Coords(show, w[1..|w| - 1]))
                  && 1 <= |w| - 2 <= MaxWaypoints - 2)
  {
    WaypointsShape(m, route);
  }

  /** A one-point route links from that point to itself, with no waypoints. */
  lemma SinglePointUrl(m: Runtime, show: real -> string, p: LatLng)
    ensures GenerateGoogleMapsUrl(m, show, [p])
            == Success(UrlPrefix + Coord(show, p) + DestinationKey + Coord(show, p) + TravelMode)
  {
    WaypointsShape(m, [p]);
  }

  /** The part of s before its first '|', and what follows that bar. */
  function SplitBars(s: string): (r: seq<string>)
    ensures |r| > 0
    decreases |s|
  {
    if '|' !in s then [s]
    else
      var i := FirstBar(s, 0);
      [s[..i]] + SplitBars(s[i + 1..])
  }

  /** The index of the first '|' of s at or after from. */
  function FirstBar(s: string, from: int): (i: int)
    requires 0 <= from <= |s| && '|' in s[from..]
    ensures from <= i < |s| && s[i] == '|' && '|' !in s[from..i]
    decreases |s| - from
  {
    if s[from] == '|' then from
    else
      assert s[from..] == [s[from]] + s[from + 1..];
      var i := FirstBar(s, from + 1);
      assert s[from..i] == [s[from]] + s[from + 1..i];
      i
  }

  /** Splitting the joined parts at the bars gives the parts back when none contains a bar. */
  lemma {:induction false} SplitJoin(parts: seq<string>)
    requires |parts| > 0
    requires forall i :: 0 <= i < |parts| ==> '|' !in parts[i]
    ensures SplitBars(JoinBars(parts)) == parts
    decreases |parts|
  {
    if |parts| > 1 {
      var p := parts[0];
      var rest := JoinBars(parts[1..]);
      var s := p + "|" + rest;
      assert '|' in s by {
        assert s[|p|] == '|';
      }
      FirstBarAfterPart(p, rest);
      assert s[..|p|] == p;
      assert s[|p| + 1..] == rest;
      SplitJoin(parts[1..]);
    }
  }

  lemma FirstBarAfterPart(p: string, rest: string)
    requires '|' !in p
    ensures var s := p + "|" + rest;
            '|' in s && FirstBar(s, 0) == |p|
  {
    var s := p + "|" + rest;
    assert s[|p|] == '|';
    assert s[..|p|] == p;
  }

  /**
   * When no number is written with a '|', the waypoints parameter of the
   * link splits back into one coordinate pair per intermediate point.
   */
  lemma WaypointsRoundTrip(show: real -> string, points: seq<LatLng>)
    requires |points| > 0
    requires forall x :: '|' !in show(x)
    ensures SplitBars(JoinBars(Coords(show, points))) == Coords(show, points)
  {
    var c := Coords(show, points);
    forall i | 0 <= i < |c|
      ensures '|' !in c[i]
    {
      assert c[i] == show(points[i].lat) + "," + show(points[i].lng);
      assert '|' !in show(points[i].lat) && '|' !in show(points[i].lng);
    }
    SplitJoin(c);
  }

  /**
   * generateShareableUrl: the Google Maps link of the route; the name and
   * the distance are encoded and formatted but not used.
   */
  function GenerateShareableUrl(m: Runtime, show: real -> string, route: seq<LatLng>, name: string, distance: real): (r: Result<string>)
  {
    GenerateGoogleMapsUrl(m, show, route)
  }

  /** The shareable link does not depend on the name or the distance. */
  lemma ShareableIgnoresNameAndDistance(m: Runtime, show: real -> string, route: seq<LatLng>,
                                        name1: string, distance1: real, name2: string, distance2: real)
    ensures GenerateShareableUrl(m, show, route, name1, distance1) == GenerateShareableUrl(m, show, route, name2, distance2)
    ensures GenerateShareableUrl(m, show, route, name1, distance1) == GenerateGoogleMapsUrl(m, show, route)
  {
  }

  /** estimateUrlLength: the length of the link; it throws for an empty route. */
  function EstimateUrlLength(m: Runtime, show: real -> string, route: seq<LatLng>): (r: Result<int>)
    ensures r.Success? <==> |route| > 0
    ensures r.Success? ==> r.value == |GenerateGoogleMapsUrl(m, show, route).value|
  {
    match GenerateGoogleMapsUrl(m, show, route)
    case Failure(e) => Failure(e)
    case Success(url) => Success(|url|)
  }

  /** The result of validateRouteForUrl: valid, with an optional error and warning. */
  datatype UrlCheck = UrlCheck(valid: bool, error: Option<string>, warning: Option<string>)

  /** validateRouteForUrl. */
  function ValidateRouteForUrl(m: Runtime, show: real -> string, route: seq<LatLng>): (r: UrlCheck)
  {
    if |route| == 0 then UrlCheck(false, Some(NoRouteError), None)
    else if |route| < 2 then UrlCheck(false, Some(TooShortError), None)
    else if EstimateUrlLength(m, show, route).value > MaxUrlLength then UrlCheck(true, None, Some(ComplexWarning))
    else UrlCheck(true, None, None)
  }

  /**
   * A route is valid for a link exactly when it has two points or more; an
   * invalid one carries an error and no warning, and a valid one carries a
   * warning exactly when its link is longer than 2000 characters.
   */
  lemma ValidateRouteForUrlCases(m: Runtime, show: real -> string, route: seq<LatLng>)
    ensures var r := ValidateRouteForUrl(m, show, route);
            && (r.valid <==> |route| >= 2)
            && (r.valid <==> r.error.None?)
            && (|route| == 0 ==> r.error == Some(NoRouteError))
            && (|route| == 1 ==> r.error == Some(TooShortError))
            && (r.warning.Some? <==> |route| >= 2 && |GenerateGoogleMapsUrl(m, show, route).value| > MaxUrlLength)
            && (r.warning.Some? ==> r.warning.value == ComplexWarning)
  {
  }
}
