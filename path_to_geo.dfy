// src/lib/routing/pathToGeo.ts: projection of a normalized drawing onto the
// map around a centre, scale factor, recommended rotation and covered area.

module PathToGeo {
  import opened Types
  import opened Distance
  import opened Normalizer
  import opened Coordinates
  import Geometry

  /** The length in metres a projection aims for when none is given. */
  const DefaultTargetDistance: real := 10000.0

  /** PathToGeoOptions: absent fields take their defaults. */
  datatype PathToGeoOptions = PathToGeoOptions(targetDistance: Option<real>, rotation: Option<real>, scale: Option<real>)

  function TargetOf(options: PathToGeoOptions): real
  {
    if options.targetDistance.Some? then options.targetDistance.value else DefaultTargetDistance
  }

  function RotationOf(options: PathToGeoOptions): real
  {
    if options.rotation.Some? then options.rotation.value else 0.0
  }

  /** The polyline length of a normalized path (calculatePathLength). */
  function NormalizedLength(m: Runtime, path: seq<Point2D>): (r: real)
    ensures r >= 0.0
  {
    PathLength(m, path, |path|)
  }

  /** The metres per normalized unit: the override if given, else target / length. */
  function ScaleFactor(m: Runtime, path: seq<Point2D>, options: PathToGeoOptions): real
    requires NormalizedLength(m, path) != 0.0
  {
    if options.scale.Some? then options.scale.value else TargetOf(options) / NormalizedLength(m, path)
  }

  /** An offset from the box centre, turned by `rotation` degrees when that is not 0. */
  function Rotated(m: Runtime, x: real, y: real, rotation: real): Point2D
  {
    if rotation != 0.0 then
      Point2D(x * m.cosDeg(rotation) - y * m.sinDeg(rotation), x * m.sinDeg(rotation) + y * m.cosDeg(rotation))
    else Point2D(x, y)
  }

  /** Where one normalized point lands: centred, rotated, scaled to metres, then placed around center. */
  function GeoPoint(m: Runtime, point: Point2D, b: Bounds, center: LatLng, scaleFactor: real, rotation: real): LatLng
  {
    var q := Rotated(m, point.x - b.centerX, point.y - b.centerY, rotation);
    AddOffset(center, MetersToLatLngOffset(m, center, Point2D(q.x * scaleFactor, q.y * scaleFactor)))
  }

  /** pathToGeo. */
  function PathToGeo(m: Runtime, path: seq<Point2D>, center: LatLng, options: PathToGeoOptions): (r: seq<LatLng>)
    ensures |path| == 0 ==> r == []
    ensures |path| > 0 && NormalizedLength(m, path) == 0.0 ==> r == [center]
    ensures NormalizedLength(m, path) != 0.0 ==> |r| == |path|
  {
    if |path| == 0 then []
    else if NormalizedLength(m, path) == 0.0 then [center]
    else
      var s := ScaleFactor(m, path, options);
      var b := BoundsOf(path);
      var rotation := RotationOf(options);
      seq(|path|, i requires 0 <= i < |path| => GeoPoint(m, path[i], b, center, s, rotation))
  }

  /**
   * A path of one repeated point (in particular a single point) is projected
   * onto the centre alone.
   */
  lemma StationaryPathIsCenter(m: Runtime, path: seq<Point2D>, center: LatLng, options: PathToGeoOptions)
    requires |path| > 0
    requires forall i :: 0 <= i < |path| ==> path[i] == path[0]
    ensures PathToGeo(m, path, center, options) == [center]
  {
    PathLengthZero(m, path, |path|);
  }

  /**
   * Without an override the scale factor stretches the normalized length to
   * exactly the target; with one, the override is used as given.
   */
  lemma ScaleMeetsTarget(m: Runtime, path: seq<Point2D>, options: PathToGeoOptions)
    requires NormalizedLength(m, path) != 0.0
    ensures options.scale.None? ==> ScaleFactor(m, path, options) * NormalizedLength(m, path) == TargetOf(options)
    ensures options.scale.Some? ==> ScaleFactor(m, path, options) == options.scale.value
  {
  }

  /** Whatever the rotation and scale, the centre of the bounding box lands on center. */
  lemma BoxCentreLandsOnCenter(m: Runtime, b: Bounds, center: LatLng, scaleFactor: real, rotation: real)
    ensures GeoPoint(m, Point2D(b.centerX, b.centerY), b, center, scaleFactor, rotation) == center
  {
    var q := Rotated(m, 0.0, 0.0, rotation);
    assert q == Point2D(0.0, 0.0);
  }

  /** A path point at the centre of the path's bounding box is placed exactly on center. */
  lemma CentrePointLandsOnCenter(m: Runtime, path: seq<Point2D>, center: LatLng, options: PathToGeoOptions, i: int)
    requires NormalizedLength(m, path) != 0.0
    requires 0 <= i < |path| && path[i] == Point2D(BoundsOf(path).centerX, BoundsOf(path).centerY)
    ensures PathToGeo(m, path, center, options)[i] == center
  {
    BoxCentreLandsOnCenter(m, BoundsOf(path), center, ScaleFactor(m, path, options), RotationOf(options));
  }

  /**
   * The placement of an unrotated point: its distance to the box centre,
   * times the scale, in degrees; y northwards over 111320 m per degree, x
   * eastwards over the metres per degree of longitude at the centre.
   */
  function UnrotatedPlacement(m: Runtime, point: Point2D, b: Bounds, center: LatLng, s: real): LatLng
  {
    LatLng(center.lat + (point.y - b.centerY) * s / MetersPerDegree,
           center.lng + (point.x - b.centerX) * s / MetersPerDegreeLng(m, center.lat))
  }

  lemma UnrotatedPoint(m: Runtime, point: Point2D, b: Bounds, center: LatLng, s: real)
    ensures GeoPoint(m, point, b, center, s, 0.0) == UnrotatedPlacement(m, point, b, center, s)
  {
    var dx, dy := point.x - b.centerX, point.y - b.centerY;
    assert Rotated(m, dx, dy, 0.0) == Point2D(dx, dy);
  }

  /**
   * Without rotation every point is placed as UnrotatedPlacement says: the
   * drawing's y axis is not flipped, and no other option is read.
   */
  lemma UnrotatedProjection(m: Runtime, path: seq<Point2D>, center: LatLng, options: PathToGeoOptions, i: int)
    requires NormalizedLength(m, path) != 0.0 && RotationOf(options) == 0.0
    requires 0 <= i < |path|
    ensures PathToGeo(m, path, center, options)[i]
            == UnrotatedPlacement(m, path[i], BoundsOf(path), center, ScaleFactor(m, path, options))
  {
    UnrotatedPoint(m, path[i], BoundsOf(path), center, ScaleFactor(m, path, options));
  }

  /** calculateScaleFactor: target / length, or the target itself for a zero length. */
  function CalculateScaleFactor(m: Runtime, path: seq<Point2D>, targetDistance: real): (r: real)
    ensures NormalizedLength(m, path) != 0.0 ==> r * NormalizedLength(m, path) == targetDistance
    ensures NormalizedLength(m, path) == 0.0 ==> r == targetDistance
  {
    var len := NormalizedLength(m, path);
    if len == 0.0 then targetDistance else targetDistance / len
  }

  /** The scale factor pathToGeo derives without an override is calculateScaleFactor's. */
  lemma ScaleFactorsAgree(m: Runtime, path: seq<Point2D>, targetDistance: real)
    requires NormalizedLength(m, path) != 0.0
    ensures ScaleFactor(m, path, PathToGeoOptions(Some(targetDistance), None, None))
            == CalculateScaleFactor(m, path, targetDistance)
  {
  }

  /** getRecommendedRotation: 90 for a path much wider than high, else 0. */
  function GetRecommendedRotation(path: seq<Point2D>): (r: real)
    ensures r == 0.0 || r == 90.0
    ensures r == 90.0 <==> |path| >= 2 && BoundsOf(path).width > BoundsOf(path).height * 1.5
  {
    if |path| < 2 then 0.0
    else if BoundsOf(path).width > BoundsOf(path).height * 1.5 then 90.0
    else 0.0
  }

  /** A point in metres east and north of center, as calculatePathArea converts it. */
  function LocalMeters(m: Runtime, p: LatLng, center: LatLng): Point2D
  {
    Point2D((p.lng - center.lng) * MetersPerDegree * m.cosDeg(center.lat), (p.lat - center.lat) * MetersPerDegree)
  }

  function LocalPath(m: Runtime, geoPath: seq<LatLng>, center: LatLng): (r: seq<Point2D>)
    ensures |r| == |geoPath|
  {
    seq(|geoPath|, i requires 0 <= i < |geoPath| => LocalMeters(m, geoPath[i], center))
  }

  /**
   * calculatePathArea with its loop: the shoelace area of the path in local
   * metres around center, hence never negative and 0 below three points.
   */
  method CalculatePathArea(m: Runtime, geoPath: seq<LatLng>, center: LatLng) returns (area: real)
    ensures area == Geometry.PolygonArea(LocalPath(m, geoPath, center))
  {
    if |geoPath| < 3 {
      return 0.0;
    }
    ghost var local := LocalPath(m, geoPath, center);
    var sum := 0.0;
    var i := 0;
    while i < |geoPath|
      invariant 0 <= i <= |geoPath|
      invariant sum == Geometry.ShoelaceSum(local, i)
    {
      var j := (i + 1) % |geoPath|;
      var p1 := LocalMeters(m, geoPath[i], center);
      var p2 := LocalMeters(m, geoPath[j], center);
      assert local[i] == p1 && local[j] == p2;
      sum := sum + Geometry.Cross(p1, p2);
      i := i + 1;
    }
    area := Abs(sum / 2.0);
  }
}
