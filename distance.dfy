// src/lib/utils/distance.ts and the numeric runtime it relies on.
//
// The trigonometry (haversine, bearing, destination point) and the planar
// step length Math.sqrt(dx * dx + dy * dy) are
// not computed here: they are the fields of a `Primitives` record that every
// model operation needing them receives as a parameter. `Lawful` lists the
// only facts about them that the model uses, and `Runtime` is the type of
// the records that have them.

module Distance {
  import opened Types

  /** Equatorial metres per degree of latitude (the constant 111320). */
  const MetersPerDegree: real := 111320.0

  datatype Primitives = Primitives(
    /** Math.sqrt(dx * dx + dy * dy), the planar length of a step (dx, dy) */
    hypot: (real, real) -> real,
    /** cosine of an angle given in degrees */
    cosDeg: real -> real,
    /** sine of an angle given in degrees */
    sinDeg: real -> real,
    /** great-circle distance in metres (haversineDistance) */
    haversine: (LatLng, LatLng) -> real,
    /** initial bearing in degrees (calculateBearing) */
    bearing: (LatLng, LatLng) -> real,
    /** point reached from start after a distance in metres on a bearing (calculateDestination) */
    destination: (LatLng, real, real) -> LatLng
  )
  {
    /**
     * The facts the model relies on:
     *  - the planar step length is non-negative and 0 exactly for the null step
     *    (assumed: with doubles a tiny non-null step can underflow to 0);
     *  - the cosine is never exactly 0, so the metres per degree of longitude
     *    never vanish (assumed: this is not established for every double);
     *  - haversineDistance is non-negative and 0 from a point to itself;
     *  - calculateBearing lies in [0, 360).
     */
    ghost predicate Lawful()
    {
      (forall dx: real, dy: real :: hypot(dx, dy) >= 0.0)
      && (forall dx: real, dy: real :: hypot(dx, dy) == 0.0 <==> dx == 0.0 && dy == 0.0)
      && (forall d: real :: cosDeg(d) != 0.0)
      && (forall p: LatLng, q: LatLng :: haversine(p, q) >= 0.0)
      && (forall p: LatLng :: haversine(p, p) == 0.0)
      && (forall p: LatLng, q: LatLng :: 0.0 <= bearing(p, q) < 360.0)
    }
  }

  /** Primitives that have the properties the model relies on. */
  type Runtime = m: Primitives | m.Lawful()
    witness Primitives((dx, dy) => if dx == 0.0 && dy == 0.0 then 0.0 else 1.0, d => 1.0, d => 0.0,
                       (p, q) => 0.0, (p, q) => 0.0, (p, distance, bearing) => p)

  /** metersPerDegreeLng: metres per degree of longitude at a latitude. */
  function MetersPerDegreeLng(m: Runtime, latitude: real): (r: real)
    ensures r != 0.0
  {
    MetersPerDegree * m.cosDeg(latitude)
  }

  /** Length of the leg ending at index i (i >= 1). */
  function Leg(m: Runtime, points: seq<LatLng>, i: int): real
    requires 0 < i < |points|
  {
    m.haversine(points[i - 1], points[i])
  }

  /**
   * calculatePathDistance: the plain sum of the haversine legs of the first
   * n points (the whole path for n = |points|).
   */
  function SumOfLegs(m: Runtime, points: seq<LatLng>, n: int): (r: real)
    requires 0 <= n <= |points|
    ensures r >= 0.0
    ensures n <= 1 ==> r == 0.0
    decreases n
  {
    if n <= 1 then 0.0 else SumOfLegs(m, points, n - 1) + Leg(m, points, n - 1)
  }

  function PathDistance(m: Runtime, points: seq<LatLng>): (r: real)
    ensures r >= 0.0
    ensures |points| < 2 ==> r == 0.0
  {
    SumOfLegs(m, points, |points|)
  }

  /** calculatePathDistance with its accumulation loop. */
  method CalculatePathDistance(m: Runtime, points: seq<LatLng>) returns (totalDistance: real)
    ensures totalDistance == PathDistance(m, points)
  {
    if |points| < 2 {
      return 0.0;
    }
    totalDistance := 0.0;
    for i := 1 to |points|
      invariant totalDistance == SumOfLegs(m, points, i)
    {
      totalDistance := totalDistance + m.haversine(points[i - 1], points[i]);
    }
  }

  /** The distance of a path only depends on its prefix legs: extending adds one leg. */
  lemma PathDistanceSnoc(m: Runtime, points: seq<LatLng>, p: LatLng)
    requires |points| > 0
    ensures PathDistance(m, points + [p])
         == PathDistance(m, points) + m.haversine(points[|points| - 1], p)
  {
    SumOfLegsPrefix(m, points, points + [p], |points|);
  }

  lemma {:induction false} SumOfLegsPrefix(m: Runtime, a: seq<LatLng>, b: seq<LatLng>, n: int)
    requires 0 <= n <= |a| <= |b| && a[..n] == b[..n]
    ensures SumOfLegs(m, a, n) == SumOfLegs(m, b, n)
    decreases n
  {
    if n > 1 {
      assert a[n - 2] == a[..n][n - 2] && b[n - 2] == b[..n][n - 2];
      assert a[n - 1] == a[..n][n - 1] && b[n - 1] == b[..n][n - 1];
      assert a[..n - 1] == a[..n][..n - 1] && b[..n - 1] == b[..n][..n - 1];
      SumOfLegsPrefix(m, a, b, n - 1);
    }
  }

  /** A path whose points are all the same place has distance 0. */
  lemma {:induction false} ConstantPathHasZeroDistance(m: Runtime, points: seq<LatLng>, n: int)
    requires 0 <= n <= |points|
    requires forall i :: 0 <= i < |points| ==> points[i] == points[0]
    ensures SumOfLegs(m, points, n) == 0.0
    decreases n
  {
    if n > 1 {
      ConstantPathHasZeroDistance(m, points, n - 1);
      assert points[n - 2] == points[n - 1];
    }
  }
}
