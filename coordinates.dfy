// src/lib/utils/coordinates.ts: conversion between metre offsets and degree
// offsets around a centre, and range handling of latitudes and longitudes.

module Coordinates {
  import opened Types
  import opened Distance

  /**
   * metersToLatLngOffset: x (east-west metres) becomes a longitude offset,
   * y (north-south metres) a latitude offset.
   */
  function MetersToLatLngOffset(m: Runtime, center: LatLng, offsetMeters: Point2D): Point2D
  {
    Point2D(offsetMeters.x / MetersPerDegreeLng(m, center.lat), offsetMeters.y / MetersPerDegree)
  }

  /** latLngOffsetToMeters: the converse conversion. */
  function LatLngOffsetToMeters(m: Runtime, center: LatLng, offsetDegrees: Point2D): Point2D
  {
    Point2D(offsetDegrees.x * MetersPerDegreeLng(m, center.lat), offsetDegrees.y * MetersPerDegree)
  }

  /** The two conversions undo each other at the same centre, in both orders. */
  lemma OffsetRoundTrip(m: Runtime, center: LatLng, p: Point2D)
    ensures LatLngOffsetToMeters(m, center, MetersToLatLngOffset(m, center, p)) == p
    ensures MetersToLatLngOffset(m, center, LatLngOffsetToMeters(m, center, p)) == p
  {
    var k := MetersPerDegreeLng(m, center.lat);
    DivideMultiply(p.x, k);
    DivideMultiply(p.y, MetersPerDegree);
  }

  lemma DivideMultiply(x: real, k: real)
    requires k != 0.0
    ensures x / k * k == x && x * k / k == x
  {
  }

  /**
   * The offset convention: one degree of latitude is 111320 m northwards,
   * one degree of longitude is metersPerDegreeLng(center.lat) m eastwards.
   */
  lemma OffsetConvention(m: Runtime, center: LatLng)
    ensures MetersToLatLngOffset(m, center, Point2D(0.0, MetersPerDegree)) == Point2D(0.0, 1.0)
    ensures MetersToLatLngOffset(m, center, Point2D(MetersPerDegreeLng(m, center.lat), 0.0)) == Point2D(1.0, 0.0)
  {
    DivideMultiply(1.0, MetersPerDegreeLng(m, center.lat));
  }

  /** addOffset: the offset's y is added to the latitude, its x to the longitude. */
  function AddOffset(point: LatLng, offset: Point2D): LatLng
  {
    LatLng(point.lat + offset.y, point.lng + offset.x)
  }

  /** Adding an offset and then its opposite gives the point back; (0, 0) changes nothing. */
  lemma AddOffsetInverse(point: LatLng, offset: Point2D)
    ensures AddOffset(AddOffset(point, offset), Point2D(-offset.x, -offset.y)) == point
    ensures AddOffset(point, Point2D(0.0, 0.0)) == point
  {
  }

  /** clampLatitude: Math.max(-90, Math.min(90, lat)). */
  function ClampLatitude(lat: real): (r: real)
    ensures -90.0 <= r <= 90.0
    ensures -90.0 <= lat <= 90.0 ==> r == lat
    ensures lat > 90.0 ==> r == 90.0
    ensures lat < -90.0 ==> r == -90.0
  {
    Max(-90.0, Min(90.0, lat))
  }

  lemma ClampIdempotent(lat: real)
    ensures ClampLatitude(ClampLatitude(lat)) == ClampLatitude(lat)
  {
  }

  /** The first loop of normalizeLongitude: subtract 360 while above 180. */
  function WrapDown(lng: real): (r: real)
    ensures r <= 180.0
    ensures lng <= 180.0 ==> r == lng
    ensures lng > 180.0 ==> r > -180.0
    decreases lng.Floor
  {
    if lng > 180.0 then WrapDown(lng - 360.0) else lng
  }

  /** The second loop: add 360 while below -180. */
  function WrapUp(lng: real): (r: real)
    ensures r >= -180.0
    ensures lng >= -180.0 ==> r == lng
    ensures lng < -180.0 ==> r < 180.0
    decreases (-lng).Floor
  {
    if lng < -180.0 then WrapUp(lng + 360.0) else lng
  }

  /** normalizeLongitude. */
  function NormalizedLongitude(lng: real): real
  {
    WrapUp(WrapDown(lng))
  }

  /** normalizeLongitude with its two while loops. */
  method NormalizeLongitude(lng0: real) returns (lng: real)
    ensures lng == NormalizedLongitude(lng0)
  {
    lng := lng0;
    while lng > 180.0
      invariant WrapDown(lng) == WrapDown(lng0)
      decreases lng.Floor
    {
      lng := lng - 360.0;
    }
    while lng < -180.0
      invariant WrapUp(lng) == WrapUp(WrapDown(lng0))
      decreases (-lng).Floor
    {
      lng := lng + 360.0;
    }
  }

  lemma {:induction false} WrapDownTurns(lng: real) returns (k: int)
    ensures WrapDown(lng) == lng - 360.0 * k as real && k >= 0
    decreases lng.Floor
  {
    if lng > 180.0 {
      var j := WrapDownTurns(lng - 360.0);
      k := j + 1;
    } else {
      k := 0;
    }
  }

  lemma {:induction false} WrapUpTurns(lng: real) returns (k: int)
    ensures WrapUp(lng) == lng + 360.0 * k as real && k >= 0
    decreases (-lng).Floor
  {
    if lng < -180.0 {
      var j := WrapUpTurns(lng + 360.0);
      k := j + 1;
    } else {
      k := 0;
    }
  }

  /**
   * The normalized longitude lies in [-180, 180], differs from the input by
   * a whole number of turns, and equals the input when that is already in
   * range; normalizing twice changes nothing more.
   */
  lemma NormalizedLongitudeProperties(lng: real) returns (turns: int)
    ensures -180.0 <= NormalizedLongitude(lng) <= 180.0
    ensures NormalizedLongitude(lng) == lng + 360.0 * turns as real
    ensures -180.0 <= lng <= 180.0 ==> NormalizedLongitude(lng) == lng
    ensures NormalizedLongitude(NormalizedLongitude(lng)) == NormalizedLongitude(lng)
  {
    var down := WrapDownTurns(lng);
    var up := WrapUpTurns(WrapDown(lng));
    turns := up - down;
  }

  /** isValidLatLng (NaN cannot occur among reals). */
  predicate IsValidLatLng(point: LatLng)
  {
    -90.0 <= point.lat <= 90.0 && -180.0 <= point.lng <= 180.0
  }

  /** Clamping the latitude and normalizing the longitude always gives a valid point. */
  lemma RepairedIsValid(point: LatLng)
    ensures IsValidLatLng(LatLng(ClampLatitude(point.lat), NormalizedLongitude(point.lng)))
    ensures IsValidLatLng(point) ==> LatLng(ClampLatitude(point.lat), NormalizedLongitude(point.lng)) == point
  {
  }
}
