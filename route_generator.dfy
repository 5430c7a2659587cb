// src/lib/routing/routeGenerator.ts: the route generation pipeline
// (projection, road snapping, distance optimisation, final metrics), the
// pre-flight input validation and the generation-time estimate.

module RouteGenerator {
  import opened Types
  import opened Seqs
  import opened Distance
  import opened DirectionsApi
  import opened RouteSnapper
  import opened DistanceOptimizer
  import opened Segmentation
  import Projection = PathToGeo

  // ---------------------------------------------------------------------
  // generateRoute
  // ---------------------------------------------------------------------

  /**
   * RouteGenerationOptions with its defaults applied. gridMode and
   * blockSize are handed to pathToGeo, which never reads them.
   */
  datatype GenerationOptions = GenerationOptions(targetDistance: real, numSegments: int, maxWaypointsPerSegment: int,
                                                 optimizeDistance: bool, distanceTolerance: real,
                                                 gridMode: bool, blockSize: real)

  /** The options of a call that gives only the target: 5 chunks, 8 waypoints, optimisation at 15 %. */
  function DefaultGenerationOptions(targetDistance: real): GenerationOptions
  {
    GenerationOptions(targetDistance, 5, 8, true, 0.15, false, 100.0)
  }

  /** GeneratedRoute: the drawing, its projection, the final route and its metrics. */
  datatype GeneratedRoute = GeneratedRoute(idealPath: seq<Point2D>, geoPath: seq<LatLng>, snappedRoute: seq<LatLng>,
                                           distance: real, targetDistance: real, accuracy: real)

  const GenerateFailedPrefix: string := "Failed to generate route: "

  /** How a template string shows a thrown Error: its name, a colon and a space, then its message. */
  const ErrorName: string := "Error: "

  /** The projection is asked for the target length, with no rotation and no scale override. */
  function ProjectionOptions(options: GenerationOptions): Projection.PathToGeoOptions
  {
    Projection.PathToGeoOptions(Some(options.targetDistance), None, None)
  }

  /** Snapping always travels by bicycle. */
  function SnappingOptions(options: GenerationOptions): SnapOptions
  {
    SnapOptions(options.numSegments, options.maxWaypointsPerSegment, Bicycling)
  }

  /** Optimisation always allows three loops. */
  function OptimizingOptions(options: GenerationOptions): OptimizeOptions
  {
    OptimizeOptions(options.distanceTolerance, 3)
  }

  /** p percent of span. */
  function Percent(p: real, span: real): real
  {
    (p / 100.0) * span
  }

  /** A sub-step's report p (0 to 100) as an overall report: base + (p / 100) * span. */
  function Rescaled(reports: seq<real>, base: real, span: real): (r: seq<real>)
    ensures |r| == |reports|
  {
    seq(|reports|, i requires 0 <= i < |reports| => base + Percent(reports[i], span))
  }

  /** accuracy: the final distance as a percentage of the target, 100 for a target that is not positive. */
  function Accuracy(finalDistance: real, targetDistance: real): real
  {
    if targetDistance > 0.0 then (finalDistance / targetDistance) * 100.0 else 100.0
  }

  /** With a positive target, accuracy times the target is a hundred times the distance. */
  lemma AccuracyScales(accuracy: real, finalDistance: real, targetDistance: real)
    requires targetDistance > 0.0 && accuracy == Accuracy(finalDistance, targetDistance)
    ensures accuracy * targetDistance == finalDistance * 100.0
  {
    var q := finalDistance / targetDistance;
    assert q * targetDistance == finalDistance;
    calc {
      accuracy * targetDistance;
      (q * 100.0) * targetDistance;
      (q * targetDistance) * 100.0;
    }
  }

  /** The calls, pauses and reports of a generateRoute call, and what it returns or throws. */
  datatype Generation = Generation(sent: seq<DirectionsRequest>, waits: seq<int>, progress: seq<real>,
                                   outcome: Result<GeneratedRoute>)

  /**
   * generateRoute after the road path snapped is known, with the
   * optimiser's calls numbered from start: optimisation when enabled, then
   * the final distance and accuracy. The reports are 85, the optimiser's
   * mapped into 85 to 95, 98 and 100.
   */
  function FinishSpec(m: Runtime, answer: Answers, start: nat, normalizedPath: seq<Point2D>, geoPath: seq<LatLng>,
                      snapped: seq<LatLng>, options: GenerationOptions): Generation
  {
    var opt := if options.optimizeDistance then
                 OptimizeSpec(m, answer, start, snapped, PathDistance(m, snapped), options.targetDistance,
                              OptimizingOptions(options))
               else Optimized(snapped, [], [], []);
    Generation(opt.sent, opt.waits, [85.0] + Rescaled(opt.progress, 85.0, 10.0) + [98.0, 100.0],
               Success(Measured(m, normalizedPath, geoPath, opt.route, options.targetDistance)))
  }

  /** The route generateRoute returns for a final route: its distance and accuracy measured. */
  function Measured(m: Runtime, normalizedPath: seq<Point2D>, geoPath: seq<LatLng>, finalRoute: seq<LatLng>,
                    targetDistance: real): GeneratedRoute
  {
    var finalDistance := PathDistance(m, finalRoute);
    GeneratedRoute(normalizedPath, geoPath, finalRoute, finalDistance, targetDistance,
                   Accuracy(finalDistance, targetDistance))
  }

  /** The measured distance is the route's length, and the accuracy its share of the target. */
  lemma MeasuredShape(m: Runtime, normalizedPath: seq<Point2D>, geoPath: seq<LatLng>, finalRoute: seq<LatLng>,
                      targetDistance: real)
    ensures var r := Measured(m, normalizedPath, geoPath, finalRoute, targetDistance);
            && r.snappedRoute == finalRoute && r.distance == PathDistance(m, finalRoute) && r.distance >= 0.0
            && (targetDistance > 0.0 ==> r.accuracy * targetDistance == r.distance * 100.0)
            && (targetDistance <= 0.0 ==> r.accuracy == 100.0)
  {
    var r := Measured(m, normalizedPath, geoPath, finalRoute, targetDistance);
    if targetDistance > 0.0 {
      AccuracyScales(r.accuracy, r.distance, targetDistance);
    }
  }

  /**
   * What generateRoute does after a snapping run whose provider calls were
   * numbered up to start: the rest of the pipeline for a returned route;
   * nothing after a throw.
   */
  function FinishAfter(m: Runtime, answer: Answers, start: nat, normalizedPath: seq<Point2D>, geoPath: seq<LatLng>,
                       snapped: Result<seq<LatLng>>, options: GenerationOptions): Generation
  {
    match snapped
    case Failure(e) => Generation([], [], [], Failure(e))
    case Success(route) => FinishSpec(m, answer, start, normalizedPath, geoPath, route, options)
  }

  /**
   * generateRoute once snapping has returned or thrown, finish being what
   * the rest of the pipeline does for a returned route: a throw is
   * rethrown with the generation prefix after the reports made so far;
   * otherwise finish follows. The reports start with 5 and 10 and
   * snapping's reports mapped into 10 to 80.
   */
  function AfterSnapSpec(snapped: Result<seq<LatLng>>, snapProgress: seq<real>, finish: Generation): Generation
  {
    var head := [5.0, 10.0] + Rescaled(snapProgress, 10.0, 70.0);
    match snapped
    case Failure(e) => Generation([], [], head, Failure(GenerateFailedPrefix + ErrorName + e))
    case Success(_) => Generation(finish.sent, finish.waits, head + finish.progress, finish.outcome)
  }

  /**
   * generateRoute once the projection has been snapped, snap being what
   * snapToRoads did and finish what follows it: snapping's calls come
   * first, and the rest follows snapping's outcome.
   */
  function GenerateFrom(snap: RouteSnap, finish: Generation): Generation
  {
    var after := AfterSnapSpec(snap.outcome, snap.progress, finish);
    Generation(snap.sent + after.sent, snap.waits + after.waits, after.progress, after.outcome)
  }

  /** Reports within [lo, hi] that never decrease, mapped with a non-negative span, stay ordered within the mapped bounds. */
  lemma RescaledBounds(reports: seq<real>, base: real, span: real, lo: real, hi: real)
    requires span >= 0.0 && NonDecreasing(reports)
    requires forall i :: 0 <= i < |reports| ==> lo <= reports[i] <= hi
    ensures var r := Rescaled(reports, base, span);
            && NonDecreasing(r)
            && forall i :: 0 <= i < |r| ==> base + Percent(lo, span) <= r[i] <= base + Percent(hi, span)
  {
    var r := Rescaled(reports, base, span);
    forall i, j | 0 <= i <= j < |r| ensures r[i] <= r[j]
    {
      PercentMonotone(reports[i], reports[j], span);
    }
    forall i | 0 <= i < |r| ensures base + Percent(lo, span) <= r[i] <= base + Percent(hi, span)
    {
      PercentMonotone(lo, reports[i], span);
      PercentMonotone(reports[i], hi, span);
    }
  }

  /** A percentage of a non-negative span grows with the percentage. */
  lemma PercentMonotone(a: real, b: real, span: real)
    requires a <= b && span >= 0.0
    ensures Percent(a, span) <= Percent(b, span)
  {
    var d := b / 100.0 - a / 100.0;
    assert d >= 0.0;
    assert d * span >= 0.0;
    assert d * span == (b / 100.0) * span - (a / 100.0) * span;
  }

  /** Two ordered runs of reports separated by a bound make one ordered run. */
  lemma OrderedJoin(a: seq<real>, b: seq<real>, bound: real)
    requires NonDecreasing(a) && NonDecreasing(b)
    requires forall i :: 0 <= i < |a| ==> a[i] <= bound
    requires forall j :: 0 <= j < |b| ==> bound <= b[j]
    ensures NonDecreasing(a + b)
  {
    var c := a + b;
    forall i, j | 0 <= i <= j < |c| ensures c[i] <= c[j]
    {
      if j < |a| {
        assert c[i] == a[i] && c[j] == a[j];
      } else if i >= |a| {
        assert c[i] == b[i - |a|] && c[j] == b[j - |a|];
      } else {
        assert c[i] == a[i] && c[j] == b[j - |a|];
      }
    }
  }

  /** The reports of snapToRoads lie between 10 and 95 and never decrease. */
  lemma SnapReportsBounded(m: Runtime, answer: Answers, start: nat, idealPath: seq<LatLng>, options: SnapOptions)
    ensures var p := SnapRoute(m, answer, start, idealPath, options).progress;
            NonDecreasing(p) && forall i :: 0 <= i < |p| ==> 10.0 <= p[i] <= 95.0
  {
    SnapRouteProgress(m, answer, start, idealPath, options);
    var r := SnapRoute(m, answer, start, idealPath, options);
    if |idealPath| >= 2 {
      var count := |DivideIntoSegments(idealPath, options.numSegments)|;
      RouteProgressShape(count, r.outcome.Success?);
      var p := r.progress;
      forall i | 0 <= i < |p| ensures 10.0 <= p[i] <= 95.0
      {
        assert p[0] <= p[i] <= p[|p| - 1];
      }
    }
  }

  /** The reports of the rest of the pipeline, 85 first, ordered up to a final 100. */
  ghost predicate FinishReports(p: seq<real>)
  {
    && NonDecreasing(p) && |p| >= 3 && p[0] == 85.0 && Last(p) == 100.0
    && forall i :: 0 <= i < |p| ==> 85.0 <= p[i] <= 100.0
  }

  /** The reports after snapping run 85, 85 to 95, 98, 100 in order. */
  lemma FinishProgress(m: Runtime, answer: Answers, start: nat, normalizedPath: seq<Point2D>, geoPath: seq<LatLng>,
                       snapped: seq<LatLng>, options: GenerationOptions)
    ensures FinishReports(FinishSpec(m, answer, start, normalizedPath, geoPath, snapped, options).progress)
  {
    var opt := if options.optimizeDistance then
                 OptimizeSpec(m, answer, start, snapped, PathDistance(m, snapped), options.targetDistance,
                              OptimizingOptions(options))
               else Optimized(snapped, [], [], []);
    if options.optimizeDistance {
      OptimizeProgress(m, answer, start, snapped, PathDistance(m, snapped), options.targetDistance,
                       OptimizingOptions(options));
    }
    var mapped := Rescaled(opt.progress, 85.0, 10.0);
    RescaledBounds(opt.progress, 85.0, 10.0, 0.0, 100.0);
    OrderedJoin([85.0], mapped, 85.0);
    OrderedJoin([85.0] + mapped, [98.0, 100.0], 95.0);
    assert FinishSpec(m, answer, start, normalizedPath, geoPath, snapped, options).progress
           == ([85.0] + mapped) + [98.0, 100.0];
  }

  /** 5 and 10 followed by snapping's reports mapped into 10 to 80: ordered, within 5 and 80. */
  lemma HeadReports(snapProgress: seq<real>)
    requires NonDecreasing(snapProgress) && forall i :: 0 <= i < |snapProgress| ==> 10.0 <= snapProgress[i] <= 95.0
    ensures var head := [5.0, 10.0] + Rescaled(snapProgress, 10.0, 70.0);
            && NonDecreasing(head) && head[0] == 5.0 && head[1] == 10.0
            && forall i :: 0 <= i < |head| ==> 5.0 <= head[i] <= 80.0
  {
    var mapped := Rescaled(snapProgress, 10.0, 70.0);
    RescaledBounds(snapProgress, 10.0, 70.0, 10.0, 95.0);
    OrderedJoin([5.0, 10.0], mapped, 10.0);
    var head := [5.0, 10.0] + mapped;
    forall i | 0 <= i < |head| ensures 5.0 <= head[i] <= 80.0
    {
      if i >= 2 {
        assert head[i] == mapped[i - 2];
      }
    }
  }

  /** Reports up to 80 followed by reports from 85 to a final 100: ordered, ending with 100. */
  lemma JoinReports(head: seq<real>, rest: seq<real>)
    requires NonDecreasing(head) && forall i :: 0 <= i < |head| ==> 5.0 <= head[i] <= 80.0
    requires NonDecreasing(rest) && |rest| > 0 && Last(rest) == 100.0
    requires forall i :: 0 <= i < |rest| ==> 85.0 <= rest[i] <= 100.0
    ensures var p := head + rest;
            && NonDecreasing(p) && Last(p) == 100.0 && forall i :: 0 <= i < |p| ==> 5.0 <= p[i] <= 100.0
  {
    OrderedJoin(head, rest, 85.0);
    var p := head + rest;
    assert Last(p) == Last(rest);
    forall i | 0 <= i < |p| ensures 5.0 <= p[i] <= 100.0
    {
      if i >= |head| {
        assert p[i] == rest[i - |head|];
      }
    }
  }

  /**
   * The reports of generateRoute never decrease and start with 5 and 10; a
   * run whose snapping returns ends with 100, and one whose snapping throws
   * never reports more than 80. This holds whenever snapping's own reports are ordered within
   * 10 to 95, as SnapReportsBounded shows they are, and the rest of the
   * pipeline reports as FinishProgress shows it does.
   */
  lemma GenerateProgress(snap: RouteSnap, finish: Generation)
    requires NonDecreasing(snap.progress) && forall i :: 0 <= i < |snap.progress| ==> 10.0 <= snap.progress[i] <= 95.0
    requires snap.outcome.Success? ==> FinishReports(finish.progress)
    ensures var g := GenerateFrom(snap, finish);
            && NonDecreasing(g.progress) && |g.progress| >= 2 && g.progress[0] == 5.0 && g.progress[1] == 10.0
            && (forall i :: 0 <= i < |g.progress| ==> 5.0 <= g.progress[i] <= 100.0)
            && (snap.outcome.Success? ==> Last(g.progress) == 100.0)
            && (snap.outcome.Failure? ==> forall i :: 0 <= i < |g.progress| ==> g.progress[i] <= 80.0)
  {
    HeadReports(snap.progress);
    if snap.outcome.Success? {
      JoinReports([5.0, 10.0] + Rescaled(snap.progress, 10.0, 70.0), finish.progress);
    }
  }

  /**
   * What generateRoute returns after snapping: the drawing, the projection
   * and the target echoed, and a final route that keeps every point of the
   * snapped route in order, with its length and accuracy. With
   * optimisation off it is the snapped route and no call is made.
   */
  lemma FinishOutcome(m: Runtime, answer: Answers, start: nat, normalizedPath: seq<Point2D>, geoPath: seq<LatLng>,
                      snapped: seq<LatLng>, options: GenerationOptions)
    ensures var g := FinishSpec(m, answer, start, normalizedPath, geoPath, snapped, options);
            && g.outcome.Success?
            && var r := g.outcome.value;
            && r.idealPath == normalizedPath && r.geoPath == geoPath && r.targetDistance == options.targetDistance
            && IsSubsequence(snapped, r.snappedRoute)
            && r.distance == PathDistance(m, r.snappedRoute) && r.distance >= 0.0
            && (options.targetDistance > 0.0 ==> r.accuracy * options.targetDistance == r.distance * 100.0)
            && (options.targetDistance <= 0.0 ==> r.accuracy == 100.0)
            && (!options.optimizeDistance ==> r.snappedRoute == snapped && g.sent == [] && g.waits == [])
  {
    FinishKeepsRoute(m, answer, start, normalizedPath, geoPath, snapped, options);
    FinishMeasures(m, answer, start, normalizedPath, geoPath, snapped, options);
  }

  /** The final route keeps every point of the snapped route in order; without optimisation it is that route. */
  lemma FinishKeepsRoute(m: Runtime, answer: Answers, start: nat, normalizedPath: seq<Point2D>, geoPath: seq<LatLng>,
                         snapped: seq<LatLng>, options: GenerationOptions)
    ensures var g := FinishSpec(m, answer, start, normalizedPath, geoPath, snapped, options);
            && g.outcome.Success? && IsSubsequence(snapped, g.outcome.value.snappedRoute)
            && (!options.optimizeDistance ==> g.outcome.value.snappedRoute == snapped && g.sent == [] && g.waits == [])
  {
    if options.optimizeDistance {
      OptimizeKeepsFittingRoute(m, answer, start, snapped, PathDistance(m, snapped),
                                options.targetDistance, OptimizingOptions(options));
    } else {
      SubsequenceRefl(snapped);
    }
  }

  /** The reported distance is the final route's length, and the accuracy is its share of the target. */
  lemma FinishMeasures(m: Runtime, answer: Answers, start: nat, normalizedPath: seq<Point2D>, geoPath: seq<LatLng>,
                       snapped: seq<LatLng>, options: GenerationOptions)
    ensures var r := FinishSpec(m, answer, start, normalizedPath, geoPath, snapped, options).outcome.value;
            && r.distance == PathDistance(m, r.snappedRoute) && r.distance >= 0.0
            && (options.targetDistance > 0.0 ==> r.accuracy * options.targetDistance == r.distance * 100.0)
            && (options.targetDistance <= 0.0 ==> r.accuracy == 100.0)
  {
    var g := FinishSpec(m, answer, start, normalizedPath, geoPath, snapped, options);
    var finalRoute := g.outcome.value.snappedRoute;
    assert g.outcome.value == Measured(m, normalizedPath, geoPath, finalRoute, options.targetDistance);
    MeasuredShape(m, normalizedPath, geoPath, finalRoute, options.targetDistance);
  }

  /**
   * What generateRoute returns or throws once snapping has run: it returns
   * exactly when snapping returns, and then gives what the rest of the
   * pipeline gives, after snapping's calls; a throw of snapping is
   * rethrown with the generation prefix and no other call. Snapping's
   * calls come first.
   */
  lemma GenerateOutcome(snap: RouteSnap, finish: Generation)
    ensures var g := GenerateFrom(snap, finish);
            && (g.outcome.Success? <==> snap.outcome.Success? && finish.outcome.Success?)
            && (snap.outcome.Failure? ==>
                  g.outcome.error == GenerateFailedPrefix + ErrorName + snap.outcome.error && g.sent == snap.sent)
            && (snap.outcome.Success? ==> g.outcome == finish.outcome && g.sent == snap.sent + finish.sent)
            && |snap.sent| <= |g.sent| && g.sent[..|snap.sent|] == snap.sent
  {
    var after := AfterSnapSpec(snap.outcome, snap.progress, finish);
    if snap.outcome.Failure? {
      assert after.sent == [];
    }
    PrefixOfAppend(snap.sent, after.sent, |snap.sent|);
  }

  /** After a returned snapping run the rest of the pipeline always returns; after a throw it makes no call. */
  lemma FinishAfterReturns(m: Runtime, answer: Answers, start: nat, normalizedPath: seq<Point2D>, geoPath: seq<LatLng>,
                           snapped: Result<seq<LatLng>>, options: GenerationOptions)
    ensures var f := FinishAfter(m, answer, start, normalizedPath, geoPath, snapped, options);
            && (f.outcome.Success? <==> snapped.Success?)
            && (snapped.Failure? ==> f.sent == [] && f.progress == [])
            && (snapped.Success? ==> FinishReports(f.progress))
  {
    if snapped.Success? {
      FinishKeepsRoute(m, answer, start, normalizedPath, geoPath, snapped.value, options);
      FinishProgress(m, answer, start, normalizedPath, geoPath, snapped.value, options);
    }
  }

  /** generateRoute after snapping: optimise when asked, then measure. */
  method FinishRoute(m: Runtime, service: DirectionsService, normalizedPath: seq<Point2D>, geoPath: seq<LatLng>,
                     snapped: seq<LatLng>, options: GenerationOptions)
    returns (r: GeneratedRoute, progress: seq<real>, ghost g: Generation)
    modifies service
    ensures g == FinishSpec(m, service.answer, |old(service.sent)|, normalizedPath, geoPath, snapped, options)
    ensures Success(r) == g.outcome && progress == g.progress
            && service.sent == old(service.sent) + g.sent && service.waits == old(service.waits) + g.waits
  {
    ghost var start := |service.sent|;
    progress := [85.0];
    var finalRoute := snapped;
    if options.optimizeDistance {
      var optProgress;
      finalRoute, optProgress := OptimizeDistance(m, service, snapped, options.targetDistance, OptimizingOptions(options));
      progress := progress + Rescaled(optProgress, 85.0, 10.0);
    } else {
      assert progress + Rescaled([], 85.0, 10.0) == progress;
    }
    progress := progress + [98.0];
    var finalDistance := PathDistance(m, finalRoute);
    var accuracy := Accuracy(finalDistance, options.targetDistance);
    progress := progress + [100.0];
    r := GeneratedRoute(normalizedPath, geoPath, finalRoute, finalDistance, options.targetDistance, accuracy);
    assert r == Measured(m, normalizedPath, geoPath, finalRoute, options.targetDistance);
    g := FinishSpec(m, service.answer, start, normalizedPath, geoPath, snapped, options);
  }

  /**
   * generateRoute from snapping's outcome on, snap being the run of
   * snapToRoads that gave it and start the number of provider calls made
   * before that run: the rest of the pipeline numbers its calls on from
   * snapping's.
   */
  method AfterSnap(m: Runtime, service: DirectionsService, normalizedPath: seq<Point2D>,
                   geoPath: seq<LatLng>, snapped: Result<seq<LatLng>>, snapProgress: seq<real>, options: GenerationOptions,
                   ghost start: nat, ghost snap: RouteSnap)
    returns (r: Result<GeneratedRoute>, progress: seq<real>, ghost finish: Generation)
    requires snapped == snap.outcome && snapProgress == snap.progress && |service.sent| == start + |snap.sent|
    modifies service
    ensures finish == FinishAfter(m, service.answer, start + |snap.sent|, normalizedPath, geoPath, snap.outcome, options)
    ensures Follows(AfterSnapSpec(snap.outcome, snap.progress, finish),
                    r, progress, old(service.sent), service.sent, old(service.waits), service.waits)
  {
    progress := [5.0, 10.0] + Rescaled(snapProgress, 10.0, 70.0);
    if snapped.Failure? {
      finish := Generation([], [], [], Failure(snapped.error));
      r := Failure(GenerateFailedPrefix + ErrorName + snapped.error);
      AfterSnapParts(snap.outcome, snap.progress, finish);
      assert service.sent == old(service.sent) + [] && service.waits == old(service.waits) + [];
    } else {
      ghost var at := |service.sent|;
      var route, rest;
      route, rest, finish := FinishRoute(m, service, normalizedPath, geoPath, snapped.value, options);
      FinishAfterSuccess(m, service.answer, at, start + |snap.sent|, normalizedPath, geoPath, snap.outcome, options);
      AfterSnapParts(snap.outcome, snap.progress, finish);
      progress := progress + rest;
      r := Success(route);
    }
  }

  /** AfterSnapSpec written out for each of snapping's two outcomes. */
  lemma AfterSnapParts(snapped: Result<seq<LatLng>>, snapProgress: seq<real>, finish: Generation)
    ensures var head := [5.0, 10.0] + Rescaled(snapProgress, 10.0, 70.0);
            AfterSnapSpec(snapped, snapProgress, finish)
            == if snapped.Failure? then Generation([], [], head, Failure(GenerateFailedPrefix + ErrorName + snapped.error))
               else Generation(finish.sent, finish.waits, head + finish.progress, finish.outcome)
  {
  }

  lemma FinishAfterSuccess(m: Runtime, answer: Answers, at: nat, start: nat, normalizedPath: seq<Point2D>,
                           geoPath: seq<LatLng>, snapped: Result<seq<LatLng>>, options: GenerationOptions)
    requires snapped.Success? && at == start
    ensures FinishAfter(m, answer, start, normalizedPath, geoPath, snapped, options)
            == FinishSpec(m, answer, at, normalizedPath, geoPath, snapped.value, options)
  {
  }

  /**
   * r, the reports and the provider's logs are those g describes: g's
   * calls and pauses appended to what the logs held before.
   */
  ghost predicate Follows(g: Generation, r: Result<GeneratedRoute>, progress: seq<real>,
                          sent0: seq<DirectionsRequest>, sent: seq<DirectionsRequest>, waits0: seq<int>, waits: seq<int>)
  {
    r == g.outcome && progress == g.progress && sent == sent0 + g.sent && waits == waits0 + g.waits
  }

  /**
   * generateRoute once the drawing is projected: snap is the run of
   * snapToRoads by bicycle, with the provider's calls numbered on from
   * those already made, and finish what the rest of the pipeline does
   * after it, with its calls numbered on from snapping's.
   */
  method SnapAndFinish(m: Runtime, service: DirectionsService, normalizedPath: seq<Point2D>, geoPath: seq<LatLng>,
                       options: GenerationOptions)
    returns (r: Result<GeneratedRoute>, progress: seq<real>, ghost snap: RouteSnap, ghost finish: Generation)
    modifies service
    ensures snap == SnapRoute(m, service.answer, |old(service.sent)|, geoPath, SnappingOptions(options))
    ensures finish == FinishAfter(m, service.answer, |old(service.sent)| + |snap.sent|, normalizedPath, geoPath,
                                  snap.outcome, options)
    ensures Follows(GenerateFrom(snap, finish), r, progress, old(service.sent), service.sent, old(service.waits),
                    service.waits)
  {
    ghost var sent0, waits0 := service.sent, service.waits;
    var snapped, snapProgress := SnapToRoads(m, service, geoPath, SnappingOptions(options));
    snap := SnapRoute(m, service.answer, |sent0|, geoPath, SnappingOptions(options));
    ghost var sent1, waits1 := service.sent, service.waits;
    r, progress, finish := AfterSnap(m, service, normalizedPath, geoPath, snapped, snapProgress, options, |sent0|, snap);
    FollowsJoin(snap, finish, r, progress, sent0, sent1, service.sent, waits0, waits1, service.waits);
  }

  /** Snapping's calls and pauses followed by those of the rest make generateRoute's. */
  lemma FollowsJoin(snap: RouteSnap, finish: Generation, r: Result<GeneratedRoute>, progress: seq<real>,
                    sent0: seq<DirectionsRequest>, sent1: seq<DirectionsRequest>, sent2: seq<DirectionsRequest>,
                    waits0: seq<int>, waits1: seq<int>, waits2: seq<int>)
    requires sent1 == sent0 + snap.sent && waits1 == waits0 + snap.waits
    requires Follows(AfterSnapSpec(snap.outcome, snap.progress, finish), r, progress, sent1, sent2, waits1, waits2)
    ensures Follows(GenerateFrom(snap, finish), r, progress, sent0, sent2, waits0, waits2)
  {
    var after := AfterSnapSpec(snap.outcome, snap.progress, finish);
    LogAppend(sent0, sent1, snap.sent, after.sent);
    LogAppend(waits0, waits1, snap.waits, after.waits);
  }

  /**
   * generateRoute; the reports are returned alongside the outcome. The
   * drawing is projected, the projection snapped by bicycle with
   * the provider's calls numbered on from those already made (snap), and
   * the rest of the pipeline follows snapping's outcome (finish).
   */
  method GenerateRoute(m: Runtime, service: DirectionsService, normalizedPath: seq<Point2D>, center: LatLng,
                       options: GenerationOptions)
    returns (r: Result<GeneratedRoute>, progress: seq<real>, ghost snap: RouteSnap, ghost finish: Generation)
    modifies service
    ensures var geoPath := Projection.PathToGeo(m, normalizedPath, center, ProjectionOptions(options));
            && snap == SnapRoute(m, service.answer, |old(service.sent)|, geoPath, SnappingOptions(options))
            && finish == FinishAfter(m, service.answer, |old(service.sent)| + |snap.sent|, normalizedPath, geoPath,
                                     snap.outcome, options)
    ensures Follows(GenerateFrom(snap, finish), r, progress, old(service.sent), service.sent, old(service.waits),
                    service.waits)
  {
    var geoPath := Projection.PathToGeo(m, normalizedPath, center, ProjectionOptions(options));
    r, progress, snap, finish := SnapAndFinish(m, service, normalizedPath, geoPath, options);
  }

  // ---------------------------------------------------------------------
  // validateRouteInputs
  // ---------------------------------------------------------------------

  /** The result of validateRouteInputs: error is absent exactly when the inputs are accepted. */
  datatype Validation = Validation(valid: bool, error: Option<string>)

  const NoPathMessage: string := "No path data. Please enter text or select a shape."
  const ShortPathMessage: string := "Path must have at least 2 points."
  const NoLocationMessage: string := "Location not available. Please select a location on the map or enable GPS."
  const TooNearMessage: string := "Target distance must be at least 500 meters (0.5 km)."
  const TooFarMessage: string := "Target distance must be less than 100 km."

  /** The shortest and the longest target accepted, in metres. */
  const MinTargetDistance: real := 500.0
  const MaxTargetDistance: real := 100000.0

  /**
   * validateRouteInputs, with a missing path or centre as None: the checks
   * run in the order path, path length, centre, lower and upper bound of
   * the target, and the first that fails gives its message.
   */
  function ValidateRouteInputs(normalizedPath: Option<seq<Point2D>>, routeCenter: Option<LatLng>,
                               targetDistance: real): Validation
  {
    if normalizedPath.None? || |normalizedPath.value| == 0 then Validation(false, Some(NoPathMessage))
    else if |normalizedPath.value| < 2 then Validation(false, Some(ShortPathMessage))
    else if routeCenter.None? then Validation(false, Some(NoLocationMessage))
    else if targetDistance < MinTargetDistance then Validation(false, Some(TooNearMessage))
    else if targetDistance > MaxTargetDistance then Validation(false, Some(TooFarMessage))
    else Validation(true, None)
  }

  /** The inputs generateRoute may be given: a path of two points or more, a centre, and a target in [500, 100000]. */
  predicate Acceptable(normalizedPath: Option<seq<Point2D>>, routeCenter: Option<LatLng>, targetDistance: real)
  {
    && normalizedPath.Some? && |normalizedPath.value| >= 2 && routeCenter.Some?
    && MinTargetDistance <= targetDistance <= MaxTargetDistance
  }

  /**
   * The inputs are accepted exactly when they are acceptable, both bounds
   * included; a message comes exactly with a rejection, and a path that is
   * missing or empty is reported before anything else.
   */
  lemma ValidateAccepts(normalizedPath: Option<seq<Point2D>>, routeCenter: Option<LatLng>, targetDistance: real)
    ensures var v := ValidateRouteInputs(normalizedPath, routeCenter, targetDistance);
            && (v.valid <==> Acceptable(normalizedPath, routeCenter, targetDistance))
            && (v.valid <==> v.error.None?)
            && ((normalizedPath.None? || |normalizedPath.value| == 0) ==> v.error == Some(NoPathMessage))
            && (normalizedPath.Some? && |normalizedPath.value| == 1 ==> v.error == Some(ShortPathMessage))
            && (normalizedPath.Some? && |normalizedPath.value| >= 2 && routeCenter.None? ==>
                  v.error == Some(NoLocationMessage))
            && (normalizedPath.Some? && |normalizedPath.value| >= 2 && routeCenter.Some? ==>
                  (v.error == Some(TooNearMessage) <==> targetDistance < MinTargetDistance)
                  && (v.error == Some(TooFarMessage) <==> targetDistance > MaxTargetDistance))
  {
  }

  // ---------------------------------------------------------------------
  // estimateGenerationTime
  // ---------------------------------------------------------------------

  /** estimateGenerationTime: 5 s, plus 1 s per 10 points, plus 2 s per 10 km, in milliseconds. */
  function EstimateGenerationTime(pathPoints: real, targetDistance: real): real
  {
    5000.0 + (pathPoints / 10.0) * 1000.0 + (targetDistance / 10000.0) * 2000.0
  }

  /**
   * The estimate is 5000 + 100 per point + 0.2 per metre; it grows with
   * both arguments, and is 5000 for an empty drawing and no distance.
   */
  lemma EstimateIsLinear(pathPoints: real, targetDistance: real, morePoints: real, moreDistance: real)
    ensures EstimateGenerationTime(pathPoints, targetDistance) == 5000.0 + 100.0 * pathPoints + 0.2 * targetDistance
    ensures EstimateGenerationTime(0.0, 0.0) == 5000.0
    ensures pathPoints <= morePoints && targetDistance <= moreDistance ==>
              EstimateGenerationTime(pathPoints, targetDistance) <= EstimateGenerationTime(morePoints, moreDistance)
  {
  }
}
