# Running Painter — a verified model of the route-fitting core

Running Painter turns a word, a digit string or a drawn shape into a running
or cycling route whose GPS trace spells that shape on a map. This project
models, in Dafny, the pipeline that does the work and proves what each
stage promises:

- **Vectorization** (`Normalizer`, `PathSimplifier`, `TextToPath`,
  `AnalogDigits`, `StrokeOptimizer`, `StrokeMerger`): glyph outlines and
  hand-drawn digit strokes are normalised into the unit square, simplified
  (Douglas–Peucker with a tolerance search toward a target point count),
  ordered by a nearest-neighbour tour and merged into one continuous path
  with grid-aligned connectors.
- **Geometry and coordinates** (`Geometry`, `Coordinates`, `Distance`):
  bounds, centroid, shoelace area, translation and scaling; the
  metres-per-degree projection; haversine path length.
- **Projection and grid** (`PathToGeo`, `GridPathGenerator`): the unit path
  is scaled to a target distance, placed around a centre point, and turned
  into a Manhattan path on a street grid whose block size is estimated from
  the map's leg lengths and bearings.
- **Segmentation and snapping** (`Segmentation`, `DirectionsApi`,
  `RouteSnapper`): the ideal path is cut into overlapping chunks, each chunk
  is thinned to the provider's waypoint limit, sent to the directions
  provider with retries and exponential back-off, decoded from the polyline
  format, and the snapped chunks are joined.
- **Distance fitting and generation** (`DistanceOptimizer`,
  `RouteGenerator`): a route that is too short gains up to maxLoops detour
  loops in one pass; a route that is too long is returned as is; and the
  generator drives the whole pipeline with its progress reports.
- **Export and state** (`GoogleMapsUrl`, `GpxGenerator`, `RouteStore`): the
  Google Maps direction URL, the GPX document with XML escaping and file
  name sanitising, and the application store as a class with one field per
  piece of state.

Loops of the source are methods proved against a specification function
(`ensures r == Spec(...)` or a new state stated as a function of the old
one), and the properties the source promises are lemmas
about those functions. Trigonometry, `Math.hypot` and the haversine
formula are the fields of a `Distance.Primitives` value whose `Lawful()`
predicate states the facts the proofs use. The directions provider is a
`DirectionsApi.DirectionsService` object that answers each request from a
fixed table indexed by call number and records the requests it was sent
and the pauses it was asked to wait. Errors thrown by the source are
`Failure` values of `Types.Result` carrying the error's message; where the
source formats a caught error with `${error}`, the model puts the error's
name (`Error: `, `TypeError: `) before it. Progress callbacks are returned
as the sequence of percentages reported.

## Model

| member | source | states |
|---|---|---|
| `Normalizer.BoundsOf` | src/lib/vectorization/normalizer.ts:17-47 | no points give the all-zero box; otherwise width = maxX − minX, height = maxY − minY and the centre is the midpoint of each side |
| `Normalizer.BoundsTight` | src/lib/vectorization/normalizer.ts:25-35 | for a non-empty path every point lies inside the box, each of the four sides is attained by some point, and width and height are non-negative |
| `Normalizer.GetBounds` | src/lib/vectorization/normalizer.ts:17-47 | the min/max accumulation loop computes exactly the box `BoundsOf` describes |
| `Normalizer.NormalizeDegenerate` | src/lib/vectorization/normalizer.ts:58-61 | a path with zero width or zero height maps every point to (0.5, 0.5) |
| `Normalizer.NormalizePreservesAspectRatio` | src/lib/vectorization/normalizer.ts:63-70 | the difference of any two output points is the input difference divided by max(width, height), on both axes, so order and aspect ratio are kept |
| `Normalizer.NormalizeInUnitSquare` | src/lib/vectorization/normalizer.ts:63-70 | a non-degenerate path lands in the unit square |
| `Normalizer.NormalizeWithinUnitSquare` | src/lib/vectorization/normalizer.ts:53-71 | whatever the input, every normalized point has both coordinates in [0, 1] |
| `Normalizer.NormalizeAt` | src/lib/vectorization/normalizer.ts:64-70 | the i-th output point is the i-th input point minus (minX, minY), divided by the longer side |
| `Normalizer.NormalizeTouchesUnitSides` | src/lib/vectorization/normalizer.ts:64-70 | some output point has x = 0, some has y = 0, and the longer side reaches exactly 1 |
| `Normalizer.ScaleNormalizedPathInverse` | src/lib/vectorization/normalizer.ts:76-85 | scaling by non-zero targets is undone by scaling with their reciprocals, so the pointwise scaling keeps length and order |
| `Normalizer.PathLengthZero` | src/lib/vectorization/normalizer.ts:90-101 | the polyline length is 0 exactly when every point equals the first |
| `Normalizer.CalculatePathLength` | src/lib/vectorization/normalizer.ts:90-101 | the accumulation loop returns the sum of the consecutive step lengths (0 below two points, never negative) |
| `PathSimplifier.PerpendicularDistance` | src/lib/vectorization/pathSimplifier.ts:6-28 | the distance is non-negative and, for a zero-length chord, is the distance to lineStart |
| `PathSimplifier.ChordEndsOnLine` | src/lib/vectorization/pathSimplifier.ts:21-27 | both ends of a chord are at distance 0 from it |
| `PathSimplifier.FarthestIsMaximum` | src/lib/vectorization/pathSimplifier.ts:44-56 | the argmax loop names a point whose distance it reports, and no scanned interior point is farther |
| `PathSimplifier.FindFarthest` | src/lib/vectorization/pathSimplifier.ts:44-56 | the argmax loop (strict comparison, first farthest point wins) computes `FarthestAmong` |
| `PathSimplifier.SimplifyPath` | src/lib/vectorization/pathSimplifier.ts:38-70 | the recursive method returns the recursive definition `Simplify` (tolerance ≥ 0 is required for termination) |
| `PathSimplifier.SimplifySplitsAt` | src/lib/vectorization/pathSimplifier.ts:58-65 | when the farthest point is beyond the tolerance the path is split there and the halves are joined without the repeated split point |
| `PathSimplifier.SimplifyShort` | src/lib/vectorization/pathSimplifier.ts:39-41 | a path of at most two points is returned unchanged |
| `PathSimplifier.SimplifyKeepsEndsAndOrder` | src/lib/vectorization/pathSimplifier.ts:43-69 | the result keeps the first and last point, has at least two points, is an order-preserving subsequence and is never longer than the input |
| `PathSimplifier.SimplifyCollapses` | src/lib/vectorization/pathSimplifier.ts:58-69 | when no interior point is farther than the tolerance from the chord the result is exactly [start, end] |
| `PathSimplifier.SimplifyMonotone` | src/lib/vectorization/pathSimplifier.ts:35-65 | for t1 ≤ t2 the result with t2 is a subsequence of the result with t1 (higher tolerance, fewer points) |
| `PathSimplifier.SimplifyDropsCollinearPoints` | src/lib/vectorization/pathSimplifier.ts:52-68 | tolerance 0 still drops an interior point lying exactly on the chord |
| `PathSimplifier.SimplifyToPointCount` | src/lib/vectorization/pathSimplifier.ts:76-110 | the bisection loop with its early return computes `SimplifyToCount`, and the simplifications it computes are exactly `CountAttempts` |
| `PathSimplifier.BisectFollowsAttempts` | src/lib/vectorization/pathSimplifier.ts:90-109 | with r iterations left the bisection makes at most r attempts, each a simplification with a tolerance in (0.0001, 1); only the last may have targetCount points; and it returns the last attempt, or the previous best when it makes none |
| `PathSimplifier.AttemptsBounded` | src/lib/vectorization/pathSimplifier.ts:90-92 | the loop calls simplifyPath at most once per remaining iteration |
| `PathSimplifier.AttemptsInRange` | src/lib/vectorization/pathSimplifier.ts:90-106 | every tolerance tried lies strictly between 0.0001 and 1 |
| `PathSimplifier.AttemptsStopAtExact` | src/lib/vectorization/pathSimplifier.ts:94-96 | no attempt before the last has exactly targetCount points |
| `PathSimplifier.BisectReturnsLast` | src/lib/vectorization/pathSimplifier.ts:88-109 | the loop returns its last attempt, or bestResult when it makes none |
| `PathSimplifier.SimplifyToCountChoice` | src/lib/vectorization/pathSimplifier.ts:76-110 | at most maxIterations calls to simplifyPath, with tolerances in (0.0001, 1); a too-long input gets exactly targetCount points iff some attempt has them, and then the first such attempt; otherwise the last attempt, or the input itself when there is none; a short enough input or maxIterations ≤ 0 returns the input |
| `PathSimplifier.SimplifyToCountResult` | src/lib/vectorization/pathSimplifier.ts:76-110 | the result keeps both ends of the input and its order |
| `PathSimplifier.RemoveDuplicates` | src/lib/vectorization/pathSimplifier.ts:173-192 | the push loop computes `RemoveDuplicatesSpec` |
| `PathSimplifier.PushLoop` | src/lib/vectorization/pathSimplifier.ts:176-189 | starting from the first point, the loop pushes each point that is more than threshold from the last one pushed; after i points the result is `DedupTo` of i |
| `PathSimplifier.DedupToWhole` | src/lib/vectorization/pathSimplifier.ts:176-189 | the loop state after the first i points is what removeDuplicates keeps of those i points (`Dedup` of the prefix) |
| `PathSimplifier.DedupSubsequence` | src/lib/vectorization/pathSimplifier.ts:176-189 | the kept points start with the first point and are an order-preserving subsequence |
| `PathSimplifier.DedupSpaced` | src/lib/vectorization/pathSimplifier.ts:179-188 | each kept point is more than threshold from the point kept before it |
| `PathSimplifier.RemoveDuplicatesProperties` | src/lib/vectorization/pathSimplifier.ts:173-192 | at most one point is returned unchanged; otherwise the first point is kept, the result is a subsequence and is spaced |
| `PathSimplifier.DedupOfSpaced` | src/lib/vectorization/pathSimplifier.ts:178-189 | an already spaced path is kept whole |
| `PathSimplifier.RemoveDuplicatesIdempotent` | src/lib/vectorization/pathSimplifier.ts:173-192 | removing duplicates twice gives the same result as once |
| `TextToPath.CubicEndpoints` | src/lib/vectorization/textToPath.ts:154-171 | the cubic curve is at p0 for t = 0 and at p3 for t = 1 |
| `TextToPath.QuadraticEndpoints` | src/lib/vectorization/textToPath.ts:176-190 | the quadratic curve is at p0 for t = 0 and at p2 for t = 1 |
| `TextToPath.CurveSamplesEnds` | src/lib/vectorization/textToPath.ts:84-115 | the 11 samples of a C or Q command run from the pen position to the command's end point |
| `TextToPath.Emit` | src/lib/vectorization/textToPath.ts:72-124 | one command only appends: M and L add one point, C and Q add 11, Z adds one point when some point exists and none otherwise, an unrecognised command adds none |
| `TextToPath.EmitContents` | src/lib/vectorization/textToPath.ts:74-123 | M and L append (x, y); Z appends the first collected point; C and Q start at the pen (last point, or (0, 0)) and end at (x, y) |
| `TextToPath.Flatten` | src/lib/vectorization/textToPath.ts:69-125 | the collected point count is the sum of the per-command counts |
| `TextToPath.FlattenPrefix` | src/lib/vectorization/textToPath.ts:72-125 | the points of a prefix of the commands are a prefix of the points of all of them |
| `TextToPath.CloseReturnsToFirstPoint` | src/lib/vectorization/textToPath.ts:119-123 | Z returns to the first point of the whole list, not to the start of the current subpath |
| `TextToPath.PushCubicSamples` | src/lib/vectorization/textToPath.ts:81-99 | the sampling loop of a C command appends the 11 samples starting from the pen |
| `TextToPath.PushQuadraticSamples` | src/lib/vectorization/textToPath.ts:101-117 | the sampling loop of a Q command appends the 11 samples starting from the pen |
| `TextToPath.FlattenCommands` | src/lib/vectorization/textToPath.ts:69-125 | the forEach over the commands collects exactly `Flatten(commands)` |
| `TextToPath.FlipYInvolutive` | src/lib/vectorization/textToPath.ts:132 | negating y twice gives the points back, so the flip keeps length and order |
| `TextToPath.TextToPath` | src/lib/vectorization/textToPath.ts:55-149 | the method (blank check, flattening loop, flip, removeDuplicates 0.1, simplifyPath 2.0, normalizePath) computes `Converted` |
| `TextToPath.ConvertedOutcome` | src/lib/vectorization/textToPath.ts:55-149 | success iff the text is not blank, the font gave an outline and some point was collected; blank text fails with 'Text cannot be empty' unprefixed; font errors and the empty outline get the 'Failed to convert text to path: ' prefix; a result has between 1 and the collected number of points, all in the unit square |
| `AnalogDigits.DigitPath` | src/lib/vectorization/analogDigits.ts:11-259 | the table has an outline for a character exactly when it is one of '0' to '9' |
| `AnalogDigits.DigitOutlines` | src/lib/vectorization/analogDigits.ts:3-259 | every outline of the table is closed (first point = last point) and lies in the unit square, as the doc comment says |
| `AnalogDigits.SupportedCharacters` | src/lib/vectorization/analogDigits.ts:327-329 | the own keys of the table are exactly the ten digits, each with an entry |
| `AnalogDigits.GetAnalogDigit` | src/lib/vectorization/analogDigits.ts:264-271 | success iff the key is a single digit, and then a closed outline in the unit square; a key the prototype provides fails with the spread's TypeError; every other key fails with 'Analog digit not defined for character: ' + key |
| `AnalogDigits.IsAnalogDigitSupportedAsWritten` | src/lib/vectorization/analogDigits.ts:320-322 | `char in ANALOG_DIGITS` is true for the ten digits and also for the names inherited from Object.prototype |
| `AnalogDigits.InheritedKeyCounterexample` | src/lib/vectorization/analogDigits.ts:320-322 | "toString" passes the `in` test although getAnalogDigit fails for it |
| `AnalogDigits.IsAnalogDigitSupported` | src/lib/vectorization/analogDigits.ts:320-322 | corrected test: true exactly when getAnalogDigit succeeds |
| `AnalogDigits.LayoutAt` | src/lib/vectorization/analogDigits.ts:298-310 | the j-th point of the k-th accepted outline sits after the points of the earlier outlines, with x shifted by 1.1·k and y unchanged |
| `AnalogDigits.AcceptedDigitsAppend` | src/lib/vectorization/analogDigits.ts:281-291 | the outlines collected from a concatenated text are those of its parts, in order |
| `AnalogDigits.SkippedCharacterIgnored` | src/lib/vectorization/analogDigits.ts:281-291 | a character without an outline (space or not) changes nothing in the result, so skipped characters do not advance the layout index |
| `AnalogDigits.AcceptedDigitsEmpty` | src/lib/vectorization/analogDigits.ts:281-295 | no outline is collected exactly when the text holds no digit |
| `AnalogDigits.AnalogPathOutcome` | src/lib/vectorization/analogDigits.ts:277-315 | failure iff the text holds no digit, with 'No valid analog digits found in text'; a result's length is the sum of the accepted outlines' lengths |
| `AnalogDigits.SingleDigitUnshifted` | src/lib/vectorization/analogDigits.ts:298-310 | a single digit gives its table outline unshifted |
| `AnalogDigits.CollectDigits` | src/lib/vectorization/analogDigits.ts:279-291 | the first loop collects the digits' outlines in order and warns about exactly the characters that are neither digit nor space |
| `AnalogDigits.CombinePaths` | src/lib/vectorization/analogDigits.ts:298-310 | the nested forEach builds the shifted layout |
| `AnalogDigits.TextToAnalogPath` | src/lib/vectorization/analogDigits.ts:277-315 | the method computes `AnalogPath` and reports the warned characters |
| `StrokeOptimizer.ReverseInvolutive` | src/lib/vectorization/strokeOptimizer.ts:64-66 | reversing a stroke's points twice gives them back, and reversal swaps the two ends |
| `StrokeOptimizer.ScanStrokes` | src/lib/vectorization/strokeOptimizer.ts:27-58 | the inner search finds a stroke iff some scanned stroke is unvisited, and what it finds is unvisited |
| `StrokeOptimizer.ScanIsMinimal` | src/lib/vectorization/strokeOptimizer.ts:32-58 | the chosen (stroke, orientation) minimises the distance from the tail to a start (forward) or an end (reversed) over the unvisited strokes; strict comparisons make ties go to the earlier stroke and to forward |
| `StrokeOptimizer.ScanFindsUnvisited` | src/lib/vectorization/strokeOptimizer.ts:26-61 | with distinct ids, while not every stroke is visited the search finds one, so the while loop makes progress |
| `StrokeOptimizer.GreedyStep` | src/lib/vectorization/strokeOptimizer.ts:26-70 | one iteration marks the chosen id visited and appends the stroke, reversed iff the search said so |
| `StrokeOptimizer.GreedyCovers` | src/lib/vectorization/strokeOptimizer.ts:26-71 | from any visited set, the loop adds each unvisited stroke exactly once, with its points kept or reversed |
| `StrokeOptimizer.OptimizedOrderProperties` | src/lib/vectorization/strokeOptimizer.ts:13-74 | zero or one stroke comes back unchanged; otherwise the output has the same length, each id exactly once, strokes[0] first and unreversed, and every stroke kept or reversed |
| `StrokeOptimizer.GreedyOrderProperties` | src/lib/vectorization/strokeOptimizer.ts:18-73 | for two strokes or more, strokes[0] followed by the greedy choices is a permutation of the strokes up to reversal |
| `StrokeOptimizer.FindNearest` | src/lib/vectorization/strokeOptimizer.ts:27-58 | the for-of search loop computes `ScanStrokes` over all strokes |
| `StrokeOptimizer.OrderStep` | src/lib/vectorization/strokeOptimizer.ts:60-70 | one outer iteration keeps the loop's relation to the greedy order |
| `StrokeOptimizer.OptimizeStrokeOrder` | src/lib/vectorization/strokeOptimizer.ts:13-74 | with distinct ids the while loop terminates and returns `OptimizedOrder` |
| `StrokeMerger.CreateConnector` | src/lib/vectorization/strokeMerger.ts:41-63 | a connector has at most one point |
| `StrokeMerger.ConnectorIsElbow` | src/lib/vectorization/strokeMerger.ts:46-62 | there is a connector point iff grid mode is on and the ends differ by more than 0.001 on both axes; that point is (end.x, start.y), so smooth mode never adds one |
| `StrokeMerger.PushedLength` | src/lib/vectorization/strokeMerger.ts:15-30 | after n iterations the path holds the points of the first n strokes plus between 0 and n connector points (n − 1 once every stroke is in) |
| `StrokeMerger.StrokeAt` | src/lib/vectorization/strokeMerger.ts:15-30 | once pushed, a stroke's points and the connector after it keep their place in every later state |
| `StrokeMerger.PushedPrefix` | src/lib/vectorization/strokeMerger.ts:15-30 | later iterations only append |
| `StrokeMerger.MergeStrokesShape` | src/lib/vectorization/strokeMerger.ts:9-33 | no strokes give []; one stroke gives its points; otherwise the output is stroke 1, connector, stroke 2, …, stroke k with every stroke contiguous and in order, each connector the grid connector of 0 or 1 point, and length between the total point count and the total point count + k − 1 |
| `StrokeMerger.MergeStrokesLoop` | src/lib/vectorization/strokeMerger.ts:9-33 | the push loop computes `MergeStrokes`, always with the grid connector since gridMode is never passed |
| `Geometry.GeoBoundsOf` | src/lib/utils/geometry.ts:7-46 | no points give all zeros with centre (0, 0); the centre is always the midpoint of north/south and east/west |
| `Geometry.GeoBoundsTight` | src/lib/utils/geometry.ts:24-45 | for a non-empty set south ≤ lat ≤ north and west ≤ lng ≤ east for every point, each side is attained, and the centre lies inside the box |
| `Geometry.GetGeoBounds` | src/lib/utils/geometry.ts:7-46 | the min/max loop computes `GeoBoundsOf` |
| `Geometry.Centroid` | src/lib/utils/geometry.ts:51-68 | the origin for no points; otherwise the centroid times the count is the coordinate sum, on both axes (the arithmetic mean) |
| `Geometry.CalculateCentroid` | src/lib/utils/geometry.ts:51-68 | the summing loop computes `Centroid` |
| `Geometry.CentroidOfConstant` | src/lib/utils/geometry.ts:51-68 | the centroid of copies of one point is that point |
| `Geometry.GeoCentroid` | src/lib/utils/geometry.ts:73-90 | (0, 0) for no points; otherwise the mean latitude and longitude |
| `Geometry.CalculateGeoCentroid` | src/lib/utils/geometry.ts:73-90 | the summing loop computes `GeoCentroid` |
| `Geometry.GeoCentroidInBounds` | src/lib/utils/geometry.ts:7-90 | the geographic centroid of a non-empty set lies inside its getGeoBounds box |
| `Geometry.GeoCentroidOfConstant` | src/lib/utils/geometry.ts:73-90 | the geographic centroid of copies of one point is that point |
| `Geometry.TransformIdentities` | src/lib/utils/geometry.ts:120-135 | translating by (0, 0) and scaling by 1 are identities |
| `Geometry.TranslateInverse` | src/lib/utils/geometry.ts:120-125 | translating by an offset and then by its opposite gives the points back, so length and order are kept |
| `Geometry.TranslateCentroid` | src/lib/utils/geometry.ts:51-125 | translating a non-empty set moves its centroid by the same offset |
| `Geometry.InterpolateEnds` | src/lib/utils/geometry.ts:96-101 | interpolation gives p1 at t = 0, p2 at t = 1 and the midpoint at t = 1/2 |
| `Geometry.PolygonArea` | src/lib/utils/geometry.ts:141-152 | the area is never negative and is 0 for fewer than three points |
| `Geometry.CalculatePolygonArea` | src/lib/utils/geometry.ts:141-152 | the shoelace loop (edge i to (i + 1) mod n) computes `PolygonArea` |
| `Geometry.ScaledArea` | src/lib/utils/geometry.ts:130-152 | scaling a polygon by s multiplies its area by s² |
| `Geometry.ClosedPaths` | src/lib/utils/geometry.ts:157-168 | fewer than two points are never closed; with a positive tolerance a path whose last point repeats the first is closed; with tolerance ≤ 0 none is |
| `Coordinates.OffsetRoundTrip` | src/lib/utils/coordinates.ts:10-40 | metersToLatLngOffset and latLngOffsetToMeters at the same centre undo each other, in both orders |
| `Coordinates.OffsetConvention` | src/lib/utils/coordinates.ts:14-20 | 111320 m northwards is one degree of latitude (y) and metersPerDegreeLng(center.lat) m eastwards one degree of longitude (x) |
| `Coordinates.AddOffsetInverse` | src/lib/utils/coordinates.ts:45-50 | offset.y goes to lat and offset.x to lng: adding an offset and then its opposite gives the point back, and (0, 0) changes nothing |
| `Coordinates.ClampLatitude` | src/lib/utils/coordinates.ts:55-57 | the result lies in [-90, 90], is the input on [-90, 90], and is the nearer bound outside it |
| `Coordinates.ClampIdempotent` | src/lib/utils/coordinates.ts:55-57 | clamping twice is clamping once |
| `Coordinates.NormalizeLongitude` | src/lib/utils/coordinates.ts:62-66 | the two while loops compute `NormalizedLongitude` |
| `Coordinates.WrapDownTurns` | src/lib/utils/coordinates.ts:63 | the first loop subtracts a whole number of turns of 360 |
| `Coordinates.WrapUpTurns` | src/lib/utils/coordinates.ts:64 | the second loop adds a whole number of turns of 360 |
| `Coordinates.NormalizedLongitudeProperties` | src/lib/utils/coordinates.ts:62-66 | the result lies in [-180, 180], differs from the input by a multiple of 360, is the identity on [-180, 180], and is idempotent |
| `Coordinates.RepairedIsValid` | src/lib/utils/coordinates.ts:55-80 | isValidLatLng holds of a clamped and normalized point, and those repairs leave a valid point unchanged |
| `PathToGeo.PathToGeo` | src/lib/routing/pathToGeo.ts:26-93 | an empty path gives []; a path of zero normalized length gives exactly [center]; otherwise one output point per input point |
| `PathToGeo.StationaryPathIsCenter` | src/lib/routing/pathToGeo.ts:38-43 | a path of one repeated point (a single point in particular) is projected onto the centre alone |
| `PathToGeo.ScaleMeetsTarget` | src/lib/routing/pathToGeo.ts:35-57 | without an override scaleFactor · normalizedLength = targetDistance (default 10000); an override is used verbatim |
| `PathToGeo.BoxCentreLandsOnCenter` | src/lib/routing/pathToGeo.ts:63-89 | the bounding-box centre is placed exactly on `center`, whatever the rotation and scale |
| `PathToGeo.CentrePointLandsOnCenter` | src/lib/routing/pathToGeo.ts:60-89 | an input point at the bounding-box centre maps onto `center` |
| `PathToGeo.UnrotatedProjection` | src/lib/routing/pathToGeo.ts:63-89 | with rotation 0 the i-th point is center.lat + (y − centreY)·s/111320 and center.lng + (x − centreX)·s/metersPerDegreeLng(center.lat): no y flip, no other option read |
| `PathToGeo.CalculateScaleFactor` | src/lib/routing/pathToGeo.ts:101-112 | the factor times the normalized length is the target; a zero-length path gives the target itself |
| `PathToGeo.ScaleFactorsAgree` | src/lib/routing/pathToGeo.ts:48-112 | pathToGeo's derived scale factor is calculateScaleFactor's |
| `PathToGeo.GetRecommendedRotation` | src/lib/routing/pathToGeo.ts:120-134 | the result is 0 or 90, and 90 iff there are at least two points and width > 1.5 · height |
| `PathToGeo.CalculatePathArea` | src/lib/routing/pathToGeo.ts:142-163 | the loop computes the shoelace area of the path in local metres around the centre, which is never negative and 0 below three points |
| `GridPathGenerator.GridStep` | src/lib/routing/gridPathGenerator.ts:50-73 | one input point appends 0, 1 or 2 points and never rewrites the path built so far |
| `GridPathGenerator.NegligibleMove` | src/lib/routing/gridPathGenerator.ts:59-73 | a target within 0.001 of the current position on both axes adds no point and leaves `current` unchanged |
| `GridPathGenerator.GridFoldShape` | src/lib/routing/gridPathGenerator.ts:42-74 | after n input points the path starts at the first point, ends at `current`, has at most 2n − 1 points and makes only Manhattan steps |
| `GridPathGenerator.ConvertToGridPathShape` | src/lib/routing/gridPathGenerator.ts:28-77 | fewer than two points are returned unchanged; otherwise the output starts with input[0], has at most 2n − 1 points, and every step is exactly horizontal or reaches an input point moving at most 0.001 sideways |
| `GridPathGenerator.ConvertToGridPathLoop` | src/lib/routing/gridPathGenerator.ts:28-77 | the loop computes `ConvertToGridPath`, whatever the options |
| `GridPathGenerator.SnapToBlockGrid` | src/lib/routing/gridPathGenerator.ts:129-137 | snapping keeps the number of points |
| `GridPathGenerator.UnitsRoundTrip` | src/lib/routing/gridPathGenerator.ts:134-135 | converting to units of blockSize/1000 and back is the identity |
| `GridPathGenerator.SnapProperties` | src/lib/routing/gridPathGenerator.ts:133-136 | a snapped coordinate is a whole multiple of b/1000, within b/2000 of the original, and snapping it again changes nothing |
| `GridPathGenerator.SnapToBlockGridIdempotent` | src/lib/routing/gridPathGenerator.ts:129-137 | snapping a snapped path changes nothing |
| `GridPathGenerator.CornersSubsequence` | src/lib/routing/gridPathGenerator.ts:179-198 | the loop keeps path[0] first and an order-preserving selection of the points seen |
| `GridPathGenerator.SimplifyGridPathShape` | src/lib/routing/gridPathGenerator.ts:174-204 | fewer than three points are returned unchanged; otherwise first and last are kept and the output is an order-preserving subsequence |
| `GridPathGenerator.CornerIndicesIncrease` | src/lib/routing/gridPathGenerator.ts:179-198 | the kept indices are strictly increasing |
| `GridPathGenerator.CornersArePicked` | src/lib/routing/gridPathGenerator.ts:179-198 | the kept points are exactly those at the kept indices |
| `GridPathGenerator.KeptIffCornerAt` | src/lib/routing/gridPathGenerator.ts:181-197 | an interior point is kept iff its step from the last kept point differs by more than 0.001 in x or y from its step to the next point |
| `GridPathGenerator.SimplifyGridPathKeepsCorners` | src/lib/routing/gridPathGenerator.ts:174-204 | for three or more points the output is path[0], then exactly the corner points in order, then the last point |
| `GridPathGenerator.StraightRunKeepsSecondInterior` | src/lib/routing/gridPathGenerator.ts:182-193 | steps are measured from the last kept point: on an evenly spaced straight run of four points the second interior point is kept |
| `GridPathGenerator.SimplifyGridPathLoop` | src/lib/routing/gridPathGenerator.ts:174-204 | the loop computes `SimplifyGridPath` |
| `GridPathGenerator.GenerateGridArtPathShape` | src/lib/routing/gridPathGenerator.ts:212-225 | unless snapToBlocks is true (the default true of line 39 does not apply here) the result starts at the first point, is a subsequence of the Manhattan path and has at most 2n − 1 points |
| `GridPathGenerator.RoundedBearingRange` | src/lib/routing/gridPathGenerator.ts:101 | a bearing in [0, 360) rounds to 45·k with 0 ≤ k ≤ 8 |
| `GridPathGenerator.PickIsMaximal` | src/lib/routing/gridPathGenerator.ts:109-117 | the forEach over the counts keeps a bearing with the largest count, the first in insertion order on ties |
| `GridPathGenerator.PrimaryIsMostFrequent` | src/lib/routing/gridPathGenerator.ts:104-117 | the primary bearing occurs in the list at least as often as any other value |
| `GridPathGenerator.DetectGridOrientationProperties` | src/lib/routing/gridPathGenerator.ts:85-121 | the result is 0 or 45; for two or more points it is the most frequent rounded leg bearing modulo 90 |
| `GridPathGenerator.CountBearings` | src/lib/routing/gridPathGenerator.ts:104-107 | the counting forEach yields the Map keys in insertion order and each value's number of occurrences |
| `GridPathGenerator.LegBearingsLoop` | src/lib/routing/gridPathGenerator.ts:93-101 | one rounded bearing per leg, in order |
| `GridPathGenerator.PickLoop` | src/lib/routing/gridPathGenerator.ts:109-117 | the forEach over the Map computes `Pick` |
| `GridPathGenerator.DetectGridOrientationLoop` | src/lib/routing/gridPathGenerator.ts:85-121 | the method computes `DetectGridOrientation` (0 below two points) |
| `GridPathGenerator.SortAscending` | src/lib/routing/gridPathGenerator.ts:161 | the sort keeps the length and the multiset of the distances |
| `GridPathGenerator.SortAscendingSorted` | src/lib/routing/gridPathGenerator.ts:161 | the sorted distances are in ascending order |
| `GridPathGenerator.MedianIsALeg` | src/lib/routing/gridPathGenerator.ts:152-162 | the median is the middle element of the sorted leg lengths, is itself a leg length and is not negative |
| `GridPathGenerator.EstimateBlockSizeProperties` | src/lib/routing/gridPathGenerator.ts:145-166 | with ten or more points the block size is a non-negative whole number of 50 m steps within 25 m of the median leg |
| `GridPathGenerator.LegDistancesLoop` | src/lib/routing/gridPathGenerator.ts:153-158 | one haversine length per leg, in order |
| `GridPathGenerator.EstimateBlockSizeLoop` | src/lib/routing/gridPathGenerator.ts:145-166 | the method computes `EstimateBlockSize` (100 below ten points) |
| `Segmentation.CeilDiv` | src/lib/routing/segmentation.ts:15 | the chunk size k is the ceiling of a / b: (k − 1)·b < a ≤ k·b, and at least 1 for a non-empty path |
| `Segmentation.DivideIntoSegmentsLoop` | src/lib/routing/segmentation.ts:7-27 | the chunking loop (with its `start < path.length` skip) computes `DivideIntoSegments`: [] for an empty path, [path] for numSegments ≤ 1 |
| `Segmentation.DivideIntoSegmentsShape` | src/lib/routing/segmentation.ts:14-26 | for a non-empty path and numSegments ≥ 2 there are between 1 and numSegments segments, each the slice from i·ceil(len/n) reaching one point into the next, so consecutive segments share their boundary point |
| `Segmentation.SegmentsCount` | src/lib/routing/segmentation.ts:17-24 | the loop emits a segment for every i whose start is still inside the path, and stops emitting only once the starts have passed the end |
| `Segmentation.MergeSegmentsLoop` | src/lib/routing/segmentation.ts:186-205 | the merge loop computes `MergeSegments`: it skips a segment's first point when that lies within 10 m of the merged tail, and throws the TypeError when an empty segment follows merged points |
| `Segmentation.MergeSegmentsFoldFails` | src/lib/routing/segmentation.ts:192-202 | the merge of the first n segments throws exactly when an empty segment follows one with points, and then with the TypeError; otherwise its result is empty exactly when all those segments are |
| `Segmentation.MergeSegmentsFails` | src/lib/routing/segmentation.ts:186-205 | mergeSegments throws exactly when an empty segment follows one with points, and then with the TypeError reading `lat` of undefined |
| `Segmentation.FailureSticks` | src/lib/routing/segmentation.ts:192-202 | once the loop has thrown, no later segment changes the outcome |
| `Segmentation.MergeFoldAgrees` | src/lib/routing/segmentation.ts:192-202 | when no segment after the first is empty, the merge never throws and pushes each segment, less a repeated first point |
| `Segmentation.MergeIntoRepeated` | src/lib/routing/segmentation.ts:192-202 | appending a slice whose first point repeats the merged tail drops that repeated point |
| `Segmentation.MergeDividedPath` | src/lib/routing/segmentation.ts:7-205 | mergeSegments undoes divideIntoSegments: every divided path has no empty segment after the first and merges back, without a throw, to exactly the original path, for every numSegments |
| `Segmentation.SimplifyGeoPathShape` | src/lib/routing/segmentation.ts:141-162 | at most two points come back unchanged; otherwise the result keeps both ends, is an ordered subsequence no longer than the input, and every kept point before the last is at least tolerance metres from the one kept before it |
| `Segmentation.SimplifyGeoPathLoop` | src/lib/routing/segmentation.ts:141-162 | the thinning loop with its lastKept index computes `SimplifyGeoPath` |
| `Segmentation.PathsAreSimilarLoop` | src/lib/routing/segmentation.ts:167-180 | the early-return loop answers true exactly when the paths have equal length and every pair of corresponding points is within threshold metres |
| `Segmentation.SimilarToItself` | src/lib/routing/segmentation.ts:167-180 | with a non-negative threshold every path is similar to itself |
| `Segmentation.SimilarityWidens` | src/lib/routing/segmentation.ts:174-177 | paths similar under a threshold stay similar under any larger threshold |
| `Segmentation.KeyStep` | src/lib/routing/segmentation.ts:50-80 | one iteration of extractKeyPoints either keeps the key points or appends path[i], and appends only while fewer than maxPoints − 1 key points are kept |
| `Segmentation.ExtractKeyPointsLoop` | src/lib/routing/segmentation.ts:37-86 | the corner-and-distance loop computes `ExtractKeyPoints` |
| `Segmentation.ExtractKeyPointsShape` | src/lib/routing/segmentation.ts:37-86 | a path of at most maxPoints points comes back unchanged; a longer one keeps its first and last point as an ordered subsequence with at most maxPoints points when maxPoints ≥ 2 — corners beyond the limit are dropped too; a single point with maxPoints ≤ 0 comes back twice |
| `Segmentation.DistancesAscending` | src/lib/routing/segmentation.ts:100-107 | the cumulative distances start at 0, never decrease and end at the path's total length |
| `Segmentation.CumulativeLoop` | src/lib/routing/segmentation.ts:100-107 | the accumulation loop builds the cumulative distance array `Distances` |
| `Segmentation.Advance` | src/lib/routing/segmentation.ts:116-119 | the inner while loop stops at the first index at or after pathIndex whose distance reaches the target, or at the length |
| `Segmentation.AdvanceLoop` | src/lib/routing/segmentation.ts:116-119 | the while loop computes `Advance` |
| `Segmentation.SamplePointsByDistanceLoop` | src/lib/routing/segmentation.ts:92-135 | the distance-sampling loops compute `SamplePointsByDistance` |
| `Segmentation.SamplePointsByDistanceShape` | src/lib/routing/segmentation.ts:92-135 | a path of at most numPoints points is returned unchanged; otherwise the samples are the points at indices that start at 0, end at the last index and never decrease, at most numPoints of them when numPoints ≥ 2 |
| `DirectionsApi.ReadVarint` | src/lib/maps/directionsApi.ts:28-35 | one do-while chunk loop always moves the index forward and yields a non-negative value (past the end the chunk is 0 and the value ends) |
| `DirectionsApi.ReadVarintLoop` | src/lib/maps/directionsApi.ts:28-35 | the do-while loop over 5-bit chunks computes `ReadVarint` |
| `DirectionsApi.ZigZagEncode` | src/lib/maps/directionsApi.ts:37 | the format's sign folding yields a non-negative value that the decoder's `(r & 1) ? ~(r >> 1) : r >> 1` maps back to the original delta |
| `DirectionsApi.DecodeLength` | src/lib/maps/directionsApi.ts:26-56 | every decoded point consumes at least two characters of the encoded string |
| `DirectionsApi.ReadEncoded` | src/lib/maps/directionsApi.ts:28-35 | reading the encoding of v returns v and the index just past its characters |
| `DirectionsApi.DecodeEncoded` | src/lib/maps/directionsApi.ts:20-59 | decoding the delta encoding of a point sequence from any running sums returns those points in degrees |
| `DirectionsApi.PolylineRoundTrip` | src/lib/maps/directionsApi.ts:20-59 | decodePolyline inverts the polyline format: decoding the encoding of any sequence of 1e-5-degree points gives those points divided by 1e5 |
| `DirectionsApi.DecodePolylineLoop` | src/lib/maps/directionsApi.ts:20-59 | the while loop with its two do-while loops computes `DecodePolyline` |
| `DirectionsApi.RetryCharacterized` | src/lib/maps/directionsApi.ts:131-158 | with maxRetries ≤ 0 nothing is sent and the error is 'Max retries exceeded'; otherwise 1 to maxRetries attempts are made, every attempt but the last got a rate-limited reply, the outcome is the last reply, an early stop happens only on a reply that is not rate limited, and each rate-limited attempt k is followed by a pause of 2^k·1000 ms |
| `DirectionsApi.RetryFromCharacterized` | src/lib/maps/directionsApi.ts:137-157 | the same description from any attempt number on, carrying the last error seen |
| `DirectionsApi.BatchOutcome` | src/lib/maps/directionsApi.ts:164-186 | a successful batch returns one result per request in request order, each a reply the provider gave to that request; a failed batch fails with a reply the provider gave to some request j, and no later request was sent |
| `DirectionsApi.BatchFailsFirst` | src/lib/maps/directionsApi.ts:179-182 | a batch whose first request fails rethrows that failure having sent only that request |
| `DirectionsApi.DirectionsService.constructor` | src/lib/maps/directionsApi.ts:65-75 | a provider starts with no request sent and no pause taken |
| `DirectionsApi.DirectionsService.GetDirections` | src/lib/maps/directionsApi.ts:65-126 | one call records the request and returns the provider's reply to it, a result or an error message |
| `DirectionsApi.DirectionsService.Sleep` | src/lib/maps/directionsApi.ts:148 | a setTimeout pause is recorded in the log of pauses and nothing else changes |
| `DirectionsApi.DirectionsService.GetDirectionsWithRetry` | src/lib/maps/directionsApi.ts:131-158 | the retry loop returns the outcome `Retry` describes, sends exactly its attempts and takes exactly its pauses |
| `DirectionsApi.DirectionsService.BatchStep` | src/lib/maps/directionsApi.ts:171-178 | one pass retries request i and pauses delayMs afterwards only if it succeeded and another request follows |
| `DirectionsApi.DirectionsService.BatchDirections` | src/lib/maps/directionsApi.ts:164-186 | the batch loop returns the outcome `Batch` describes and its requests and pauses are exactly those of `Batch` |
| `RouteSnapper.SegmentRequestShape` | src/lib/routing/routeSnapper.ts:99-126 | a request is sent exactly for segments of two or more points; it runs from the segment's first point to its last with the given travel mode, its points are an ordered subsequence of the segment, and with maxWaypoints ≥ 2 no resampling happens and at most maxWaypoints − 2 intermediate waypoints are sent |
| `RouteSnapper.SnapSegmentShape` | src/lib/routing/routeSnapper.ts:99-141 | a segment is kept as it is or replaced by the provider's road path for its request; the provider is called only when there is a request, 1 to 3 times and always with that request; a failed request keeps the segment |
| `RouteSnapper.SnapSegmentToRoads` | src/lib/routing/routeSnapper.ts:99-141 | the method returns the path `SnapSegment` describes and sends exactly its calls and pauses |
| `RouteSnapper.BuildSegmentRequest` | src/lib/routing/routeSnapper.ts:103-124 | the key-point loop and, above maxWaypoints, the resampling loop yield exactly the request `SegmentRequest` specifies; there is none for a chunk of fewer than two points or fewer than two waypoints |
| `RouteSnapper.SegmentRequests` | src/lib/routing/routeSnapper.ts:53-67 | one request (or none) per segment, each the request of that segment |
| `RouteSnapper.SegmentProgresses` | src/lib/routing/routeSnapper.ts:55-60 | the report before segment i is 20 + i/count·60, one per segment |
| `RouteSnapper.ProgressStep` | src/lib/routing/routeSnapper.ts:55 | the per-segment reports lie in [20, 80] and grow with i |
| `RouteSnapper.RouteProgressShape` | src/lib/routing/routeSnapper.ts:43-87 | the reports start 10, 20, hold one report per segment, never decrease and end with 95, or with 85 when the merge throws |
| `RouteSnapper.SnapRouteProgress` | src/lib/routing/routeSnapper.ts:27-94 | a path of fewer than two points throws 'Path must have at least 2 points' with no call, pause or report; otherwise there is at least one segment and the reports are those of `RouteProgress` |
| `RouteSnapper.SnapRouteFallsBack` | src/lib/routing/routeSnapper.ts:62-74 | when the provider never succeeds every segment falls back to its own points and the merged route is exactly the ideal path |
| `RouteSnapper.ChunksFallBack` | src/lib/routing/routeSnapper.ts:62-74 | when the provider never succeeds the segment loop keeps every segment as it is |
| `RouteSnapper.SnapRouteMerges` | src/lib/routing/routeSnapper.ts:44-93 | the route merges one snapped path per segment, in order, each the segment or the provider's road path for its request; snapping fails exactly when an empty road path follows points, and then with 'Failed to snap route to roads: TypeError: ' and the TypeError's message |
| `RouteSnapper.SnapRouteMode` | src/lib/routing/routeSnapper.ts:31-67 | every request snapToRoads sends uses the travel mode from the options |
| `RouteSnapper.SnapToRoads` | src/lib/routing/routeSnapper.ts:27-94 | the method returns the outcome and progress reports of `SnapRoute` and sends exactly its calls and pauses |
| `RouteSnapper.SnapLongPath` | src/lib/routing/routeSnapper.ts:42-93 | for two or more points: divide, snap every segment, merge; a merge failure is rethrown with the 'Failed to snap route to roads: ' prefix |
| `RouteSnapper.SnapChunksLoop` | src/lib/routing/routeSnapper.ts:53-80 | the segment loop reports 20 + i/count·60 before segment i and snaps the segments as `SnapChunks` does, with a 300 ms pause between segments |
| `RouteSnapper.SnapStep` | src/lib/routing/routeSnapper.ts:62-79 | one pass snaps segment i and pauses 300 ms unless it is the last |
| `RouteSnapper.SnapSimpleFallsBack` | src/lib/routing/routeSnapper.ts:147-164 | snapSimple tries 1 to 3 times; it returns the two ends when every attempt fails and otherwise the path of the successful reply |
| `RouteSnapper.SnapSimple` | src/lib/routing/routeSnapper.ts:147-164 | the method returns `SnapSimpleSpec` and sends only the start-to-end request |
| `RouteSnapper.IsLocationRoutable` | src/lib/routing/routeSnapper.ts:170-191 | the location is routable exactly when the request to the point 0.001° north succeeds within the retries |
| `DistanceOptimizer.ClassifyByProducts` | src/lib/routing/distanceOptimizer.ts:22-47 | for a positive target the ratio test means: within tolerance exactly when (1 − tolerance)·target ≤ distance ≤ (1 + tolerance)·target, too short exactly when below the lower bound, too long otherwise |
| `DistanceOptimizer.EstimateFinalDistanceCases` | src/lib/routing/distanceOptimizer.ts:193-211 | for a positive target the estimate is the target exactly when the distance is below (1 − tolerance)·target, the distance itself otherwise, and never below the distance |
| `DistanceOptimizer.CalculateRequiredLoops` | src/lib/routing/distanceOptimizer.ts:178-188 | the count is JavaScript's Infinity exactly when there is a deficit and the loop distance is 0 |
| `DistanceOptimizer.RequiredLoopsCoverDeficit` | src/lib/routing/distanceOptimizer.ts:178-188 | with a positive loop distance: 0 loops exactly when there is no deficit, otherwise the fewest loops whose total distance covers the deficit |
| `DistanceOptimizer.LoopsToAddIsRequiredLoops` | src/lib/routing/distanceOptimizer.ts:64 | addLoops adds calculateRequiredLoops(…, 500) loops capped at maxLoops |
| `DistanceOptimizer.ValidBounds` | src/lib/routing/distanceOptimizer.ts:118-119 | Math.floor(length·0.2) and Math.floor(length·0.8) are length/5 and 4·length/5 in whole numbers |
| `DistanceOptimizer.LoopLocationsShape` | src/lib/routing/distanceOptimizer.ts:114-137 | a non-empty route gets max(numLoops, 0) ascending indices inside it; they lie in [length/5, 4·length/5) when the middle part has room, and strictly increase when it has room for one more |
| `DistanceOptimizer.FindLoopLocations` | src/lib/routing/distanceOptimizer.ts:114-137 | the push loop computes `LoopLocations` |
| `DistanceOptimizer.MiddlePartHasRoom` | src/lib/routing/distanceOptimizer.ts:60-68 | a route of at least 10 points always has room for up to 3 loops in its middle part |
| `DistanceOptimizer.GenerateLoopFallsBack` | src/lib/routing/distanceOptimizer.ts:143-173 | generateLoop sends its centre-to-centre request through the four corners 1 to 3 times; it returns the four corners exactly when every attempt fails, the provider's last path otherwise |
| `DistanceOptimizer.GenerateLoop` | src/lib/routing/distanceOptimizer.ts:143-173 | the method returns the loop `GenerateLoopSpec` describes and sends exactly its calls and pauses |
| `DistanceOptimizer.SpliceKeeps` | src/lib/routing/distanceOptimizer.ts:84-88 | inserting a loop after an index keeps every route point in order and adds exactly the loop's points |
| `DistanceOptimizer.ShiftLater` | src/lib/routing/distanceOptimizer.ts:91-93 | the in-place loop adds the loop length to every later location and leaves the others |
| `DistanceOptimizer.AddLoopAt` | src/lib/routing/distanceOptimizer.ts:73-102 | one pass inserts the generated loop after location i (when it is non-empty), shifts the later locations and pauses 300 ms unless it is the last pass |
| `DistanceOptimizer.PassAnchors` | src/lib/routing/distanceOptimizer.ts:72-103 | the loop over the locations produces the route, calls, pauses and reports of `LoopFold` |
| `DistanceOptimizer.AddLoopsKeepsRoute` | src/lib/routing/distanceOptimizer.ts:54-108 | addLoops never drops or reorders a route point: the route is a subsequence of the result |
| `DistanceOptimizer.AddLoopsSplices` | src/lib/routing/distanceOptimizer.ts:54-108 | with at least 10 points and at most 3 loops: loopsToAdd strictly increasing anchors in the middle three fifths, and the result is the route with loop i inserted after anchor i, loop i being generateLoop's answer around that anchor's original point |
| `DistanceOptimizer.LoopsCentred` | src/lib/routing/distanceOptimizer.ts:77-80 | each loop is generated around the point its anchor held in the original route, although earlier loops have shifted the indices |
| `DistanceOptimizer.AddLoopsProgress` | src/lib/routing/distanceOptimizer.ts:73-105 | addLoops' reports 20 + i/n·70 never decrease, stay in [20, 100] and end with 100 |
| `DistanceOptimizer.AddLoops` | src/lib/routing/distanceOptimizer.ts:54-108 | the method returns the route and reports of `AddLoopsSpec` and sends exactly its calls and pauses (a route under 10 points or maxLoops 0 comes back untouched) |
| `DistanceOptimizer.OptimizeProgress` | src/lib/routing/distanceOptimizer.ts:25-47 | optimizeDistance's reports start with 0, never decrease, stay in [0, 100] and end with 100 unless addLoops left the route alone |
| `DistanceOptimizer.OptimizeKeepsFittingRoute` | src/lib/routing/distanceOptimizer.ts:15-48 | a route within tolerance or too long comes back unchanged with no call and no pause; a too-short route only gains points |
| `DistanceOptimizer.LengthenRoute` | src/lib/routing/distanceOptimizer.ts:33-38 | the too-short branch reports 0 and 20 and runs addLoops on the deficit |
| `DistanceOptimizer.OptimizeMeasured` | src/lib/routing/distanceOptimizer.ts:23-47 | once the distance is known the method follows `OptimizeSpec` |
| `DistanceOptimizer.OptimizeDistance` | src/lib/routing/distanceOptimizer.ts:15-48 | the method measures the route with calculatePathDistance and returns the route, reports, calls and pauses of `OptimizeSpec` |
| `RouteGenerator.AccuracyScales` | src/lib/routing/routeGenerator.ts:110-111 | with a positive target, accuracy × target is 100 × the final distance |
| `RouteGenerator.SnapReportsBounded` | src/lib/routing/routeSnapper.ts:43-87 | snapToRoads' reports lie in [10, 95] and never decrease |
| `RouteGenerator.RescaledBounds` | src/lib/routing/routeGenerator.ts:73-77 | mapping ordered sub-step reports through base + p/100·span keeps them ordered and inside the mapped bounds |
| `RouteGenerator.FinishProgress` | src/lib/routing/routeGenerator.ts:86-113 | the reports after snapping run 85, then optimiser reports mapped to 85–95, 98 and 100, never decreasing |
| `RouteGenerator.GenerateProgress` | src/lib/routing/routeGenerator.ts:50-113 | generateRoute's reports start 5, 10, never decrease, stay in [5, 100] and end with 100 on success; when snapping throws none passes 80 |
| `RouteGenerator.FinishOutcome` | src/lib/routing/routeGenerator.ts:86-132 | after snapping the route is returned with the drawing, projection and target echoed; the final route keeps every snapped point in order; its distance is its path length and the accuracy its share of the target (100 for a non-positive target); with optimisation off it is the snapped route and no call is made |
| `RouteGenerator.FinishKeepsRoute` | src/lib/routing/routeGenerator.ts:88-105 | the optimised route keeps every snapped point in order; without optimisation it is the snapped route |
| `RouteGenerator.FinishMeasures` | src/lib/routing/routeGenerator.ts:108-111 | the reported distance is calculatePathDistance of the final route and the accuracy its percentage of the target |
| `RouteGenerator.GenerateOutcome` | src/lib/routing/routeGenerator.ts:51-136 | generation returns exactly when snapping returns; a snapping error is rethrown as 'Failed to generate route: Error: …' with no further call; snapping's calls come first |
| `RouteGenerator.FinishAfterReturns` | src/lib/routing/routeGenerator.ts:86-132 | once snapping has returned, the rest of the pipeline always returns (the optimiser cannot fail it); after a throw it makes no call |
| `RouteGenerator.FinishRoute` | src/lib/routing/routeGenerator.ts:86-132 | the method returns the route, reports, calls and pauses of `FinishSpec` |
| `RouteGenerator.AfterSnap` | src/lib/routing/routeGenerator.ts:69-136 | after a snapping run whose outcome and reports it is given, the method maps the snapping reports into 10–80 and then rethrows or runs the rest of the pipeline as `AfterSnapSpec` says, numbering its provider calls on from snapping's |
| `RouteGenerator.SnapAndFinish` | src/lib/routing/routeGenerator.ts:67-136 | the method snaps by bicycle (the run `SnapRoute` describes, calls numbered on from those already made), then runs the rest of the pipeline on snapping's outcome (the run `FinishAfter` describes, calls numbered on from snapping's), and its outcome, reports and logged calls and pauses are those `GenerateFrom` joins from the two |
| `RouteGenerator.GenerateRoute` | src/lib/routing/routeGenerator.ts:35-137 | the method projects the drawing with pathToGeo, snaps the projection and runs the rest of the pipeline as `SnapAndFinish` states, so its outcome, reports, calls and pauses are those `GenerateFrom` joins |
| `RouteGenerator.ValidateAccepts` | src/lib/routing/routeGenerator.ts:142-168 | the inputs are valid exactly when there is a path of at least two points, a centre and a target in [500, 100000]; each failure gives its own message, checked in source order, and a valid answer has no message |
| `RouteGenerator.EstimateIsLinear` | src/lib/routing/routeGenerator.ts:173-185 | the estimate is 5000 + 100 ms per point + 0.2 ms per metre, 5000 for nothing, and grows with both inputs |
| `GoogleMapsUrl.GenerateGoogleMapsUrl` | src/lib/export/googleMapsUrl.ts:8-38 | a link is produced exactly for a non-empty route; an empty one throws 'Route is empty' |
| `GoogleMapsUrl.WaypointsShape` | src/lib/export/googleMapsUrl.ts:15-18 | a route of at most 9 points is used as is; a longer one is sampled down to 2–9 points; either way they start and end with the route's ends and are route points |
| `GoogleMapsUrl.GoogleMapsUrlShape` | src/lib/export/googleMapsUrl.ts:20-35 | the link is the fixed prefix, origin = the route's first point, destination = its last, walking mode, followed by '&waypoints=' and the bar-joined intermediate points exactly when there is at least one (at most 7) |
| `GoogleMapsUrl.SinglePointUrl` | src/lib/export/googleMapsUrl.ts:20-28 | a one-point route links from that point to itself with no waypoints |
| `GoogleMapsUrl.SplitJoin` | src/lib/export/googleMapsUrl.ts:31-33 | parts without a vertical bar joined with a vertical bar split back into the same parts |
| `GoogleMapsUrl.WaypointsRoundTrip` | src/lib/export/googleMapsUrl.ts:30-34 | when coordinates print without a vertical bar, the waypoints parameter splits back into exactly the intermediate coordinates, in order |
| `GoogleMapsUrl.ShareableIgnoresNameAndDistance` | src/lib/export/googleMapsUrl.ts:51-63 | the shareable link is the Google Maps link and does not depend on the name or the distance |
| `GoogleMapsUrl.EstimateUrlLength` | src/lib/export/googleMapsUrl.ts:139-142 | the estimate is the length of the link, and it throws exactly for an empty route |
| `GoogleMapsUrl.ValidateRouteForUrlCases` | src/lib/export/googleMapsUrl.ts:147-170 | valid exactly for two or more points; 'No route to export' for none, 'Route must have at least 2 points' for one; a valid route carries the simplification warning exactly when its link is longer than 2000 characters |
| `GpxGenerator.ReplaceAllAppend` | src/lib/export/gpxGenerator.ts:74-79 | a global replace of one character distributes over concatenation |
| `GpxGenerator.EscapeXmlIsPerChar` | src/lib/export/gpxGenerator.ts:73-80 | the five chained replacements, '&' first, equal a per-character map: each special character becomes its entity, the rest are kept, and no inserted entity is escaped again |
| `GpxGenerator.EscapeXmlAppend` | src/lib/export/gpxGenerator.ts:73-80 | escaping distributes over concatenation |
| `GpxGenerator.EscapeXmlNoMarkup` | src/lib/export/gpxGenerator.ts:73-80 | escaped text contains none of < > " ' |
| `GpxGenerator.EscapeXmlRoundTrip` | src/lib/export/gpxGenerator.ts:73-80 | unescaping the five entities gives back the original text |
| `GpxGenerator.CollapseUnderscores` | src/lib/export/gpxGenerator.ts:88 | collapsing underscore runs never lengthens the text and keeps its first character |
| `GpxGenerator.SanitizeFileNameSafe` | src/lib/export/gpxGenerator.ts:85-90 | the file name uses only a–z, 0–9, '_' and '-', has no two consecutive underscores, and is no longer than the input |
| `GpxGenerator.SanitizeFixesSafe` | src/lib/export/gpxGenerator.ts:85-90 | a name that is already safe is left unchanged |
| `GpxGenerator.SanitizeIdempotent` | src/lib/export/gpxGenerator.ts:85-90 | sanitizing twice is sanitizing once |
| `GpxGenerator.TrackPoints` | src/lib/export/gpxGenerator.ts:16-24 | exactly one <trkpt> per route point, in route order, point i stamped i seconds after the clock reading |
| `GpxGenerator.TrackTimesOneSecondApart` | src/lib/export/gpxGenerator.ts:18 | with a clock that stands still, consecutive track points are exactly 1000 ms apart |
| `GpxGenerator.DescElementCases` | src/lib/export/gpxGenerator.ts:35-40 | a <desc> element with the escaped description appears exactly when the description is a non-empty string |
| `GpxGenerator.ExportAsGpxFile` | src/lib/export/gpxGenerator.ts:54-68 | an empty route throws 'Route is empty'; otherwise the file is named sanitizeFileName(name) + '.gpx' in safe characters and holds the generated document |
| `GpxGenerator.AnyOutOfRangeExists` | src/lib/export/gpxGenerator.ts:122-133 | the early-return scan finds an out-of-range point exactly when one exists |
| `GpxGenerator.ValidateRouteForExportCases` | src/lib/export/gpxGenerator.ts:109-136 | valid exactly for two or more points all within latitude [-90, 90] and longitude [-180, 180]; otherwise the error names the first failing check in source order |
| `RouteStore.ResetRouteClears` | src/store/routeStore.ts:69-77 | resetRoute clears the results, the progress, the step and the error, and keeps the input, target distance, location and generating flag |
| `RouteStore.ResetRouteIdempotent` | src/store/routeStore.ts:41-77 | resetting twice is resetting once, and the initial state is already reset |
| `RouteStore.ErrorAndInputActions` | src/store/routeStore.ts:60-68 | setError stores its message and stops generation; setInput sets the input kind and value and clears the error |
| `RouteStore.GenerationKeepsInput` | src/store/routeStore.ts:59-77 | actions other than setInput, setDistance and setUserLocation never change the input, target distance or location |
| `RouteStore.EndsWithReset` | src/store/routeStore.ts:69-77 | whatever came before, a sequence of actions ending with resetRoute leaves a cleared state |
| `RouteStore.StaysStopped` | src/store/routeStore.ts:63-68 | once generation is stopped, only setGenerating(true) starts it again |
| `RouteStore.Store.constructor` | src/store/routeStore.ts:40-57 | the store starts in the initial state: text input '', 10000 m, no location, not generating, progress 0, no results, no error |
| `RouteStore.Store.SetInputAction` | src/store/routeStore.ts:60 | the new state is the old one with setInput applied: only inputType, inputValue and error change |
| `RouteStore.Store.SetDistanceAction` | src/store/routeStore.ts:61 | only targetDistance changes |
| `RouteStore.Store.SetUserLocationAction` | src/store/routeStore.ts:62 | only userLocation changes |
| `RouteStore.Store.SetGeneratingAction` | src/store/routeStore.ts:63 | only isGenerating changes |
| `RouteStore.Store.SetProgressAction` | src/store/routeStore.ts:64 | only progress and currentStep change |
| `RouteStore.Store.SetIdealPathAction` | src/store/routeStore.ts:65 | only idealPath changes |
| `RouteStore.Store.SetGeoPathAction` | src/store/routeStore.ts:66 | only geoPath changes |
| `RouteStore.Store.SetSnappedRouteAction` | src/store/routeStore.ts:67 | snappedRoute and routeDistance change together, nothing else |
| `RouteStore.Store.SetErrorAction` | src/store/routeStore.ts:68 | only error and isGenerating (forced false) change |
| `RouteStore.Store.ResetRouteAction` | src/store/routeStore.ts:69-77 | the new state is `Reset` of the old one |
| `Distance.MetersPerDegreeLng` | src/lib/utils/distance.ts:139-141 | metres per degree of longitude, 111320·cos(latitude), is never 0 under the runtime's assumptions |
| `Distance.SumOfLegs` | src/lib/utils/distance.ts:34-44 | the sum of the first n haversine legs is non-negative and 0 for fewer than two points |
| `Distance.CalculatePathDistance` | src/lib/utils/distance.ts:34-44 | the accumulation loop returns the sum of the haversine legs `PathDistance` (0 below two points) |
| `Distance.PathDistanceSnoc` | src/lib/utils/distance.ts:39-41 | extending a path by one point adds exactly the haversine leg to it |
| `Distance.ConstantPathHasZeroDistance` | src/lib/utils/distance.ts:34-44 | a path whose points are all the same place has distance 0 |

## Left out

- StrokeMerger.MergeStrokes: requires that no stroke is empty once there are two or more; on an empty stroke the source reads `.x` of `undefined` and throws a TypeError, which is not modelled.
- StrokeMerger.MergeStrokesLoop: same precondition as StrokeMerger.MergeStrokes, for the same reason.
- Segmentation.ExtractKeyPoints: excludes an empty path together with a negative maximum, where the source returns a sequence holding `undefined`.
- Segmentation.ExtractKeyPointsLoop: same precondition as Segmentation.ExtractKeyPoints.
- Segmentation.SamplePointsByDistance: excludes an empty path together with a negative point count, where the source returns `undefined` entries.
- Segmentation.SamplePointsByDistanceLoop: same precondition as Segmentation.SamplePointsByDistance.
- GridPathGenerator.SnapToBlockGrid: a block size of 0 is excluded; the source divides by it and produces NaN or Infinity.
- GridPathGenerator.GenerateGridArtPath: a block size of 0 is excluded for the same reason.
- StrokeOptimizer.OptimizeStrokeOrder: requires distinct stroke ids and non-empty strokes; with a repeated id the source's loop never ends, and an empty stroke makes it read `undefined`.
- PathSimplifier.SimplifyPath: requires a non-negative tolerance, which the recursion's termination argument needs; the source's callers pass only non-negative tolerances.
- DistanceOptimizer.AddLoopsSplices: the splice shape is stated only for at most three loops, the value `generateRoute` passes.
- GridPathGenerator.EstimateBlockSize: the in-place `Array.prototype.sort` of leg lengths is modelled as a value (an insertion sort on a sequence), so the update in place is not captured.
- JavaScript numbers are modelled as mathematical reals. NaN, Infinity, rounding error and the exact output of `toFixed` are out of scope. Number formatting, `toISOString` and the clock are parameters (`GpxGenerator.Formatting`, `show` in `GoogleMapsUrl`).
- Distance.Primitives: `Math.cos`, `Math.sin`, `Math.atan2`, `Math.hypot`, haversine, bearing and destination point are opaque fields of a value, not formulas. `Lawful()` assumes two facts the real functions do not have exactly: `cos` of a latitude is never 0, and `hypot` is 0 only for the null step.
- PathToGeo.Rotated: rotation uses the `cos`/`sin` fields of `Distance.Primitives`. Only the fact that the centre stays fixed is stated. The trigonometric identities of rotation are not modelled.
- Normalizer's `rotatePath` and geometry's `angleRadians`/`angleDegrees` are left out: they are only `Math.cos`, `Math.sin` and `Math.atan2` applied to the coordinates.
- Distance's `toRadians`, `toDegrees` and `formatDistance` are left out: they are unit conversions folded into the trigonometric fields, and `toFixed` text formatting. `metersPerDegreeLat` is the constant `Distance.MetersPerDegree`.
- `getSupportedCharacters` is `AnalogDigits.SupportedCharacters`. The stroke optimiser's private `pointDistance` is `Normalizer.Distance2D`, the `hypot` field of `Distance.Primitives` applied to the difference.
- DirectionsApi.DecodePolyline: JavaScript's 32-bit shift and bitwise-or operators wrap round for varints longer than six groups. The model uses unbounded integers, which agree with the source on every varint of at most six groups; that covers every in-range coordinate delta. `charCodeAt` is modelled on Dafny characters rather than UTF-16 code units.
- The Google Maps JavaScript SDK (`DirectionsService.route`, the response object) is represented by the provider's table of answers. Only the decoded polyline and the status are modelled.
- `setTimeout` pauses are recorded as a log of waits (`DirectionsService.Sleep`), not as elapsed time. Concurrency between requests is not modelled because the source awaits each request in turn.
- Console logging and the text of progress messages are left out. The progress percentages are kept.
- Font loading (`opentype.js`), glyph outline extraction from font files, `shapeLoader` and `uniformSample` are not part of this model: they read files or the font library.
- `generateRoute` wraps the distance optimiser in try/catch. The modelled optimiser cannot fail, so the catch branch is not modelled.
- Browser-only helpers are not part of this model: `copyToClipboard`, `openInNewTab`, `isMobileDevice`, `generateGoogleMapsAppUrl`, `generateGoogleMapsSearchUrl` and `generateRouteDescription`. They use `navigator`, `window` or `toLocaleDateString`. So are the React components, hooks and type-only files.
- Default and optional arguments are explicit parameters. The source's defaults appear as named constants.
- PathSimplifier.SimplifyPath: with tolerance 0 the source still drops exactly collinear interior points, because its `maxDistance > tolerance` test fails at distance 0 (`PathSimplifier.SimplifyDropsCollinearPoints`).
- GridPathGenerator.SimplifyGridPath: on a straight run the source keeps the second interior point. It measures the incoming step from the last kept point (`simplified[simplified.length - 1]`), so once a point is dropped the incoming step is twice the outgoing one and the next point counts as a corner. The model follows the code (`GridPathGenerator.StraightRunKeepsSecondInterior`). This is not claimed as a finding because the intent is unclear.

## Findings

| source | as written | input that shows it | evidently intended | confidence | as-written member | corrected member |
|---|---|---|---|---|---|---|
| src/lib/vectorization/analogDigits.ts:320-322 | `char in ANALOG_DIGITS` also holds for keys inherited from `Object.prototype` | `"toString"`: reported supported, yet it has no digit strokes | only the table's own digit keys are supported | not executed | `AnalogDigits.IsAnalogDigitSupportedAsWritten` | `AnalogDigits.IsAnalogDigitSupported` |
