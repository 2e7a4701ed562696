# swim-system-js core, modelled in Dafny

This project models six pieces of the Swim JavaScript system and proves
what they promise:

- **GeoJSON to shape conversion** (`@swim/geo` `GeoJson`): the runtime
  type guards that recognise each GeoJSON object by its `type` tag, and
  the converters that turn coordinate arrays into geographic points, open
  splines (LineString), closed splines (Polygon rings), paths and sets.
  The converters fill fresh arrays in loops, carrying the previous
  position's longitude and latitude; they are modelled as methods proved
  against functions that state what they compute.
- **Paths** (`@swim/math` `PathR2`): a class holding an immutable list of
  splines and the mutable `_svgPath` cache. `split`, `subdivide` and
  `transform` copy the list into fresh arrays around one chosen spline.
  `writePath` writes the splines' texts. `toPathString` fills and reads
  the cache. `equals`, `parse` and `fromAny` are modelled too.
- **Curves** (`@swim/math` `CurveR2`): `draw` and `writePath` issue a
  curve's move before its rest, into a drawing context or a string
  output.
- **The whole-string parse driver** that `CurveR2.parse` and `PathR2.parse`
  share. It skips leading whitespace and runs an incremental parser. After
  a parser that is done it skips trailing whitespace. Leftover input turns
  any result that is not already an error into an "unexpected" error.
- **The error state of the codec's input buffer** (`@swim/codec`
  `InputBufferError`): a terminal state whose queries give fixed answers
  and whose moves lead to other error buffers.
- **Value semantics** of `GeoPoint` (bounds, containment, equality, the
  `{lng, lat}` and `[lng, lat]` forms) and of `EmLength` (the NaN-aware
  three-way comparison, equality, `pxValue`, `toString`).

JavaScript numbers are `Num = Fin(real) | NaN` (module `Numbers`), with
`===` and `<` as JavaScript defines them on NaN. Untyped values, which the
`is` guards inspect, are `JsValue` (module `JsValues`). Calls into code
outside the core become function parameters:
- a spline's own `split`, `subdivide`, `transform` and text;
- a curve's `writeMove`, `writeRest`, `drawMove` and `drawRest`;
- the concrete curve and path parsers;
- `Unicode.isWhitespace`, `Numbers.equivalent` and `Length.emUnit`;
- number-to-string conversion.

Modules: `Results`, `Numbers`, `JsValues`, `GeoPoints`, `GeoJson`, `Paths`,
`Curves`, `Outputs` (the string output and the drawing context),
`ParseDriver`, `InputBufferErrors`, `EmLengths`.

## Model

| member | source | states |
|---|---|---|
| GeoJson.Tag | swim-core-js/@swim/geo/main/GeoJson.ts:125-147 | the tag of a geometry is one of the seven geometry tags exactly when the geometry is of a known kind |
| GeoJson.PointOf | swim-core-js/@swim/geo/main/GeoJson.ts:206-209 | a position becomes the point of its elements 0 and 1 |
| GeoJson.Segments | swim-core-js/@swim/geo/main/GeoJson.ts:256-263 | n positions give n - 1 segments, segment i joining position i to position i + 1 |
| GeoJson.SplineOf | swim-core-js/@swim/geo/main/GeoJson.ts:252-267 | no positions give the empty spline; n >= 1 positions give a spline of n - 1 segments, closed or open as asked |
| GeoJson.PointsOf | swim-core-js/@swim/geo/main/GeoJson.ts:226-235 | one point per position, same count, same order |
| GeoJson.SplinesOf | swim-core-js/@swim/geo/main/GeoJson.ts:285-307 | one spline per line string or ring, same count, same order |
| GeoJson.PolygonOf | swim-core-js/@swim/geo/main/GeoJson.ts:324-346 | a Polygon's path has one closed spline per ring, in ring order |
| GeoJson.PolygonsOf | swim-core-js/@swim/geo/main/GeoJson.ts:363-391 | one path per polygon, same count, same order |
| GeoJson.CollectionShapes | swim-core-js/@swim/geo/main/GeoJson.ts:408-416 | a successful GeometryCollection conversion has one shape per geometry |
| GeoJson.FeatureShapes | swim-core-js/@swim/geo/main/GeoJson.ts:454-462 | a successful FeatureCollection conversion has one entry per feature |
| GeoJson.GeometryShape | swim-core-js/@swim/geo/main/GeoJson.ts:171-189 | a geometry whose tag is not one of the seven geometry tags throws a TypeError "[object Object]"; every geometry of a coordinate kind converts |
| GeoJson.FeatureShape | swim-core-js/@swim/geo/main/GeoJson.ts:434-437 | a Feature with null geometry gives null; a shape it gives is its geometry's shape |
| GeoJson.ObjectShape | swim-core-js/@swim/geo/main/GeoJson.ts:125-147 | `GeoJson.toShape` converts a geometry exactly when the geometry converter does, to its shape; a Feature exactly when the feature converter does, to its shape or to null; a FeatureCollection exactly when the collection converter does, to its list of entries |
| GeoJson.ToSpline | swim-core-js/@swim/geo/main/GeoJson.ts:252-267 | the loop that carries the previous longitude and latitude builds the consecutive-segment spline, or the empty spline for no positions |
| GeoJson.PointToShape | swim-core-js/@swim/geo/main/GeoJson.ts:206-209 | the point of the position's first two elements |
| GeoJson.MultiPointToShape | swim-core-js/@swim/geo/main/GeoJson.ts:226-235 | the array filled in the loop holds one point per position, in order |
| GeoJson.MultiLineStringToShape | swim-core-js/@swim/geo/main/GeoJson.ts:285-307 | the array filled in the loop holds one open spline per line string, in order |
| GeoJson.PolygonToShape | swim-core-js/@swim/geo/main/GeoJson.ts:324-346 | the array filled in the loop holds one closed spline per ring, in order |
| GeoJson.MultiPolygonToShape | swim-core-js/@swim/geo/main/GeoJson.ts:363-391 | the nested loops give one path per polygon, in order |
| GeoJson.GeometryToShape | swim-core-js/@swim/geo/main/GeoJson.ts:171-189 | dispatch on the tag, with the GeometryCollection loop recursing into each geometry and throwing on the first failure; equal to the conversion function |
| GeoJson.CollectionStep | swim-core-js/@swim/geo/main/GeoJson.ts:412-414 | after a successful i-th geometry the collection's remaining shapes are its shape followed by the rest |
| GeoJson.CollectionFailsAt | swim-core-js/@swim/geo/main/GeoJson.ts:412-414 | a failing i-th geometry makes the remaining collection fail with its error |
| GeoJson.Vertices | swim-core-js/@swim/geo/main/GeoJson.ts:256-263 | a run of segments passes through one more point than it has segments |
| GeoJson.LineStringSpline | swim-core-js/@swim/geo/main/GeoJson.ts:252-264 | n >= 1 positions give an open spline of n - 1 segments, segment i from position i to position i + 1, each starting where the previous ends |
| GeoJson.SplineVerticesRoundTrip | swim-core-js/@swim/geo/main/GeoJson.ts:256-263 | with two or more positions the spline's vertices are exactly the positions as points: only altitudes are lost |
| GeoJson.FewPositionsGiveNoSegments | swim-core-js/@swim/geo/main/GeoJson.ts:265-266 | an empty line string or ring gives the empty spline; one position gives no segment (an open empty spline, or a closed one for a ring) |
| GeoJson.PolygonRings | swim-core-js/@swim/geo/main/GeoJson.ts:324-345 | a Polygon gives a path with one closed spline per ring, in ring order, each of its ring's length minus one segments |
| GeoJson.MultiKindsPreserveOrder | swim-core-js/@swim/geo/main/GeoJson.ts:226-235 | MultiPoint, MultiLineString and MultiPolygon give sets with one member per element, in order |
| GeoJson.PointDropsAltitude | swim-core-js/@swim/geo/main/GeoJson.ts:206-209 | a Point's altitude does not reach the converted point |
| GeoJson.CollectionShapesInOrder | swim-core-js/@swim/geo/main/GeoJson.ts:408-416 | a GeometryCollection converts exactly when each geometry does, and then to their shapes in order |
| GeoJson.GeometryShapeFailsIffForeign | swim-core-js/@swim/geo/main/GeoJson.ts:171-189 | geometry conversion throws exactly when the geometry, or one nested in its collections, has a tag that is not one of the seven geometry tags, other than "Feature" and "FeatureCollection" |
| GeoJson.FeatureShapeOfGeometry | swim-core-js/@swim/geo/main/GeoJson.ts:434-437 | a Feature with null geometry converts to null, otherwise to its geometry's shape, and throws when that throws |
| GeoJson.FeatureShapesInOrder | swim-core-js/@swim/geo/main/GeoJson.ts:454-462 | a FeatureCollection converts exactly when each feature does, and then to their shapes or nulls in order |
| GeoJson.ObjectShapeDispatch | swim-core-js/@swim/geo/main/GeoJson.ts:125-147 | `GeoJson.toShape` throws for a geometry, or a Feature's geometry, exactly when it holds an unknown tag, and otherwise gives its shape; a null-geometry Feature gives null; a FeatureCollection converts exactly when each feature does, to one entry per feature, entry k being feature k's shape or null |
| GeoJson.KindIs | swim-core-js/@swim/geo/main/GeoJson.ts:196-203 | a value that passes the guard of one of the six coordinate kinds passes the geometry guard |
| GeoJson.GeometryCollectionIs | swim-core-js/@swim/geo/main/GeoJson.ts:398-405 | a value that passes the GeometryCollection guard passes the geometry guard |
| GeoJson.GeometryIs | swim-core-js/@swim/geo/main/GeoJson.ts:155-169 | a value that passes the geometry guard has a `type` that is one of the seven geometry tags |
| GeoJson.FeatureIs | swim-core-js/@swim/geo/main/GeoJson.ts:423-432 | a value that passes the Feature guard as written has a geometry that is not null |
| GeoJson.FeatureIsPerRfc | swim-core-js/@swim/geo/main/GeoJson.ts:423-432 | the corrected Feature guard accepts every value the guard as written accepts |
| GeoJson.FeatureCollectionIs | swim-core-js/@swim/geo/main/GeoJson.ts:444-451 | a value that passes the FeatureCollection guard passes neither the geometry nor the Feature guard |
| GeoJson.GeoJsonIs | swim-core-js/@swim/geo/main/GeoJson.ts:119-123 | a value that passes `GeoJson.is` is an object whose `type` is a geometry tag, "Feature" or "FeatureCollection" |
| GeoJson.GeometryIsIffSomeKind | swim-core-js/@swim/geo/main/GeoJson.ts:155-169 | the geometry guard holds exactly when one of the six coordinate-kind guards or the GeometryCollection guard holds |
| GeoJson.GuardsDisjoint | swim-core-js/@swim/geo/main/GeoJson.ts:119-123 | the geometry, Feature and FeatureCollection guards never hold together |
| GeoJson.FeatureIsRejectsNullGeometry | swim-core-js/@swim/geo/main/GeoJson.ts:424-432 | the Feature guard as written rejects a Feature with null geometry, which the corrected guard accepts and the converter turns into null |
| GeoJson.FeatureIsPerRfcExtends | swim-core-js/@swim/geo/main/GeoJson.ts:424-432 | the corrected Feature guard accepts everything the guard as written does, and beyond that only null geometries |
| Paths.SplineIndex | swim-core-js/@swim/math/main/path/PathR2.ts:97-98 | in exact arithmetic, u in [0, 1] gives an index in 0..n before clamping, and u = 1 gives n |
| Paths.Clamp | swim-core-js/@swim/math/main/path/PathR2.ts:98 | the clamp as written stays in 0..n and reaches n exactly when the index is n or more |
| Paths.ClampIntended | swim-core-js/@swim/math/main/path/PathR2.ts:98 | the corrected clamp stays in 0..n - 1 and agrees with the clamp as written below n |
| Paths.SplitSpec | swim-core-js/@swim/math/main/path/PathR2.ts:93-115 | split at k gives k + 1 and n - k splines, the ones before and after k copied, the halves of spline k at the seam; an empty path splits into two empty ones |
| Paths.SubdivideSpec | swim-core-js/@swim/math/main/path/PathR2.ts:117-136 | subdivide keeps the number of splines and every spline except the k-th, which is subdivided |
| Paths.TransformSpec | swim-core-js/@swim/math/main/path/PathR2.ts:138-150 | transform keeps the length and transforms each spline in place of itself |
| Paths.SplitAsWritten | swim-core-js/@swim/math/main/path/PathR2.ts:93-115 | split with the clamp as written throws exactly when the path is not empty and the index before clamping is n or more |
| Paths.SubdivideAsWritten | swim-core-js/@swim/math/main/path/PathR2.ts:117-136 | subdivide with the clamp as written throws exactly when the path is not empty and the index before clamping is n or more, and otherwise keeps the number of splines |
| Paths.SplitAsWrittenFailsIffAtEnd | swim-core-js/@swim/math/main/path/PathR2.ts:93-100 | split as written throws exactly when the path is not empty and the index reaches n, and otherwise agrees with the corrected split |
| Paths.SubdivideAsWrittenFailsIffAtEnd | swim-core-js/@swim/math/main/path/PathR2.ts:117-128 | subdivide as written throws exactly when the path is not empty and the index reaches n, and otherwise agrees with the corrected subdivide |
| Paths.SplitAtOneThrows | swim-core-js/@swim/math/main/path/PathR2.ts:96-100 | on a one-spline path u = 1 gives index 1, and split and subdivide as written read the undefined spline there |
| Paths.SplitRejoins | swim-core-js/@swim/math/main/path/PathR2.ts:100-110 | when a spline's halves join back into it, joining the seam of a split restores the path |
| Paths.SubdivideIdentity | swim-core-js/@swim/math/main/path/PathR2.ts:124-131 | subdividing with a subdivision that changes nothing changes nothing |
| Paths.TransformComposes | swim-core-js/@swim/math/main/path/PathR2.ts:138-150 | transforming by f and then g is transforming by their composition |
| Paths.JoinedAppend | swim-core-js/@swim/math/main/path/PathR2.ts:159-171 | the text of two spline lists one after the other is their texts one after the other |
| Paths.MemoizedTextAgrees | swim-core-js/@swim/math/main/path/PathR2.ts:162-170 | when a spline's memoized text is its standard text, the memoized branch of writePath writes what the general branch would |
| Paths.PathTextAppend | swim-core-js/@swim/math/main/path/PathR2.ts:159-171 | the path text of concatenated spline lists is the concatenation of their path texts |
| Paths.PathR2.constructor | swim-core-js/@swim/math/main/path/PathR2.ts:42-44 | a new path holds the given splines and an empty cache |
| Paths.PathR2.Valid | swim-core-js/@swim/math/main/path/PathR2.ts:173-184 | the cache is coherent: empty, or holding the path text under the standard settings |
| Paths.PathR2.IsDefined | swim-core-js/@swim/math/main/path/PathR2.ts:46-48 | a path is defined exactly when it has splines |
| Paths.PathR2.Split | swim-core-js/@swim/math/main/path/PathR2.ts:93-115 | the two loops copying into fresh arrays give the two paths of the corrected split; both are new paths with empty caches |
| Paths.PathR2.Subdivide | swim-core-js/@swim/math/main/path/PathR2.ts:117-136 | the two loops around the k-th spline give the path of the corrected subdivide; it is a new path with an empty cache |
| Paths.PathR2.Transform | swim-core-js/@swim/math/main/path/PathR2.ts:138-150 | the loop gives the path of each spline transformed, in order; it is a new path with an empty cache |
| Paths.PathR2.WritePath | swim-core-js/@swim/math/main/path/PathR2.ts:159-171 | the output gains the splines' texts in order, the memoized ones under the standard settings, and nothing else |
| Paths.PathR2.ToPathString | swim-core-js/@swim/math/main/path/PathR2.ts:173-184 | the result is always the path text under the given or the standard settings; without settings the cache is filled, or read if full; with settings it is left alone; the cache stays coherent |
| Paths.PathR2.Equals | swim-core-js/@swim/math/main/path/PathR2.ts:190-197 | equals holds only for a path, and holds for every path with equal splines |
| Paths.EqualsIsSplinesEqual | swim-core-js/@swim/math/main/path/PathR2.ts:190-197 | with a reflexive spline equality, equals holds exactly for a path with equal splines, the identity shortcut included |
| Paths.Parse | swim-core-js/@swim/math/main/path/PathR2.ts:264-279 | parse is the whole-string driver over the path parser followed by bind, and succeeds exactly when the driver ends done |
| Paths.FromAny | swim-core-js/@swim/math/main/path/PathR2.ts:250-258 | fromAny returns a path as it is, parses a string, and throws a type error for anything else |
| Paths.FromAnyCases | swim-core-js/@swim/math/main/path/PathR2.ts:250-258 | a string converts exactly when the path parser is done and only whitespace follows what it consumed |
| Curves.Draw | swim-core-js/@swim/math/main/curve/CurveR2.ts:42-45 | the context receives the move's commands, then the rest's |
| Curves.WritePath | swim-core-js/@swim/math/main/curve/CurveR2.ts:51-54 | the output gains the move's text, then the rest's, under its own settings |
| Curves.ToPathString | swim-core-js/@swim/math/main/curve/CurveR2.ts:56-60 | the path text under the given or the standard settings, beginning with the move's text |
| Outputs.StringOutput.Write | swim-core-js/@swim/math/main/curve/CurveR2.ts:51-54 | writing appends to the output's text |
| Outputs.DrawContext.Issue | swim-core-js/@swim/math/main/curve/CurveR2.ts:42-45 | issued commands are appended in order |
| ParseDriver.Lift | swim-core-js/@swim/math/main/curve/CurveR2.ts:89 | the driver keeps the parser's state, its diagnostic wrapped |
| ParseDriver.SkipWhitespace | swim-core-js/@swim/math/main/curve/CurveR2.ts:86-88 | skipping stops at the first character that is not whitespace, or the end, having passed only whitespace |
| ParseDriver.ParseWhole | swim-core-js/@swim/math/main/curve/CurveR2.ts:84-97 | a parser error is kept; a done parse holds the parser's value; an unfinished parse has consumed all input; an unexpected-input error comes from a parser that did not fail and names the character at its offset, which after a done parser is not whitespace |
| ParseDriver.Parse | swim-core-js/@swim/math/main/curve/CurveR2.ts:84-97 | the two whitespace loops and the leftover check compute the whole-string parse state |
| ParseDriver.Bind | swim-core-js/@swim/math/main/curve/CurveR2.ts:98 | bind succeeds exactly for a done parser |
| ParseDriver.DoneIff | swim-core-js/@swim/math/main/curve/CurveR2.ts:89-98 | the parse ends done with v exactly when the parser, started after the leading whitespace, is done with v and only whitespace follows what it consumed |
| ParseDriver.SkipToEnd | swim-core-js/@swim/math/main/curve/CurveR2.ts:91-93 | skipping over nothing but whitespace reaches the end |
| ParseDriver.ErrorKept | swim-core-js/@swim/math/main/curve/CurveR2.ts:95-97 | a parser error is reported as it is, never replaced by an unexpected-input error |
| ParseDriver.NoLeftoverKeepsState | swim-core-js/@swim/math/main/curve/CurveR2.ts:95-98 | with no leftover input the parser's own state is the result |
| ParseDriver.ContWithLeftoverIsUnexpected | swim-core-js/@swim/math/main/curve/CurveR2.ts:90-97 | an unfinished parser with input left over gives an unexpected-input error at the first unconsumed character, since trailing whitespace is skipped only after a done parser |
| ParseDriver.SkipAfterPrefix | swim-core-js/@swim/math/main/curve/CurveR2.ts:86-88 | skipping whitespace in a string behind a prefix ends at the same place, moved by the prefix's length |
| ParseDriver.SkipPrefixWhitespace | swim-core-js/@swim/math/main/curve/CurveR2.ts:86-88 | skipping from anywhere inside a whitespace prefix ends where skipping from its end does |
| ParseDriver.CursorAfterPrefix | swim-core-js/@swim/math/main/curve/CurveR2.ts:85-94 | behind a whitespace prefix the parser sees the same input, and where it starts, where it stops and where the cursor ends move by the prefix's length |
| ParseDriver.LeadingWhitespaceIgnored | swim-core-js/@swim/math/main/curve/CurveR2.ts:85-89 | prefixing whitespace leaves the kind of state, the value and the parser's diagnostic as they were, and moves the offset of an unexpected-input error past the prefix |
| InputBufferErrors.ErrorBuffer.IsCont | swim-core-js/@swim/codec/main/input/InputBufferError.ts:45-47 | an error buffer never continues (a constant query) |
| InputBufferErrors.ErrorBuffer.IsEmpty | swim-core-js/@swim/codec/main/input/InputBufferError.ts:49-51 | an error buffer is never empty (a constant query) |
| InputBufferErrors.ErrorBuffer.IsDone | swim-core-js/@swim/codec/main/input/InputBufferError.ts:53-55 | an error buffer is never done (a constant query) |
| InputBufferErrors.ErrorBuffer.IsError | swim-core-js/@swim/codec/main/input/InputBufferError.ts:57-59 | an error buffer is always in error (a constant query) |
| InputBufferErrors.ErrorBuffer.IsPart | swim-core-js/@swim/codec/main/input/InputBufferError.ts:61-63 | an error buffer is never partial (a constant query) |
| InputBufferErrors.ErrorBuffer.AsPart | swim-core-js/@swim/codec/main/input/InputBufferError.ts:65-67 | asPart gives the buffer itself |
| InputBufferErrors.ErrorBuffer.Index | swim-core-js/@swim/codec/main/input/InputBufferError.ts:69-71 | the index is 0 (a constant query) |
| InputBufferErrors.ErrorBuffer.Limit | swim-core-js/@swim/codec/main/input/InputBufferError.ts:82-84 | the limit is 0 (a constant query) |
| InputBufferErrors.ErrorBuffer.Capacity | swim-core-js/@swim/codec/main/input/InputBufferError.ts:95-97 | the capacity is 0 (a constant query) |
| InputBufferErrors.ErrorBuffer.Remaining | swim-core-js/@swim/codec/main/input/InputBufferError.ts:99-101 | nothing remains (a constant query) |
| InputBufferErrors.ErrorBuffer.Has | swim-core-js/@swim/codec/main/input/InputBufferError.ts:103-105 | no index holds a token (a constant query) |
| InputBufferErrors.ErrorBuffer.WithIndex | swim-core-js/@swim/codec/main/input/InputBufferError.ts:73-80 | index 0 gives the same buffer; any other gives an error buffer that differs only in its "invalid index" error |
| InputBufferErrors.ErrorBuffer.WithLimit | swim-core-js/@swim/codec/main/input/InputBufferError.ts:86-93 | limit 0 gives the same buffer; any other gives an error buffer that differs only in its "invalid limit" error |
| InputBufferErrors.ErrorBuffer.Get | swim-core-js/@swim/codec/main/input/InputBufferError.ts:107-109 | get always throws an input exception without a message |
| InputBufferErrors.ErrorBuffer.Set | swim-core-js/@swim/codec/main/input/InputBufferError.ts:111-113 | set always throws an input exception without a message |
| InputBufferErrors.ErrorBuffer.Head | swim-core-js/@swim/codec/main/input/InputBufferError.ts:115-117 | head always throws an input exception without a message |
| InputBufferErrors.ErrorBuffer.Step | swim-core-js/@swim/codec/main/input/InputBufferError.ts:119-122 | step gives an error buffer that differs only in its "error step" error, whatever the offset |
| InputBufferErrors.ErrorBuffer.Trap | swim-core-js/@swim/codec/main/input/InputBufferError.ts:124-126 | trap returns the stored error |
| InputBufferErrors.ErrorBuffer.Seek | swim-core-js/@swim/codec/main/input/InputBufferError.ts:128-131 | seek gives an error buffer that differs only in its "error seek" error, its mark kept rather than the one sought |
| InputBufferErrors.ErrorBuffer.WithId | swim-core-js/@swim/codec/main/input/InputBufferError.ts:135-137 | withId changes the id and nothing else |
| InputBufferErrors.ErrorBuffer.WithMark | swim-core-js/@swim/codec/main/input/InputBufferError.ts:141-143 | withMark changes the mark and nothing else |
| InputBufferErrors.ErrorBuffer.Offset | swim-core-js/@swim/codec/main/input/InputBufferError.ts:145-147 | the offset is the mark's |
| InputBufferErrors.ErrorBuffer.Line | swim-core-js/@swim/codec/main/input/InputBufferError.ts:149-151 | the line is the mark's |
| InputBufferErrors.ErrorBuffer.Column | swim-core-js/@swim/codec/main/input/InputBufferError.ts:153-155 | the column is the mark's |
| InputBufferErrors.ErrorBuffer.WithSettings | swim-core-js/@swim/codec/main/input/InputBufferError.ts:159-162 | withSettings changes the settings and nothing else |
| InputBufferErrors.ErrorBuffer.Clone | swim-core-js/@swim/codec/main/input/InputBufferError.ts:164-166 | clone gives the buffer itself |
| InputBufferErrors.ErrorStateIsTerminal | swim-core-js/@swim/codec/main/input/InputBufferError.ts:65-166 | after any sequence of moves the buffer is still an error buffer, its mark and id are the last ones set by withMark and withId, and the settings stay unless withSettings is used |
| InputBufferErrors.QueriesAgree | swim-core-js/@swim/codec/main/input/InputBufferError.ts:45-105 | the constant queries describe one terminal state: in error, neither continuing, empty, done nor partial, remaining = limit - index = 0 within the capacity, and no token at any index |
| InputBufferErrors.IndexAndLimitZeroOnly | swim-core-js/@swim/codec/main/input/InputBufferError.ts:73-93 | withIndex(0) and withLimit(0) return the buffer itself; any other index records an "invalid index" error and any other limit an "invalid limit" error, and the two differ |
| GeoPoints.FromInit | swim-core-js/@swim/geo/main/GeoPoint.ts:162-164 | fromInit takes lng and lat from the init |
| GeoPoints.FromTuple | swim-core-js/@swim/geo/main/GeoPoint.ts:166-168 | fromTuple takes lng from element 0 and lat from element 1 |
| GeoPoints.IsInit | swim-core-js/@swim/geo/main/GeoPoint.ts:182-189 | a GeoPoint instance is an init; a plain init is an object, never a tuple |
| GeoPoints.IsTuple | swim-core-js/@swim/geo/main/GeoPoint.ts:192-197 | a tuple is an array of exactly two numbers |
| GeoPoints.IsAny | swim-core-js/@swim/geo/main/GeoPoint.ts:200-204 | an instance passes; a plain value that passes is an object or an array |
| GeoPoints.GeoPoint.LngMin | swim-core-js/@swim/geo/main/GeoPoint.ts:56-58 | lngMin is the longitude (see BoundsCollapse) |
| GeoPoints.GeoPoint.LatMin | swim-core-js/@swim/geo/main/GeoPoint.ts:60-62 | latMin is the latitude (see BoundsCollapse) |
| GeoPoints.GeoPoint.LngMax | swim-core-js/@swim/geo/main/GeoPoint.ts:64-66 | lngMax is the longitude (see BoundsCollapse) |
| GeoPoints.GeoPoint.LatMax | swim-core-js/@swim/geo/main/GeoPoint.ts:68-70 | latMax is the latitude (see BoundsCollapse) |
| GeoPoints.GeoPoint.ContainsAt | swim-core-js/@swim/geo/main/GeoPoint.ts:75-76 | contains(lng, lat) holds exactly when both coordinates are finite and equal to the given ones |
| GeoPoints.GeoPoint.Contains | swim-core-js/@swim/geo/main/GeoPoint.ts:78-86 | a point that contains anything has finite coordinates; for a point argument contains(shape) agrees with contains(lng, lat) |
| GeoPoints.GeoPoint.ToAny | swim-core-js/@swim/geo/main/GeoPoint.ts:98-103 | fromInit of toAny gives the point back |
| GeoPoints.GeoPoint.Equals | swim-core-js/@swim/geo/main/GeoPoint.ts:125-132 | equals holds for the same object, never for a non-point, and for another point exactly when it is the same finite point |
| GeoPoints.FromAny | swim-core-js/@swim/geo/main/GeoPoint.ts:170-179 | fromAny succeeds exactly when isAny holds; it returns an instance unchanged, converts an init (tested first) by fromInit of its lng and lat, and a tuple by fromTuple of its elements 0 and 1 |
| GeoPoints.BoundsCollapse | swim-core-js/@swim/geo/main/GeoPoint.ts:56-70 | the bounding box of a point is the point: lngMin = lngMax = lng, latMin = latMax = lat |
| GeoPoints.ContainsAtIffEquals | swim-core-js/@swim/geo/main/GeoPoint.ts:74-80 | contains(lng, lat), contains(point) and equals(point) agree, and hold exactly for identical finite coordinates |
| GeoPoints.ContainsBoxIffCollapsed | swim-core-js/@swim/geo/main/GeoPoint.ts:81-83 | a point contains a well-formed box exactly when the box collapses onto it |
| GeoPoints.NaNPointContainsNothing | swim-core-js/@swim/geo/main/GeoPoint.ts:74-85 | a point with a NaN coordinate contains nothing, not even itself |
| GeoPoints.EqualsNaNOnlyByIdentity | swim-core-js/@swim/geo/main/GeoPoint.ts:125-132 | a point with a NaN longitude equals itself only by identity, not another point with the same fields |
| GeoPoints.InitRoundTrip | swim-core-js/@swim/geo/main/GeoPoint.ts:98-103 | fromInit(p.toAny()) is p, and toAny undoes fromInit |
| GeoPoints.FromAnyRoundTrip | swim-core-js/@swim/geo/main/GeoPoint.ts:170-179 | fromAny of a point's init object or of its [lng, lat] tuple gives the point back |
| GeoPoints.FromAnyRejectsTriple | swim-core-js/@swim/geo/main/GeoPoint.ts:192-197 | an array of three numbers is not a tuple, and fromAny throws for it |
| Numbers.Mul | swim-core-js/@swim/math/main/length/EmLength.ts:35 | a product is NaN exactly when a factor is |
| EmLengths.EmLength.EmValue | swim-core-js/@swim/math/main/length/EmLength.ts:38-40 | emValue is the stored value whatever the basis |
| EmLengths.EmLength.Em | swim-core-js/@swim/math/main/length/EmLength.ts:42-44 | em returns the length itself |
| EmLengths.EmLength.PxValue | swim-core-js/@swim/math/main/length/EmLength.ts:34-36 | a zero length is 0 px whatever the basis; otherwise the value times the em unit |
| EmLengths.EmLength.CompareTo | swim-core-js/@swim/math/main/length/EmLength.ts:54-61 | against a Length the result is -1, 0 or 1: -1 when this value is less, 1 when it is greater; against anything else NaN |
| EmLengths.EmLength.EquivalentTo | swim-core-js/@swim/math/main/length/EmLength.ts:63-68 | equivalentTo is false for anything that is not a length |
| EmLengths.EmLength.Equals | swim-core-js/@swim/math/main/length/EmLength.ts:70-75 | equals holds exactly for another em length whose value is the same finite number |
| EmLengths.EmLength.ToString | swim-core-js/@swim/math/main/length/EmLength.ts:86-88 | the value's text followed by "em" |
| EmLengths.CompareToNaNLast | swim-core-js/@swim/math/main/length/EmLength.ts:58 | NaN sorts after every number, and two NaNs compare as 0 |
| EmLengths.CompareToReflexiveAntisymmetric | swim-core-js/@swim/math/main/length/EmLength.ts:58 | the comparison is reflexive and antisymmetric, NaN included, and gives 0 exactly for identical values |
| EmLengths.CompareToTransitive | swim-core-js/@swim/math/main/length/EmLength.ts:58 | the comparison is transitive, so it is a total preorder with NaN last |
| EmLengths.EqualsVersusCompareTo | swim-core-js/@swim/math/main/length/EmLength.ts:70-75 | equal lengths compare as 0, but a NaN length is not equal to itself although it compares as 0; a non-EmLength is never equal |
| EmLengths.PxValueOfZero | swim-core-js/@swim/math/main/length/EmLength.ts:35 | a zero length is 0 px even for a NaN em unit, where the product would be NaN |
| EmLengths.EquivalentToIgnoresEpsilon | swim-core-js/@swim/math/main/length/EmLength.ts:63-68 | equivalentTo gives the same answer whatever epsilon is passed |

## Left out

- Floating point. Numbers are exact reals plus NaN; infinities, -0 and rounding are not modelled. This matters in `pxValue`'s product (`Numbers.Mul`) and in `PathR2`'s choice of spline index.
- The floating-point choice of the spline index from `u`, and the local parameter `v = u * n - k * l` of `split`, `subdivide` and the interpolation methods. `Paths.SplineIndex` computes `floor(u / l)` in exact arithmetic only, for the `u = 1` input of `Paths.SplitAtOneThrows`. The index before clamping is an input of `Paths.PathR2.Split` and `Paths.PathR2.Subdivide`. `v` only reaches the spline's own operation, which is a parameter.
- `interpolateX`, `interpolateY` and `interpolate` of `PathR2`. They share the clamp (and its finding below), but they only compute with floating point.
- `PathR2.draw`, `equivalentTo`, `debug`, `toString`, `toAttributeString`, the static factories and the builder.
- Paths.PathR2.Split, Paths.PathR2.Subdivide: the methods use the corrected clamp; the clamp as written is modelled by `Paths.SplitAsWritten` and `Paths.SubdivideAsWritten`.
- ParseDriver.LeadingWhitespaceIgnored: diagnostic positions are modelled only as the offset of unexpected input. In the source every diagnostic carries the input's mark (offset, line and column), so the parser's own diagnostics move with the prefix too, and a prefix holding newlines shifts lines and columns.
- GeoJson.GeometryShapeFailsIffForeign: a geometry tagged "Feature" or "FeatureCollection" inside a GeometryCollection is not modelled. The source would dispatch it to no geometry converter and throw; the model's unknown tags exclude those two names.
- Paths.PathR2.Equals: `Objects.equal` on two spline arrays is taken to compare lengths and then splines position by position with a given equality. Objects.ts is not part of this model.
- Paths.Parse, ParseDriver.Parse: the concrete curve and path parsers (CurveR2Parser.ts, PathR2Parser.ts) are not part of this model. The parser is any function of the remaining input that says how much it consumed and which state it ends in. `Parser.bind` is taken to give a done parser's value and to throw otherwise.
- ParseDriver.Parse: a string is read as `Unicode.stringInput` reads it, one character at a time. `Unicode.isWhitespace` is a parameter.
- GeoJson.GeometryShape: `GeoSpline.empty()` is taken to be the open spline without curves; GeoSpline.ts is not part of this model.
- The shape classes `GeoSegment`, `GeoSpline`, `GeoPath` and `GeoSet` are plain values holding what their constructors receive.
- GeoJSON values are typed (`Geometry`, `Feature`, `GeoJsonObject`) for the converters and untyped (`JsValue`) for the guards. The converters rely on their argument's declared type, as the source does. A coordinate array shorter than two elements is not modelled: a position always has a longitude and a latitude.
- GeoJson.GeometryShape: the message of the thrown `TypeError` is `"" + geometry`, which is "[object Object]" for a plain object. Custom `toString` methods are not modelled.
- GeoPoints.GeoPoint.Contains: `GeoShape.fromAny` is not part of this model. The argument arrives as a point or as another shape's bounding box, so the final `return false` for a value that is no shape is not modelled.
- `GeoPoint.isDefined`, `intersects`, `project`, `interpolateTo`, `equivalentTo`, `hashCode`, `debug`, `toString`, `origin` and `undefined`.
- EmLengths.EmLength.EquivalentTo: `Numbers.equivalent` is a parameter.
- EmLengths.EmLength.PxValue: `Length.emUnit(basis)` is a parameter.
- EmLengths.EmLength.ToString: JavaScript's number-to-string conversion is a parameter.
- EmLength's `units`, `toCssValue`, `hashCode`, `debug` and `zero`.
- InputBufferErrors.ErrorBuffer.WithSettings: `InputSettings.fromAny` is not part of this model; the settings arrive already converted.
- The error thrown by `get`, `set` and `head` is a fresh `InputException` without a message. Object identity of errors and buffers is not modelled.
- HostRef.ts, SyncedResponse.ts, ColorMemberAnimator.ts, Tweening.ts, SecondParser.ts, UriHostIPv4.ts, UnaryOutlet.ts, R2BoxInterpolator.ts, R2PointInterpolator.ts, recon/index.ts and SplineSuite.ts. They are outside the modelled core: network references, UI animation, float interpolation, re-exports and test registration.

## Findings

| source | as written | input that shows it | evidently intended | confidence | as-written member | corrected member |
|---|---|---|---|---|---|---|
| swim-core-js/@swim/math/main/path/PathR2.ts:98 | the spline index is clamped with `Math.min(Math.max(0, Math.floor(u / l)), n)`, so it can be `n`; `splines[n]` is undefined and calling `split` or `subdivide` on it throws a TypeError (the same clamp is at lines 59, 72, 85 and 122) | `split(1)` or `subdivide(1)` on a path of one spline: `floor(1 / 1) = 1 = n` | clamp to `n - 1`, so that `u = 1` selects the last spline | high, not executed | Paths.SplitAtOneThrows | Paths.ClampIntended |
| swim-core-js/@swim/geo/main/GeoJson.ts:424-432 | `GeoJsonFeature.is` requires `GeoJsonGeometry.is(object.geometry)`, which is false for `null` | `{type: "Feature", geometry: null, properties: null}` is rejected by `GeoJsonFeature.is` and by `GeoJson.is` | accept a null geometry, as the declared type (line 100), `GeoJsonFeature.toShape` (line 436) and section 3.2 of RFC 7946 do | high, not executed | GeoJson.FeatureIsRejectsNullGeometry | GeoJson.FeatureIsPerRfcExtends |
