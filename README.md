# DXF pipeline of cad-ai-viewer, modelled in Dafny

The services of cad-ai-viewer form a three-stage pipeline:

- `parseDXF` decodes DXF text into LINE, polyline and CIRCLE entities;
- `calculateBoundingBox` and `generateDimensions` derive a bounding box and
  LINEAR, BOUNDING, ANGULAR and RADIUS dimension records from the entities;
- `generateDXF` writes the entities and the dimensions back out as AutoCAD R12
  (AC1009) DXF text.

This project models each stage in the form the source has and proves what the
source promises about it.

- `js_runtime.dfy` (module `JsRuntime`): the JavaScript runtime the services
  use. `trim` and the line `split` are modelled exactly, and so are
  `parseInt(s, 10)` and the decimal text of integers. The floating-point
  operations are a record of uninterpreted functions, `Numerics`:
  `Math.sqrt`, `Math.atan2`, `Math.cos`, `Math.sin`, `toFixed`, the text of a
  number, and `parseFloat`. A lemma that needs a fact about one of them takes
  it as a precondition: `Atan2Bounded`, `SqrtExact`, `ShowPrintable`, or one
  of the read-back predicates of `RoundTrip`. Coordinates are `real`.
- `entities.dfy` (module `Entities`): points, entities, dimension records and
  the dimension toggles. A dimension's midpoint is optional: the geometry
  always sets it, and the writer tests for it.
- `dxf_parser.dfy` (module `DxfParser`): the decoder. `Step`, `Run`, `Finish`
  and `Decode` are its specification over values; the state is the section
  flag, the current entity and the R12 polyline flag. `ParseDXF` is the
  source's cursor loop over mutable `EntityRecord` objects, proved to compute
  `Decode`. The source pushes objects by reference, so an object can sit in
  the result array and still be changed. The specification tracks this with
  `Slot`: an entry is `Live` while its object is still `currentEntity`, and it
  is `Frozen` once the decoder moves on.
- `dxf_parser_properties.dfy`: what the decoder commits, when, in what order,
  and how each property code patches the entity.
- `geometry_utils.dfy` (module `GeometryUtils`): the geometry helpers, the
  bounding-box fold and the four dimension blocks. Each block is a
  specification function plus the source's loop as a method proved against
  it. `CalculateBoundingBox` and `GenerateDimensions` compose these.
- `bounding_box_properties.dfy` and `dimension_properties.dfy`: containment,
  tightness, counts, values, gating and ordering of the results.
- `dxf_writer.dfy` (module `DxfWriter`): the encoder. Records are sequences of
  (code, value) `Group`s, and `Render` turns them into text with a `"\n"`
  after every line. `GenerateDXF` is the source's accumulation of one output
  string, proved equal to `Render(DxfGroups(..))`.
- `dxf_writer_properties.dfy`: the fixed file frame, and the layers, colors
  and keywords of every record.
- `round_trip.dfy` (module `RoundTrip`): decoding the writer's output for a
  list of entities and no dimensions.

The two sides differ on purpose:

- the writer's dummy (0, 0) polyline anchor comes back as a first vertex;
- a zero-radius circle fails the decoder's validity test.

## Model

| member | source | states |
|---|---|---|
| JsRuntime.TrimStartShape | src/services/dxfParser.js:15-16 | trimming the front leaves a suffix of the text that does not start with whitespace, and every character removed is whitespace |
| JsRuntime.TrimEndShape | src/services/dxfParser.js:15-16 | trimming the back leaves a prefix of the text that does not end with whitespace, and every character removed is whitespace |
| JsRuntime.TrimOfWhitespaceFree | src/services/dxfParser.js:15-16 | trim leaves text without whitespace unchanged |
| JsRuntime.TrimPrintable | src/services/dxfParser.js:15-16 | trim leaves a non-empty whitespace-free value unchanged |
| JsRuntime.SplitLines | src/services/dxfParser.js:5 | splitting on line breaks always yields at least one line |
| JsRuntime.SplitLineThenRest | src/services/dxfParser.js:5 | a line without breaks followed by "\n" splits off as exactly that line, in front of the split of the rest |
| JsRuntime.SplitJoinLines | src/services/dxfParser.js:5 | splitting the text made of break-free lines, each followed by "\n", gives those lines back plus one trailing empty line |
| JsRuntime.ParseIntOfIntToString | src/services/dxfParser.js:103 | parseInt with radix 10 reads back the decimal text of every integer, negatives included |
| JsRuntime.IntToStringPrintable | src/services/dxfWriter.js:45 | the decimal text of an integer color is non-empty and has no whitespace |
| JsRuntime.NatToStringValue | src/services/dxfWriter.js:45 | the digits written for a natural number have that number as their value |
| DxfParser.Decode | src/services/dxfParser.js:4-145 | the specification of parseDXF on the split lines. It has no contract of its own: `ParseDXF` is proved to compute it, and `DecodeWithoutEntities`, `RunExtends` and `LegacyWithoutSeqEnd` state its properties |
| DxfParser.Boundary | src/services/dxfParser.js:36-79 | the code-0 branch keeps the state well formed (only the current entity is aliased) and never changes the section flag. `BoundaryCommits`, `StrayVertexKeepsAlias`, `LegacyBoundary` and `BoundaryExtends` state what it commits |
| DxfParser.WithProperty | src/services/dxfParser.js:80-126 | the property rules. No contract of its own; `PolylineVertexCodes` and `ClosedFlag` state its effect, and `EntityRecord.SetProperty` is proved to follow it |
| DxfParser.Apply | src/services/dxfParser.js:31-128 | one ordinary pair keeps the state well formed. `OutsideEntitiesIgnored` and `EndsecClosesSection` state its other effects |
| DxfParser.Run | src/services/dxfParser.js:14-131 | the whole loop keeps the state well formed; `RunExtends` and `RunWithoutEntities` state its effect on the array |
| DxfParser.Finish | src/services/dxfParser.js:133-145 | the final commit and the array's values. No contract of its own; `FinishCommits` states it and `CommitLast` is proved to follow it |
| DxfParser.Step | src/services/dxfParser.js:14-131 | one turn of the loop moves the cursor by exactly 2 or 4 lines (so the loop terminates) and keeps the state well formed (only the current entity is aliased) |
| DxfParser.EntityRecord.constructor | src/services/dxfParser.js:67-75 | a new entity object has the given type and the blank value of that type |
| DxfParser.EntityRecord.SetProperty | src/services/dxfParser.js:80-126 | patching the object in place gives the value the property rules compute from its old value, and its type is unchanged |
| DxfParser.EntityBoundary | src/services/dxfParser.js:36-79 | the code-0 branch, on objects: the new current object is the old one or fresh, the array stays linked to its description, and the new state is the specification's boundary step |
| DxfParser.PatchCurrent | src/services/dxfParser.js:80-126 | patching the current object changes no other entry of the entities array |
| DxfParser.ApplyPair | src/services/dxfParser.js:31-128 | one ordinary pair on the objects has the effect of the specification's `Apply` |
| DxfParser.ReadPair | src/services/dxfParser.js:14-131 | one turn of the loop on the objects gives the specification's `Step`: the same new cursor and the same new state |
| DxfParser.CommitLast | src/services/dxfParser.js:133-145 | the commit after the loop and the entity values of the array are the specification's `Finish` |
| DxfParser.ParseDXF | src/services/dxfParser.js:4-145 | parseDXF returns exactly `Decode` of the split lines |
| DxfParserProperties.SkipPair | src/services/dxfParser.js:18-21 | a pair whose code or value is empty or missing only moves the cursor by two and changes no state |
| DxfParserProperties.OutsideEntitiesIgnored | src/services/dxfParser.js:35 | outside the ENTITIES section an ordinary pair changes nothing |
| DxfParserProperties.EndsecClosesSection | src/services/dxfParser.js:31-33 | `0 ENDSEC` closes the section and changes nothing else |
| DxfParserProperties.RunWithoutEntities | src/services/dxfParser.js:23-35 | with the section closed and no later line reading ENTITIES, the rest of the loop changes nothing |
| DxfParserProperties.DecodeWithoutEntities | src/services/dxfParser.js:23-35 | text in which no line reads ENTITIES decodes to no entities |
| DxfParserProperties.ResolveRetarget | src/services/dxfParser.js:65-78 | reassigning currentEntity keeps the values already in the entities array |
| DxfParserProperties.ResolvePush | src/services/dxfParser.js:55-63 | pushing the current entity appends exactly its value |
| DxfParserProperties.ResolveCommit | src/services/dxfParser.js:55-63 | the commit step appends the current entity exactly when no R12 polyline is open and the entity is valid: any LINE, a polyline with a vertex, a CIRCLE with a non-zero radius |
| DxfParserProperties.BoundaryCommits | src/services/dxfParser.js:53-79 | outside an R12 polyline, a boundary for any type other than VERTEX or SEQEND commits the valid current entity. It then starts the entity named by the type, or none for an unknown type, and opens the polyline flag exactly for POLYLINE |
| DxfParserProperties.StrayVertexKeepsAlias | src/services/dxfParser.js:76-78 | a VERTEX or SEQEND outside an R12 polyline commits the current entity but keeps it current, so the pushed entry stays aliased (Live) |
| DxfParserProperties.LegacyBoundary | src/services/dxfParser.js:41-52 | inside an R12 polyline, VERTEX changes nothing, and SEQEND pushes a polyline with no vertex-count check and clears both the entity and the flag. Any other boundary commits nothing and keeps the flag |
| DxfParserProperties.FinishCommits | src/services/dxfParser.js:133-142 | the final commit appends the valid current entity unless an R12 polyline is open |
| DxfParserProperties.PolylineVertexCodes | src/services/dxfParser.js:94-114 | on a polyline, code 10 appends one vertex with y = 0. Code 20 sets only the last vertex's y, and is ignored when there is no vertex |
| DxfParserProperties.ClosedBitOfInteger | src/services/dxfParser.js:103-104 | the closed bit of a written integer flag is the flag's parity |
| DxfParserProperties.ClosedFlag | src/services/dxfParser.js:102-118 | on an LWPOLYLINE code 70 sets closed to bit 0 of the flag, and can clear it. On an R12 polyline it can only set closed to true |
| DxfParserProperties.BoundaryExtends | src/services/dxfParser.js:36-79 | a boundary never removes or reorders the array: committed entries keep their position and frozen values |
| DxfParserProperties.StepExtends | src/services/dxfParser.js:14-131 | the same for one turn of the loop |
| DxfParserProperties.RunExtends | src/services/dxfParser.js:14-131 | the same for the whole loop, so entities appear in the order their records occur |
| DxfParserProperties.LegacyBoundaryKeeps | src/services/dxfParser.js:41-79 | inside an R12 polyline, a boundary other than SEQEND leaves the array as it is and the flag set |
| DxfParserProperties.LegacyStepKeeps | src/services/dxfParser.js:14-131 | the same for a turn of the loop whose value line is not SEQEND |
| DxfParserProperties.LegacyWithoutSeqEnd | src/services/dxfParser.js:133-142 | once a POLYLINE is open and no SEQEND follows, nothing more is ever committed: the result is the entities committed before it |
| DxfParserProperties.StrayVertexZeroCircle | src/services/dxfParser.js:53-80 | a circle committed by a stray VERTEX is still patched afterwards: read inside an ENTITIES section, the pairs `0 CIRCLE, 40 5, 0 VERTEX, 40 0` give a circle of radius 0 |
| DxfParserProperties.SeqEndEmptyPolyline | src/services/dxfParser.js:45-52 | read inside an ENTITIES section, the pairs `0 POLYLINE, 0 SEQEND` give a polyline without vertices |
| DxfParserProperties.StrayVertexRepeatsLine | src/services/dxfParser.js:53-78 | read inside an ENTITIES section, the pairs `0 LINE, 0 VERTEX, 0 VERTEX` give the same LINE three times |
| GeometryUtils.Dist | src/services/geometryUtils.js:2 | dist. No contract of its own; `DistLength` states its properties |
| GeometryUtils.GetNormal | src/services/geometryUtils.js:8-13 | getNormal, for an edge of non-zero length. No contract of its own; `NormalPerpendicular` states its properties |
| GeometryUtils.ArePointsEqual | src/services/geometryUtils.js:15-17 | arePointsEqual with tolerance 0.001. No contract of its own; `PointsEqualReflexiveSymmetric` and `PointsEqualNotTransitive` state its properties |
| GeometryUtils.UpdateBounds | src/services/geometryUtils.js:22-27 | updateBounds on the running bounds. No contract of its own; `FoldBounds`, `FoldBoundsSnoc` and `FoldBoundsTight` state what folding it does |
| GeometryUtils.BoundingBoxOf | src/services/geometryUtils.js:19-52 | the specification of calculateBoundingBox. No contract of its own; `CalculateBoundingBox` is proved to compute it, and `BoxShape`, `BoundingBoxDefault` and `BoundingBoxTight` state its properties |
| GeometryUtils.LinearDimension | src/services/geometryUtils.js:62-73 | the record of one measured edge. No contract of its own; `LinearDimensionMeaning` states it |
| GeometryUtils.BoundingDims | src/services/geometryUtils.js:115-135 | the two bounding-box records. No contract of its own; `BoundingDimsMeaning` states them |
| GeometryUtils.AngleAt | src/services/geometryUtils.js:201-207 | the folded angle of addAngle. No contract of its own; `AngleAtRange` states its range |
| GeometryUtils.PairAngle | src/services/geometryUtils.js:159-171 | the angle of one pair of lines, at the corner `PairCorner` picks. No contract of its own; `PairAngleMeaning` states the corner priority and the angle, and `LineAnglesComplete` states that it is recorded |
| GeometryUtils.RadiusDimension | src/services/geometryUtils.js:179-192 | the record of one circle. No contract of its own; `RadiusDimensionMeaning` states it |
| GeometryUtils.Dimensions | src/services/geometryUtils.js:54-198 | the specification of generateDimensions. No contract of its own; `GenerateDimensions` is proved to compute it, and `DimensionsGated` and `DimensionsHaveMidpoints` state its properties |
| GeometryUtils.Mid | src/services/geometryUtils.js:5 | the midpoint is as far from one point as from the other, on both axes |
| DimensionProperties.DistLength | src/services/geometryUtils.js:2 | dist is symmetric; with an exact square root it is non-negative and its square is the squared length |
| DimensionProperties.NormalPerpendicular | src/services/geometryUtils.js:8-13 | getNormal is perpendicular to its edge (n.x·dx + n.y·dy = 0), and with an exact square root it has unit length (n.x² + n.y² = 1) |
| DimensionProperties.PointsEqualReflexiveSymmetric | src/services/geometryUtils.js:15-17 | arePointsEqual is reflexive and symmetric |
| DimensionProperties.PointsEqualNotTransitive | src/services/geometryUtils.js:15-17 | arePointsEqual with its 0.001 tolerance is not transitive |
| GeometryUtils.FoldBounds | src/services/geometryUtils.js:20-39 | the running bounds are either still the initial infinities or all finite with min ≤ max on both axes, and any folded point makes them finite |
| GeometryUtils.FoldBoundsAppend | src/services/geometryUtils.js:29-39 | folding two runs of points one after the other is folding them together |
| GeometryUtils.FoldBoundsSnoc | src/services/geometryUtils.js:22-27 | folding one more point applies updateBounds to it |
| GeometryUtils.FeedPair | src/services/geometryUtils.js:30-37 | the two updateBounds calls of a LINE or CIRCLE fold those two points |
| GeometryUtils.FeedVertices | src/services/geometryUtils.js:34 | the forEach over the vertices folds every vertex in order |
| GeometryUtils.FeedEntity | src/services/geometryUtils.js:29-39 | one entity folds exactly its points: line ends, vertices, circle center ± radius |
| GeometryUtils.CalculateBoundingBox | src/services/geometryUtils.js:19-52 | calculateBoundingBox returns the box of the fold over every point of every entity |
| BoundingBoxProperties.FoldBoundsTight | src/services/geometryUtils.js:20-27 | the fold of a non-empty run of points encloses every point, and each bound is attained by one of them |
| BoundingBoxProperties.FedPointsOf | src/services/geometryUtils.js:29-39 | a point is folded if and only if it is a point of one of the entities |
| BoundingBoxProperties.FedPointsEmpty | src/services/geometryUtils.js:29-41 | no point is folded if and only if every entity is a polyline without vertices |
| BoundingBoxProperties.BoxShape | src/services/geometryUtils.js:45-51 | width and height are max − min and are non-negative; the center is the midpoint of min and max |
| BoundingBoxProperties.BoundingBoxDefault | src/services/geometryUtils.js:41-43 | with no point folded the result is the fixed box from (0,0) to (100,100), 100 wide and high, centered at (50,50) |
| BoundingBoxProperties.BoundingBoxTight | src/services/geometryUtils.js:19-52 | otherwise every point of every entity lies in the box, and each side of the box touches a folded point |
| BoundingBoxProperties.PointInBox | src/services/geometryUtils.js:22-38 | any line end, vertex or circle extreme lies in the box |
| BoundingBoxProperties.CircleInBox | src/services/geometryUtils.js:35-37 | a circle's center ± radius lies in the box on both axes |
| GeometryUtils.OpenEdges | src/services/geometryUtils.js:76-78 | a polyline with a vertex has one open edge fewer than it has vertices, and none without a vertex |
| GeometryUtils.AngleDim | src/services/geometryUtils.js:201-220 | addAngle pushes at most one dimension, an ANGULAR one with a value in (1, 180] |
| GeometryUtils.Windows | src/services/geometryUtils.js:141-145 | a polyline of n > 2 vertices has n − 2 windows, otherwise none |
| GeometryUtils.LinesOf | src/services/geometryUtils.js:152 | the filter keeps only LINE entities and never more than there are |
| GeometryUtils.PushEdges | src/services/geometryUtils.js:60-110 | the linear block's work on one entity appends the dimensions of that entity's edges |
| GeometryUtils.PushOpenEdges | src/services/geometryUtils.js:76-92 | the loop over consecutive vertex pairs appends the dimensions of the open edges |
| GeometryUtils.PushClosingEdge | src/services/geometryUtils.js:93-109 | a closed polyline with more than one vertex adds the dimension of the edge from its last vertex to its first |
| GeometryUtils.PushLinear | src/services/geometryUtils.js:59-112 | the linear block appends the edge dimensions of every entity, in order |
| GeometryUtils.PushBounding | src/services/geometryUtils.js:115-135 | the bounding block appends the two dimensions of the bounding box |
| GeometryUtils.AddAngle | src/services/geometryUtils.js:201-220 | addAngle appends the angle dimension of the three points, if any |
| GeometryUtils.PushWindows | src/services/geometryUtils.js:142-147 | the window loop appends the angles of every window, in order |
| GeometryUtils.PushEntityAngles | src/services/geometryUtils.js:141-148 | one entity adds its window angles exactly when it is a polyline of more than two vertices |
| GeometryUtils.PushPolylineAngles | src/services/geometryUtils.js:140-149 | the polyline pass appends the window angles of every entity, in order |
| GeometryUtils.FilterLines | src/services/geometryUtils.js:152 | the filter's result is the LINE entities in order |
| GeometryUtils.ConnectPair | src/services/geometryUtils.js:159-171 | one pair of lines appends the angle at their first matching corner, if any |
| GeometryUtils.ConnectNext | src/services/geometryUtils.js:155-172 | one turn of the inner loop adds the pair (i, j) to the row |
| GeometryUtils.PushRow | src/services/geometryUtils.js:155-172 | the inner loop appends the angles of the pairs (i, j) for every j > i |
| GeometryUtils.PushLineAngles | src/services/geometryUtils.js:152-173 | the nested loops append the angles of all pairs i < j of LINE entities, row by row |
| GeometryUtils.PushRadius | src/services/geometryUtils.js:177-195 | the radius block appends one radius dimension per circle, in order |
| GeometryUtils.GenerateDimensions | src/services/geometryUtils.js:54-198 | generateDimensions returns the linear, bounding, angular and radius blocks in that order, each behind its own flag |
| DimensionProperties.LinearDimensionMeaning | src/services/geometryUtils.js:62-73 | a linear dimension spans its edge, its value is the edge length (> 0.01) and its label is toFixed(2) of it. Its midpoint is the edge's midpoint and its normal is perpendicular to the edge |
| DimensionProperties.PolylineEdgeCount | src/services/geometryUtils.js:76-109 | a polyline of n vertices has n − 1 edges between consecutive vertices, plus a closing edge from the last to the first when closed and n > 1 |
| DimensionProperties.EdgeDimsExact | src/services/geometryUtils.js:76-109 | at most one dimension per edge, each measuring one of the edges, and every edge longer than 0.01 gets its dimension |
| DimensionProperties.LinearDimsExact | src/services/geometryUtils.js:59-112 | every linear dimension measures an edge of an entity, and every edge longer than 0.01 is measured |
| DimensionProperties.BoundingDimsMeaning | src/services/geometryUtils.js:115-135 | exactly two BOUNDING dimensions: first the width along the bottom edge with normal (0, −1) and label "W: …", then the height along the left edge with normal (−1, 0) and label "H: …" |
| DimensionProperties.AngleDimMeaning | src/services/geometryUtils.js:201-220 | an angle is recorded if and only if it exceeds one degree. The record runs from p1 to p3 with the vertex as midpoint, no normal, and the angle as its value and toFixed(1) label, so it is the record addAngle builds at its own three points (`AngleRecord`) |
| DimensionProperties.AngleAtRange | src/services/geometryUtils.js:202-207 | with atan2 in [−π, π], the folded angle lies in [0, 180] |
| DimensionProperties.WindowAnglesSound | src/services/geometryUtils.js:142-147 | the first m windows give at most m angles. Each is over one degree, is the record addAngle builds at its own points (its value is the angle they make), and sits at one of those windows |
| DimensionProperties.WindowAnglesComplete | src/services/geometryUtils.js:142-147 | conversely, every one of the first m windows whose angle exceeds one degree has its record among the results |
| DimensionProperties.PolylineAnglesSound | src/services/geometryUtils.js:140-149 | every polyline angle lies in (1, 180], is the record addAngle builds at its own points, and sits at a window of three consecutive vertices of a polyline, never wrapping around. A polyline of n > 2 vertices gives at most n − 2 angles, other polylines none |
| DimensionProperties.PolylineAnglesComplete | src/services/geometryUtils.js:140-149 | conversely, every interior vertex i + 1 of a polyline whose angle between vertices i and i + 2 exceeds one degree has that record among the results |
| DimensionProperties.PairAngleMeaning | src/services/geometryUtils.js:159-171 | a pair of lines gives at most one angle, and none when no endpoints touch within tolerance. Otherwise the corner is the first match in the order end/start, start/end, end/end, start/start. Each case gives addAngle of the two far ends around that corner, which with `AngleDimMeaning` is a record exactly when that angle exceeds one degree. The record's value is the angle at its own points and it joins the two lines |
| DimensionProperties.PairRowCount | src/services/geometryUtils.js:155-172 | the inner loop for line i gives at most one angle per later line |
| DimensionProperties.PairRowSound | src/services/geometryUtils.js:155-172 | every angle of row i lies in (1, 180], is the record addAngle builds at its own points, and joins line i with a later line |
| DimensionProperties.PairRowComplete | src/services/geometryUtils.js:155-172 | every angle of a pair (i, j) with i < j < m is in row i |
| DimensionProperties.PairRowsCount | src/services/geometryUtils.js:154-173 | the first n rows give no more angles than they have pairs |
| DimensionProperties.PairRowsSound | src/services/geometryUtils.js:154-173 | every angle of the first n rows is the record addAngle builds at its own points and joins a pair i < j |
| DimensionProperties.PairRowsComplete | src/services/geometryUtils.js:154-173 | every angle of a pair i < j with i among the first n rows is in those rows |
| DimensionProperties.LinesOfMembers | src/services/geometryUtils.js:152 | an entity is kept by the filter if and only if it is a LINE of the drawing |
| DimensionProperties.LineAnglesSound | src/services/geometryUtils.js:152-173 | L lines give at most L(L − 1)/2 angles. Each lies in (1, 180], is the record addAngle builds at its own points, and sits at a corner shared by two LINEs of the drawing |
| DimensionProperties.LineAnglesComplete | src/services/geometryUtils.js:152-173 | conversely, every pair i < j of LINE entities that touch gets the angle at its first matching corner when that angle exceeds one degree |
| DimensionProperties.RadiusDimensionMeaning | src/services/geometryUtils.js:179-192 | a radius dimension starts at the center and has the radius as value and "R" + toFixed(2) as label. Its end is the 45° probe cos/sin(π/4)·r from the center, and its midpoint lies halfway |
| DimensionProperties.RadiusDimsExact | src/services/geometryUtils.js:177-195 | exactly one radius dimension per circle, each of a circle of the drawing, and every circle has one |
| DimensionProperties.BlockKinds | src/services/geometryUtils.js:59-195 | each block emits only its own kind |
| DimensionProperties.DimensionsGated | src/services/geometryUtils.js:54-198 | a dimension of a kind appears only when that kind's flag is set, no other kind ever appears, and with the bounding flag set there are at least two dimensions |
| DxfWriter.WritePoint | src/services/dxfWriter.js:39-41 | writePoint as groups 10/20/30. No contract of its own; `VertexRoundTrip` and `CircleRoundTrip` state that its groups read back as the point |
| DxfWriter.WriteLine | src/services/dxfWriter.js:43-49 | writeLine as groups. No contract of its own; `WriteLineRecords` and `DimensionLineLayout` state its shape |
| DxfWriter.WriteText | src/services/dxfWriter.js:51-59 | writeText as groups. No contract of its own; `WriteTextRecords` and `DimensionTextLayout` state its shape |
| DxfWriter.EntityGroups | src/services/dxfWriter.js:62-84 | the records of one entity. No contract of its own; `WriteEntity` is proved to write it, and `EntityRecords`, `PolylineLayout` and `EntityRoundTrip` state its properties |
| DxfWriter.DimensionGroups | src/services/dxfWriter.js:88-117 | the records of one dimension that does not make the writer throw. No contract of its own; `WriteDimension` is proved to write it, and `DimensionRecords`, `LinearLayout`, `RadiusLayout` and `AngularLayout` state its properties |
| DxfWriter.DxfGroups | src/services/dxfWriter.js:4-124 | the whole file as groups. No contract of its own; `GenerateDXF` is proved to render it, and `FileFrame`, `FileRecords` and `RoundTrip` state its properties |
| DxfWriter.Lines | src/services/dxfWriter.js:39-59 | every record takes a code line and a value line: twice as many lines as groups |
| DxfWriter.RenderAppend | src/services/dxfWriter.js:6-121 | appending records to the output appends their text |
| DxfWriter.WriteEntity | src/services/dxfWriter.js:63-83 | one entity appends the text of its records to the output |
| DxfWriter.WriteLinearDimension | src/services/dxfWriter.js:89-109 | the LINEAR/BOUNDING branch builds the offset points, the three lines and the rotated label of the specification |
| DxfWriter.WriteDimension | src/services/dxfWriter.js:89-117 | one dimension appends the text of its records. It fails (`None`) exactly when it is a RADIUS dimension without a midpoint, whose `dim.midpoint.x` throws |
| DxfWriter.WriteEntities | src/services/dxfWriter.js:62-84 | the entity forEach appends every entity's records in input order |
| DxfWriter.WriteDimensions | src/services/dxfWriter.js:88-118 | the dimension forEach appends every dimension's records in input order, and fails exactly when one of the dimensions is a RADIUS without a midpoint |
| DxfWriter.GenerateDXF | src/services/dxfWriter.js:4-124 | generateDXF throws (`None`) exactly when a RADIUS dimension has no midpoint. Otherwise it returns the text of the prologue, the entities, the dimensions and the epilogue, in that order |
| DxfWriterProperties.WriteLineRecords | src/services/dxfWriter.js:43-49 | writeLine starts with LINE on its layer and carries a 62 color group exactly when the color is not 256 |
| DxfWriterProperties.WriteTextRecords | src/services/dxfWriter.js:51-59 | writeText is one TEXT record on its layer, without a color, whose group 1 is the label |
| DxfWriterProperties.VerticesLength | src/services/dxfWriter.js:72-75 | five groups per vertex |
| DxfWriterProperties.VerticesSlices | src/services/dxfWriter.js:72-75 | the k-th block of five groups is the k-th vertex's VERTEX record |
| DxfWriterProperties.VerticesStyled | src/services/dxfWriter.js:72-75 | the vertex records are VERTEX records on layer 0, without color |
| DxfWriterProperties.PolylineLayout | src/services/dxfWriter.js:66-78 | a polyline is a POLYLINE header with 70 = 1 exactly when closed, then one VERTEX per vertex in order, then SEQEND on layer 0 |
| DxfWriterProperties.PolylineRecords | src/services/dxfWriter.js:66-78 | a polyline's records use only POLYLINE, VERTEX and SEQEND, on layer 0, without color |
| DxfWriterProperties.CircleRecords | src/services/dxfWriter.js:79-83 | a circle is one CIRCLE record on layer 0 without color |
| DxfWriterProperties.EntityRecords | src/services/dxfWriter.js:62-84 | every original entity is written on layer 0 without a 62 group, and never as LWPOLYLINE |
| DxfWriterProperties.EntitiesRecords | src/services/dxfWriter.js:62-84 | the same for all the entities |
| DxfWriterProperties.LinearRecords | src/services/dxfWriter.js:89-109 | every record of a LINEAR or BOUNDING dimension is a LINE or a TEXT on layer DIMENSIONS, and every 62 group is color 3 (the record sequence is `LinearLayout`) |
| DxfWriterProperties.LinearLabel | src/services/dxfWriter.js:109 | the only group 1 of a linear dimension is its label |
| DxfWriterProperties.DimensionRecords | src/services/dxfWriter.js:88-117 | every writable dimension writes LINE and TEXT records on layer DIMENSIONS. Linear and bounding write the records LINE, LINE, LINE, TEXT with every color 3. A radius writes LINE, TEXT with color 1. An angular one writes a single TEXT without color, or nothing when it has no midpoint. Any other type writes nothing |
| DxfWriterProperties.RadiusRecords | src/services/dxfWriter.js:111-113 | every record of a RADIUS dimension with a midpoint is a LINE or a TEXT on layer DIMENSIONS, and every 62 group is color 1 (the record sequence is `RadiusLayout`) |
| DxfWriterProperties.AngularRecords | src/services/dxfWriter.js:115-116 | every record of an ANGULAR dimension is a TEXT on layer DIMENSIONS without a 62 group (the record sequence is `AngularLayout`) |
| DxfWriterProperties.KeywordsAppend | src/services/dxfWriter.js:88-118 | the record keywords of concatenated output are the keywords of each part, in order |
| DxfWriterProperties.DimensionLineLayout | src/services/dxfWriter.js:43-49 | a dimension-layer writeLine in a color other than 256 is one LINE record of 9 groups: layer DIMENSIONS, the color, the start as groups 10/20 and the end as groups 11/21 |
| DxfWriterProperties.DimensionTextLayout | src/services/dxfWriter.js:51-59 | a dimension-layer writeText of height 1.0 is one TEXT record of 8 groups: layer DIMENSIONS, the position as groups 10/20, height 40, the label as group 1 and the rotation as group 50 |
| DxfWriterProperties.LinearLayout | src/services/dxfWriter.js:89-109 | a LINEAR or BOUNDING dimension writes exactly the records LINE, LINE, LINE, TEXT. The dimension line runs from start + 2·normal to end + 2·normal in color 3. The extension lines run from the start and from the end to those points. The label sits at their midpoint plus the normal, turned by the text rotation |
| DxfWriterProperties.RadiusLayout | src/services/dxfWriter.js:111-113 | a RADIUS dimension with a midpoint writes exactly LINE, TEXT: the line from start to end in color 1, then the label at (midpoint.x, midpoint.y + 1) with rotation 0 |
| DxfWriterProperties.AngularLayout | src/services/dxfWriter.js:115-116 | an ANGULAR dimension without a midpoint writes nothing. With one it writes exactly one TEXT: the label at the midpoint, with rotation 0 |
| DxfWriterProperties.GeneratedDimensionsWritable | src/services/dxfWriter.js:111-113 | generateDXF never throws on the dimensions generateDimensions returns |
| DimensionProperties.DimensionsHaveMidpoints | src/services/geometryUtils.js:54-198 | every dimension generateDimensions returns carries a midpoint |
| DxfWriterProperties.DimensionsRecords | src/services/dxfWriter.js:88-118 | the same for all the dimensions |
| DxfWriterProperties.DimensionLineGeometry | src/services/dxfWriter.js:90-105 | the dimension line is the measured segment moved by twice the normal: parallel, as long, joined by the extension lines. The label sits at the segment's midpoint moved by three normals |
| DxfWriterProperties.TextRotationUpright | src/services/dxfWriter.js:106-107 | with atan2 in [−π, π] the text rotation lies in [−90, 90] or in (270, 360], so it is congruent mod 360 to an upright angle |
| DxfWriterProperties.FixedCodes | src/services/dxfWriter.js:8-36 | every group code of the prologue and the epilogue is a number |
| DxfWriterProperties.PrologueShape | src/services/dxfWriter.js:9-36 | the file opens with the HEADER section holding $ACADVER = AC1009, and the prologue ends by opening the ENTITIES section |
| DxfWriterProperties.TablesLineType | src/services/dxfWriter.js:22-24 | the TABLES section defines the line type CONTINUOUS |
| DxfWriterProperties.TablesLayers | src/services/dxfWriter.js:27-30 | the TABLES section defines the layer 0 in color 7 and the layer DIMENSIONS in color 3 |
| DxfWriterProperties.FileFrame | src/services/dxfWriter.js:4-124 | for dimensions that do not make it throw, the file is the prologue, then the entities, then the dimensions, and always ends with ENDSEC and EOF |
| DxfWriterProperties.FileRecords | src/services/dxfWriter.js:4-124 | for dimensions that do not make it throw, every group code of the file is a number, and the entities and dimensions keep their layers and colors |
| RoundTrip.FileLines | src/services/dxfParser.js:5 | splitting the written text gives the code and value lines of every group in turn, and one empty last line |
| RoundTrip.FixedNoOpener | src/services/dxfWriter.js:8-36 | the only `0 SECTION, 2 ENTITIES` in the prologue is the one at its end |
| RoundTrip.BodyNoOpener | src/services/dxfWriter.js:62-121 | no entity record or the epilogue reopens the ENTITIES section |
| RoundTrip.ReadPrologue | src/services/dxfWriter.js:8-36 | reading the prologue leaves the decoder inside the ENTITIES section with nothing committed |
| RoundTrip.EpilogueCloses | src/services/dxfWriter.js:120-121 | reading the epilogue only closes the section |
| RoundTrip.LineRoundTrip | src/services/dxfWriter.js:63-64 | a written LINE reads back as the same LINE |
| RoundTrip.CircleRoundTrip | src/services/dxfWriter.js:79-83 | a written CIRCLE reads back as itself, or is dropped when its radius is 0 |
| RoundTrip.PolylineHeaderRoundTrip | src/services/dxfWriter.js:68-70 | the POLYLINE header opens an R12 polyline that already holds the dummy (0, 0) point and the closed flag |
| RoundTrip.VertexRoundTrip | src/services/dxfWriter.js:73-74 | one VERTEX record adds its vertex to the open polyline |
| RoundTrip.VerticesRoundTrip | src/services/dxfWriter.js:72-75 | the VERTEX records add all the vertices, in order |
| RoundTrip.SeqEndRoundTrip | src/services/dxfWriter.js:77 | SEQEND commits the polyline and closes it |
| RoundTrip.PolylineRoundTrip | src/services/dxfWriter.js:66-78 | a written polyline reads back with the dummy (0, 0) vertex in front of its vertices |
| RoundTrip.EntityRoundTrip | src/services/dxfWriter.js:62-84 | one written entity reads back as described by `Recovered` |
| RoundTrip.EntitiesRoundTrip | src/services/dxfWriter.js:62-84 | all the written entities read back in order |
| RoundTrip.ReadBody | src/services/dxfWriter.js:62-121 | reading the entity records and the epilogue commits the recovered entities and closes the section |
| RoundTrip.RoundTrip | src/services/dxfWriter.js:4-124 | parseDXF of generateDXF(entities, []) gives the same LINEs, the CIRCLEs of non-zero radius, and every polyline with an extra leading (0, 0) vertex |

## Left out

- Floating point is not bit-exact. `Math.sqrt`, `Math.atan2`, `Math.cos`, `Math.sin`, `toFixed`, the text of a number and `parseFloat` are uninterpreted. The lemmas that need a fact about them take it as a precondition. NaN, the infinities and −0 are not values of the model, so the truthiness tests that would reject NaN read as tests against 0.
- Every number the writer prints is opaque text, including the constant height 1.0 and rotation 0 of `writeText`. Only the integer color of `writeLine` is written out concretely.
- RoundTrip.RoundTrip: it holds only under three preconditions. Every number is printed as non-empty text without whitespace. parseFloat reads back each coordinate and radius that is written. parseFloat reads "0.0" as 0. No function from the reals to strings is one-to-one, so reading back cannot be stated for all numbers at once.
- RoundTrip.RoundTrip: it covers files with no dimensions. Decoding the DIMENSIONS layer's LINE and TEXT records is left out: the decoder reads back dimension lines as LINEs and drops the TEXT records.
- The z coordinates are left out. The decoder's codes 30 and 31 are not read, and the `mid` z term is dropped with its operator-precedence quirk. Nothing downstream reads z.
- JavaScript's `parseInt` returns an imprecise number for digit runs beyond 2^53. The model reads the digits exactly, and takes `(flag & 1) === 1` as the parity of that integer. The 32-bit conversion keeps parity, and NaN gives false.
- The decoder's truthiness tests on `currentEntity.start`, `end` and `center` always pass, because the blank objects always carry them. They are modelled as true.
- GeometryUtils.GetNormal requires a non-zero length. The source would divide by zero, but every caller first checks that the edge is longer than 0.01.
- The exception generateDXF raises on a RADIUS dimension without a midpoint is modelled as `None`. Its message and stack are not modelled.
- The degree suffix of angle labels is kept as the two characters the source holds. Its encoding is not interpreted.
- The UI components, the file upload and download, the three.js viewer, the LLM service and the build configuration are not part of this model.
- The code is followed where the documented intent differs: invalid entities can still reach the result. A stray VERTEX or SEQEND commits the current entity but leaves it current. Later property codes then change the committed object, which can be pushed again (`StrayVertexZeroCircle`, `StrayVertexRepeatsLine`). A SEQEND pushes a polyline without checking that it has vertices (`SeqEndEmptyPolyline`).
