/**
  The geometry engine of src/services/geometryUtils.js: the bounding box of a
  drawing and the dimensions derived from its entities.

  Each operation is given twice: a specification function over values
  (`BoundingBoxOf`, `Dimensions`) and the source's loops as methods
  (`CalculateBoundingBox`, `GenerateDimensions`) proved to compute it.
  The specification functions recurse from the back so that one more turn of
  a loop is one more element at the end of a specification's argument.
 */
module GeometryUtils {
  import opened JsRuntime
  import opened Entities

  // ---------------------------------------------------------------------------
  // Helpers

  function Abs(x: real): real {
    if x < 0.0 then -x else x
  }

  /** dist: the square root of the squared length (Math.pow(d, 2) is d * d). */
  function Dist(js: Numerics, p1: Point, p2: Point): real {
    js.sqrt((p2.x - p1.x) * (p2.x - p1.x) + (p2.y - p1.y) * (p2.y - p1.y))
  }

  /** mid, without the z coordinate: the point halfway between p1 and p2. */
  function Mid(p1: Point, p2: Point): (m: Point)
    ensures m.x - p1.x == p2.x - m.x && m.y - p1.y == p2.y - m.y
  {
    Point((p1.x + p2.x) / 2.0, (p1.y + p2.y) / 2.0)
  }

  /**
    getNormal: the edge direction turned a quarter to the left, divided by the
    edge length. A zero length gives NaN in the source; every caller only asks
    for edges longer than 0.01.
   */
  function GetNormal(js: Numerics, p1: Point, p2: Point): Point
    requires Dist(js, p1, p2) != 0.0
  {
    var dx, dy := p2.x - p1.x, p2.y - p1.y;
    var len := Dist(js, p1, p2);
    Point(-dy / len, dx / len)
  }

  /** arePointsEqual with its default tolerance of 0.001. */
  predicate ArePointsEqual(p1: Point, p2: Point) {
    Abs(p1.x - p2.x) < 0.001 && Abs(p1.y - p2.y) < 0.001
  }

  // ---------------------------------------------------------------------------
  // calculateBoundingBox

  /** A running bound: the source starts its minima at Infinity and its maxima at -Infinity. */
  datatype ExtReal = NegInfinity | Finite(v: real) | PosInfinity

  predicate Below(x: real, b: ExtReal) {
    b.PosInfinity? || (b.Finite? && x < b.v)
  }

  predicate Above(x: real, b: ExtReal) {
    b.NegInfinity? || (b.Finite? && x > b.v)
  }

  datatype Bounds = Bounds(minX: ExtReal, minY: ExtReal, maxX: ExtReal, maxY: ExtReal)

  const NoBounds: Bounds := Bounds(PosInfinity, PosInfinity, NegInfinity, NegInfinity)

  /** updateBounds. */
  function UpdateBounds(b: Bounds, p: Point): Bounds {
    Bounds(
      if Below(p.x, b.minX) then Finite(p.x) else b.minX,
      if Below(p.y, b.minY) then Finite(p.y) else b.minY,
      if Above(p.x, b.maxX) then Finite(p.x) else b.maxX,
      if Above(p.y, b.maxY) then Finite(p.y) else b.maxY)
  }

  /** Either nothing has been folded yet, or all four bounds are finite and ordered. */
  predicate Coherent(b: Bounds) {
    b == NoBounds ||
    (b.minX.Finite? && b.minY.Finite? && b.maxX.Finite? && b.maxY.Finite? &&
     b.minX.v <= b.maxX.v && b.minY.v <= b.maxY.v)
  }

  /** The points an entity feeds to updateBounds, in order. */
  function EntityPoints(e: Entity): seq<Point> {
    match e
    case Line(s, t) => [s, t]
    case LwPolyline(vs, _) => vs
    case Circle(c, r) => [Point(c.x - r, c.y - r), Point(c.x + r, c.y + r)]
  }

  function FedPoints(es: seq<Entity>): seq<Point> {
    if es == [] then [] else FedPoints(es[..|es| - 1]) + EntityPoints(es[|es| - 1])
  }

  function FoldBounds(b: Bounds, ps: seq<Point>): (r: Bounds)
    requires Coherent(b)
    ensures Coherent(r)
    ensures ps != [] ==> r != NoBounds
  {
    if ps == [] then b else UpdateBounds(FoldBounds(b, ps[..|ps| - 1]), ps[|ps| - 1])
  }

  datatype BoundingBox = BoundingBox(min: Point, max: Point, width: real, height: real, center: Point)

  const DefaultBox: BoundingBox := BoundingBox(Point(0.0, 0.0), Point(100.0, 100.0), 100.0, 100.0, Point(50.0, 50.0))

  /** The result object built from the four running bounds. */
  function BoxOf(b: Bounds): BoundingBox
    requires Coherent(b)
  {
    if b.minX == PosInfinity then DefaultBox
    else
      var minX, minY, maxX, maxY := b.minX.v, b.minY.v, b.maxX.v, b.maxY.v;
      BoundingBox(Point(minX, minY), Point(maxX, maxY), maxX - minX, maxY - minY,
                  Point((minX + maxX) / 2.0, (minY + maxY) / 2.0))
  }

  function BoundingBoxOf(es: seq<Entity>): BoundingBox {
    BoxOf(FoldBounds(NoBounds, FedPoints(es)))
  }

  lemma {:induction false} FoldBoundsAppend(b: Bounds, ps: seq<Point>, qs: seq<Point>)
    requires Coherent(b)
    ensures FoldBounds(b, ps + qs) == FoldBounds(FoldBounds(b, ps), qs)
  {
    if qs != [] {
      var n := |qs| - 1;
      assert (ps + qs)[..|ps + qs| - 1] == ps + qs[..n];
      assert (ps + qs)[|ps + qs| - 1] == qs[n];
      FoldBoundsAppend(b, ps, qs[..n]);
    } else {
      assert ps + qs == ps;
    }
  }

  lemma FoldBoundsSnoc(b: Bounds, ps: seq<Point>, p: Point)
    requires Coherent(b)
    ensures FoldBounds(b, ps + [p]) == UpdateBounds(FoldBounds(b, ps), p)
  {
    assert (ps + [p])[..|ps|] == ps;
  }

  /** Two calls of updateBounds in a row. */
  method FeedPair(b: Bounds, p: Point, q: Point) returns (b': Bounds)
    requires Coherent(b)
    ensures b' == FoldBounds(b, [p, q])
  {
    b' := UpdateBounds(b, p);
    assert [p][..0] == [];
    assert b' == FoldBounds(b, [p]);
    b' := UpdateBounds(b', q);
    assert [p, q][..1] == [p];
  }

  /** The forEach over a polyline's vertices. */
  method FeedVertices(b: Bounds, vs: seq<Point>) returns (b': Bounds)
    requires Coherent(b)
    ensures b' == FoldBounds(b, vs)
  {
    b' := b;
    var j := 0;
    while j < |vs|
      invariant 0 <= j <= |vs|
      invariant b' == FoldBounds(b, vs[..j])
    {
      b' := UpdateBounds(b', vs[j]);
      assert vs[..j + 1][..j] == vs[..j];
      j := j + 1;
    }
    assert vs[..j] == vs;
  }

  /** The points of one entity, fed to updateBounds in order. */
  method FeedEntity(b: Bounds, e: Entity) returns (b': Bounds)
    requires Coherent(b)
    ensures b' == FoldBounds(b, EntityPoints(e))
  {
    match e {
      case Line(s, t) =>
        b' := FeedPair(b, s, t);
      case LwPolyline(vs, _) =>
        b' := FeedVertices(b, vs);
      case Circle(c, r) =>
        var lo, hi := Point(c.x - r, c.y - r), Point(c.x + r, c.y + r);
        assert EntityPoints(e) == [lo, hi];
        b' := FeedPair(b, lo, hi);
    }
  }

  /** calculateBoundingBox: the forEach over the entities, then the result object. */
  method CalculateBoundingBox(es: seq<Entity>) returns (box: BoundingBox)
    ensures box == BoundingBoxOf(es)
  {
    var b := NoBounds;
    var k := 0;
    while k < |es|
      invariant 0 <= k <= |es|
      invariant b == FoldBounds(NoBounds, FedPoints(es[..k]))
    {
      b := FeedEntity(b, es[k]);
      assert es[..k + 1][..k] == es[..k];
      FoldBoundsAppend(NoBounds, FedPoints(es[..k]), EntityPoints(es[k]));
      k := k + 1;
    }
    assert es[..k] == es;
    box := BoxOf(b);
  }

  // ---------------------------------------------------------------------------
  // Linear dimensions

  /** The dimension pushed for an edge longer than 0.01. */
  function LinearDimension(js: Numerics, p1: Point, p2: Point): Dimension
    requires Dist(js, p1, p2) > 0.01
  {
    var length := Dist(js, p1, p2);
    Dimension(Linear, p1, p2, Some(Mid(p1, p2)), Some(GetNormal(js, p1, p2)), length, js.toFixed(length, 2))
  }

  /** The `if (length > 0.01)` test around each push. */
  function EdgeDim(js: Numerics, edge: (Point, Point)): seq<Dimension> {
    if Dist(js, edge.0, edge.1) > 0.01 then [LinearDimension(js, edge.0, edge.1)] else []
  }

  function EdgeDims(js: Numerics, edges: seq<(Point, Point)>): seq<Dimension> {
    if edges == [] then [] else EdgeDims(js, edges[..|edges| - 1]) + EdgeDim(js, edges[|edges| - 1])
  }

  /** `vertices.length - 1` edges when there is a vertex, none otherwise. */
  function EdgeCount(vs: seq<Point>): nat {
    if |vs| == 0 then 0 else |vs| - 1
  }

  /** The edges between consecutive vertices. */
  function OpenEdges(vs: seq<Point>): (r: seq<(Point, Point)>)
    ensures |r| == EdgeCount(vs)
  {
    seq(EdgeCount(vs), i requires 0 <= i < EdgeCount(vs) => (vs[i], vs[i + 1]))
  }

  /** The closing edge from the last vertex back to the first. */
  function ClosingEdge(vs: seq<Point>, closed: bool): seq<(Point, Point)> {
    if closed && |vs| > 1 then [(vs[|vs| - 1], vs[0])] else []
  }

  /** The edges the linear block measures on one entity. */
  function Edges(e: Entity): seq<(Point, Point)> {
    match e
    case Line(s, t) => [(s, t)]
    case LwPolyline(vs, closed) => OpenEdges(vs) + ClosingEdge(vs, closed)
    case Circle(_, _) => []
  }

  function LinearDims(js: Numerics, es: seq<Entity>): seq<Dimension> {
    if es == [] then [] else LinearDims(js, es[..|es| - 1]) + EdgeDims(js, Edges(es[|es| - 1]))
  }

  // ---------------------------------------------------------------------------
  // Bounding dimensions

  function BoundingDims(js: Numerics, box: BoundingBox): seq<Dimension> {
    [Dimension(Bounding, box.min, Point(box.max.x, box.min.y), Some(Point(box.center.x, box.min.y)),
               Some(Point(0.0, -1.0)), box.width, "W: " + js.toFixed(box.width, 2)),
     Dimension(Bounding, box.min, Point(box.min.x, box.max.y), Some(Point(box.min.x, box.center.y)),
               Some(Point(-1.0, 0.0)), box.height, "H: " + js.toFixed(box.height, 2))]
  }

  // ---------------------------------------------------------------------------
  // Angular dimensions

  /** The label suffix the source appends to angles (kept as the two characters it holds). */
  const DegreeSuffix: string := "\U{C2}\U{B0}"

  /** The unsigned angle at `vertex`, in degrees, folded into [0, 180] when it exceeds 180. */
  function AngleAt(js: Numerics, p1: Point, vertex: Point, p3: Point): real {
    var angleRad := js.atan2(p3.y - vertex.y, p3.x - vertex.x) - js.atan2(p1.y - vertex.y, p1.x - vertex.x);
    var angleDeg := Abs(angleRad * 180.0 / PI);
    if angleDeg > 180.0 then 360.0 - angleDeg else angleDeg
  }

  /** addAngle: one ANGULAR dimension when the angle exceeds one degree. */
  function AngleDim(js: Numerics, p1: Point, vertex: Point, p3: Point): (r: seq<Dimension>)
    ensures |r| <= 1
    ensures forall k :: 0 <= k < |r| ==> r[k].kind == Angular && 1.0 < r[k].value <= 180.0
  {
    var angleDeg := AngleAt(js, p1, vertex, p3);
    if angleDeg > 1.0 then [Dimension(Angular, p1, p3, Some(vertex), None, angleDeg, js.toFixed(angleDeg, 1) + DegreeSuffix)]
    else []
  }

  /** The sliding windows of three consecutive vertices; none wraps around. */
  function Windows(vs: seq<Point>): (r: seq<(Point, Point, Point)>)
    ensures |r| == if |vs| > 2 then |vs| - 2 else 0
  {
    seq(if |vs| > 2 then |vs| - 2 else 0, i requires 0 <= i < |vs| - 2 => (vs[i], vs[i + 1], vs[i + 2]))
  }

  function WindowAngles(js: Numerics, ws: seq<(Point, Point, Point)>): seq<Dimension> {
    if ws == [] then []
    else
      var w := ws[|ws| - 1];
      WindowAngles(js, ws[..|ws| - 1]) + AngleDim(js, w.0, w.1, w.2)
  }

  function EntityAngleDims(js: Numerics, e: Entity): seq<Dimension> {
    if e.LwPolyline? && |e.vertices| > 2 then WindowAngles(js, Windows(e.vertices)) else []
  }

  function PolylineAngleDims(js: Numerics, es: seq<Entity>): seq<Dimension> {
    if es == [] then [] else PolylineAngleDims(js, es[..|es| - 1]) + EntityAngleDims(js, es[|es| - 1])
  }

  /** `entities.filter(e => e.type === 'LINE')`. */
  function LinesOf(es: seq<Entity>): (r: seq<Entity>)
    ensures forall k :: 0 <= k < |r| ==> r[k].Line?
    ensures |r| <= |es|
  {
    if es == [] then []
    else LinesOf(es[..|es| - 1]) + (if es[|es| - 1].Line? then [es[|es| - 1]] else [])
  }

  /**
    The connectivity test of one pair of lines: the first of four endpoint
    matches, in a fixed priority, gives the two far ends and the shared point.
   */
  function PairCorner(l1: Entity, l2: Entity): Option<(Point, Point, Point)>
    requires l1.Line? && l2.Line?
  {
    if ArePointsEqual(l1.end, l2.start) then Some((l1.start, l1.end, l2.end))
    else if ArePointsEqual(l1.start, l2.end) then Some((l1.end, l1.start, l2.start))
    else if ArePointsEqual(l1.end, l2.end) then Some((l1.start, l1.end, l2.start))
    else if ArePointsEqual(l1.start, l2.start) then Some((l1.end, l1.start, l2.end))
    else None
  }

  /** The angle at the shared point of a connected pair of lines. */
  function PairAngle(js: Numerics, l1: Entity, l2: Entity): seq<Dimension>
    requires l1.Line? && l2.Line?
  {
    match PairCorner(l1, l2)
    case Some((p1, vertex, p3)) => AngleDim(js, p1, vertex, p3)
    case None => []
  }

  predicate AllLines(ls: seq<Entity>) {
    forall k :: 0 <= k < |ls| ==> ls[k].Line?
  }

  /** The inner loop: the pairs (i, j) with i < j < m. */
  function PairRow(js: Numerics, ls: seq<Entity>, i: nat, m: nat): seq<Dimension>
    requires AllLines(ls) && i < |ls| && m <= |ls|
  {
    if m <= i + 1 then [] else PairRow(js, ls, i, m - 1) + PairAngle(js, ls[i], ls[m - 1])
  }

  /** The outer loop: the rows i < n. */
  function PairRows(js: Numerics, ls: seq<Entity>, n: nat): seq<Dimension>
    requires AllLines(ls) && n <= |ls|
  {
    if n == 0 then [] else PairRows(js, ls, n - 1) + PairRow(js, ls, n - 1, |ls|)
  }

  function LineAngleDims(js: Numerics, es: seq<Entity>): seq<Dimension> {
    var ls := LinesOf(es);
    PairRows(js, ls, |ls|)
  }

  // ---------------------------------------------------------------------------
  // Radius dimensions

  /** The probe point at 45 degrees on the circle. */
  function RadiusDimension(js: Numerics, c: Point, r: real): Dimension {
    var angle := PI / 4.0;
    var edge := Point(c.x + js.cos(angle) * r, c.y + js.sin(angle) * r);
    Dimension(Radius, c, edge, Some(Point((c.x + edge.x) / 2.0, (c.y + edge.y) / 2.0)), None, r, "R" + js.toFixed(r, 2))
  }

  function EntityRadiusDims(js: Numerics, e: Entity): seq<Dimension> {
    if e.Circle? then [RadiusDimension(js, e.center, e.radius)] else []
  }

  function RadiusDims(js: Numerics, es: seq<Entity>): seq<Dimension> {
    if es == [] then [] else RadiusDims(js, es[..|es| - 1]) + EntityRadiusDims(js, es[|es| - 1])
  }

  // ---------------------------------------------------------------------------
  // generateDimensions

  /** The four blocks in the order the source pushes them, each behind its own flag. */
  function Dimensions(js: Numerics, es: seq<Entity>, cfg: DimensionConfig): seq<Dimension> {
    (if cfg.linear then LinearDims(js, es) else []) +
    (if cfg.bounding then BoundingDims(js, BoundingBoxOf(es)) else []) +
    (if cfg.angular then PolylineAngleDims(js, es) + LineAngleDims(js, es) else []) +
    (if cfg.radius then RadiusDims(js, es) else [])
  }

  lemma {:induction false} EdgeDimsAppend(js: Numerics, a: seq<(Point, Point)>, b: seq<(Point, Point)>)
    ensures EdgeDims(js, a + b) == EdgeDims(js, a) + EdgeDims(js, b)
  {
    if b != [] {
      var n := |b| - 1;
      assert (a + b)[..|a + b| - 1] == a + b[..n];
      assert (a + b)[|a + b| - 1] == b[n];
      EdgeDimsAppend(js, a, b[..n]);
    } else {
      assert a + b == a;
    }
  }

  /** The linear dimensions of one entity: a LINE's edge, or a polyline's edges and closing edge. */
  method PushEdges(js: Numerics, e: Entity, dims: seq<Dimension>) returns (dims': seq<Dimension>)
    ensures dims' == dims + EdgeDims(js, Edges(e))
  {
    dims' := dims;
    match e {
      case Line(s, t) =>
        var length := Dist(js, s, t);
        if length > 0.01 {
          dims' := dims' + [LinearDimension(js, s, t)];
        }
        assert EdgeDims(js, [(s, t)]) == EdgeDims(js, []) + EdgeDim(js, (s, t));
      case LwPolyline(vs, closed) =>
        dims' := PushOpenEdges(js, vs, dims');
        dims' := PushClosingEdge(js, vs, closed, dims');
        EdgeDimsAppend(js, OpenEdges(vs), ClosingEdge(vs, closed));
        AppendAssoc(dims, EdgeDims(js, OpenEdges(vs)), EdgeDims(js, ClosingEdge(vs, closed)));
      case Circle(_, _) =>
    }
  }

  /** The loop over consecutive vertex pairs of a polyline. */
  method PushOpenEdges(js: Numerics, vs: seq<Point>, dims: seq<Dimension>) returns (dims': seq<Dimension>)
    ensures dims' == dims + EdgeDims(js, OpenEdges(vs))
  {
    dims' := dims;
    ghost var open := OpenEdges(vs);
    var i := 0;
    while i < |vs| - 1
      invariant 0 <= i <= EdgeCount(vs)
      invariant dims' == dims + EdgeDims(js, open[..i])
    {
      var length := Dist(js, vs[i], vs[i + 1]);
      if length > 0.01 {
        dims' := dims' + [LinearDimension(js, vs[i], vs[i + 1])];
      }
      AppendAssoc(dims, EdgeDims(js, open[..i]), EdgeDim(js, open[i]));
      assert open[..i + 1][..i] == open[..i];
      i := i + 1;
    }
    assert open[..i] == open;
  }

  /** The closing edge of a closed polyline with more than one vertex. */
  method PushClosingEdge(js: Numerics, vs: seq<Point>, closed: bool, dims: seq<Dimension>) returns (dims': seq<Dimension>)
    ensures dims' == dims + EdgeDims(js, ClosingEdge(vs, closed))
  {
    dims' := dims;
    if closed && |vs| > 1 {
      var p1, p2 := vs[|vs| - 1], vs[0];
      var length := Dist(js, p1, p2);
      if length > 0.01 {
        dims' := dims' + [LinearDimension(js, p1, p2)];
      }
      assert EdgeDims(js, [(p1, p2)]) == EdgeDims(js, []) + EdgeDim(js, (p1, p2));
    }
  }

  /** Block 1: the linear dimensions, pushed onto `dims`. */
  method PushLinear(js: Numerics, es: seq<Entity>, dims: seq<Dimension>) returns (dims': seq<Dimension>)
    ensures dims' == dims + LinearDims(js, es)
  {
    dims' := dims;
    var k := 0;
    while k < |es|
      invariant 0 <= k <= |es|
      invariant dims' == dims + LinearDims(js, es[..k])
    {
      dims' := PushEdges(js, es[k], dims');
      AppendAssoc(dims, LinearDims(js, es[..k]), EdgeDims(js, Edges(es[k])));
      assert es[..k + 1][..k] == es[..k];
      k := k + 1;
    }
    assert es[..k] == es;
  }

  /** Block 2: the width and the height of the bounding box. */
  method PushBounding(js: Numerics, es: seq<Entity>, dims: seq<Dimension>) returns (dims': seq<Dimension>)
    ensures dims' == dims + BoundingDims(js, BoundingBoxOf(es))
  {
    var bbox := CalculateBoundingBox(es);
    dims' := dims + [Dimension(Bounding, bbox.min, Point(bbox.max.x, bbox.min.y), Some(Point(bbox.center.x, bbox.min.y)),
                               Some(Point(0.0, -1.0)), bbox.width, "W: " + js.toFixed(bbox.width, 2))];
    dims' := dims' + [Dimension(Bounding, bbox.min, Point(bbox.min.x, bbox.max.y), Some(Point(bbox.min.x, bbox.center.y)),
                                Some(Point(-1.0, 0.0)), bbox.height, "H: " + js.toFixed(bbox.height, 2))];
  }

  /** addAngle, pushing onto `dims`. */
  method AddAngle(js: Numerics, dims: seq<Dimension>, p1: Point, vertex: Point, p3: Point) returns (dims': seq<Dimension>)
    ensures dims' == dims + AngleDim(js, p1, vertex, p3)
  {
    var angleRad := js.atan2(p3.y - vertex.y, p3.x - vertex.x) - js.atan2(p1.y - vertex.y, p1.x - vertex.x);
    var angleDeg := Abs(angleRad * 180.0 / PI);
    if angleDeg > 180.0 {
      angleDeg := 360.0 - angleDeg;
    }
    dims' := dims;
    if angleDeg > 1.0 {
      dims' := dims' + [Dimension(Angular, p1, p3, Some(vertex), None, angleDeg, js.toFixed(angleDeg, 1) + DegreeSuffix)];
    }
  }

  /** The angles of one polyline's windows of three consecutive vertices. */
  method PushWindows(js: Numerics, vs: seq<Point>, dims: seq<Dimension>) returns (dims': seq<Dimension>)
    requires |vs| > 2
    ensures dims' == dims + WindowAngles(js, Windows(vs))
  {
    ghost var ws := Windows(vs);
    dims' := dims;
    var i := 0;
    while i < |vs| - 2
      invariant 0 <= i <= |vs| - 2
      invariant dims' == dims + WindowAngles(js, ws[..i])
    {
      dims' := AddAngle(js, dims', vs[i], vs[i + 1], vs[i + 2]);
      assert ws[i] == (vs[i], vs[i + 1], vs[i + 2]);
      AppendAssoc(dims, WindowAngles(js, ws[..i]), AngleDim(js, vs[i], vs[i + 1], vs[i + 2]));
      assert ws[..i + 1][..i] == ws[..i];
      i := i + 1;
    }
    assert ws[..i] == ws;
  }

  lemma PolylineAnglesExtend(js: Numerics, es: seq<Entity>, k: nat, dims: seq<Dimension>, d: seq<Dimension>)
    requires k < |es| && d == dims + PolylineAngleDims(js, es[..k])
    ensures d + EntityAngleDims(js, es[k]) == dims + PolylineAngleDims(js, es[..k + 1])
  {
    AppendAssoc(dims, PolylineAngleDims(js, es[..k]), EntityAngleDims(js, es[k]));
    assert es[..k + 1][..k] == es[..k];
  }

  /** One entity of block 3a: the angles of a polyline with more than two vertices. */
  method PushEntityAngles(js: Numerics, ent: Entity, dims: seq<Dimension>) returns (dims': seq<Dimension>)
    ensures dims' == dims + EntityAngleDims(js, ent)
  {
    dims' := dims;
    if ent.LwPolyline? && |ent.vertices| > 2 {
      dims' := PushWindows(js, ent.vertices, dims');
    }
  }

  /** Block 3a: the angles of consecutive polyline vertices. */
  method PushPolylineAngles(js: Numerics, es: seq<Entity>, dims: seq<Dimension>) returns (dims': seq<Dimension>)
    ensures dims' == dims + PolylineAngleDims(js, es)
  {
    dims' := dims;
    var k := 0;
    while k < |es|
      invariant 0 <= k <= |es|
      invariant dims' == dims + PolylineAngleDims(js, es[..k])
    {
      PolylineAnglesExtend(js, es, k, dims, dims');
      dims' := PushEntityAngles(js, es[k], dims');
      k := k + 1;
    }
    assert es[..k] == es;
  }

  /** The filter of the LINE entities. */
  method FilterLines(es: seq<Entity>) returns (ls: seq<Entity>)
    ensures ls == LinesOf(es)
  {
    ls := [];
    var k := 0;
    while k < |es|
      invariant 0 <= k <= |es|
      invariant ls == LinesOf(es[..k])
    {
      if es[k].Line? {
        ls := ls + [es[k]];
      }
      assert es[..k + 1][..k] == es[..k];
      k := k + 1;
    }
    assert es[..k] == es;
  }

  /** The body of the pair loop for lines i and j. */
  method ConnectPair(js: Numerics, dims: seq<Dimension>, l1: Entity, l2: Entity) returns (dims': seq<Dimension>)
    requires l1.Line? && l2.Line?
    ensures dims' == dims + PairAngle(js, l1, l2)
  {
    dims' := dims;
    if ArePointsEqual(l1.end, l2.start) {
      dims' := AddAngle(js, dims, l1.start, l1.end, l2.end);
    } else if ArePointsEqual(l1.start, l2.end) {
      dims' := AddAngle(js, dims, l1.end, l1.start, l2.start);
    } else if ArePointsEqual(l1.end, l2.end) {
      dims' := AddAngle(js, dims, l1.start, l1.end, l2.start);
    } else if ArePointsEqual(l1.start, l2.start) {
      dims' := AddAngle(js, dims, l1.end, l1.start, l2.end);
    }
  }

  lemma RowExtend(js: Numerics, lines: seq<Entity>, i: nat, j: nat, dims: seq<Dimension>, d: seq<Dimension>)
    requires AllLines(lines) && i < j < |lines| && d == dims + PairRow(js, lines, i, j)
    ensures d + PairAngle(js, lines[i], lines[j]) == dims + PairRow(js, lines, i, j + 1)
  {
    AppendAssoc(dims, PairRow(js, lines, i, j), PairAngle(js, lines[i], lines[j]));
  }

  /** One turn of the inner loop: the pair (i, j) extends the row so far. */
  method ConnectNext(js: Numerics, lines: seq<Entity>, i: nat, j: nat, dims: seq<Dimension>, row: seq<Dimension>) returns (row': seq<Dimension>)
    requires AllLines(lines) && i < j < |lines| && row == dims + PairRow(js, lines, i, j)
    ensures row' == dims + PairRow(js, lines, i, j + 1)
  {
    RowExtend(js, lines, i, j, dims, row);
    row' := ConnectPair(js, row, lines[i], lines[j]);
  }

  /** The inner loop of block 3b: line i against every later line. */
  method PushRow(js: Numerics, lines: seq<Entity>, i: nat, dims: seq<Dimension>) returns (dims': seq<Dimension>)
    requires AllLines(lines) && i < |lines|
    ensures dims' == dims + PairRow(js, lines, i, |lines|)
  {
    dims' := dims;
    var n := |lines|;
    var j := i + 1;
    while j < n
      invariant i + 1 <= j <= n
      invariant dims' == dims + PairRow(js, lines, i, j)
    {
      dims' := ConnectNext(js, lines, i, j, dims, dims');
      j := j + 1;
    }
  }

  lemma RowsExtend(js: Numerics, lines: seq<Entity>, i: nat, dims: seq<Dimension>, d: seq<Dimension>)
    requires AllLines(lines) && i < |lines| && d == dims + PairRows(js, lines, i)
    ensures d + PairRow(js, lines, i, |lines|) == dims + PairRows(js, lines, i + 1)
  {
    AppendAssoc(dims, PairRows(js, lines, i), PairRow(js, lines, i, |lines|));
  }

  /** Block 3b: the angles between connected lines, over the pairs i < j. */
  method PushLineAngles(js: Numerics, es: seq<Entity>, dims: seq<Dimension>) returns (dims': seq<Dimension>)
    ensures dims' == dims + LineAngleDims(js, es)
  {
    var lines := FilterLines(es);
    dims' := dims;
    var i := 0;
    while i < |lines|
      invariant 0 <= i <= |lines|
      invariant dims' == dims + PairRows(js, lines, i)
    {
      RowsExtend(js, lines, i, dims, dims');
      dims' := PushRow(js, lines, i, dims');
      i := i + 1;
    }
  }

  /** Block 4: one radius per circle. */
  method PushRadius(js: Numerics, es: seq<Entity>, dims: seq<Dimension>) returns (dims': seq<Dimension>)
    ensures dims' == dims + RadiusDims(js, es)
  {
    dims' := dims;
    var k := 0;
    while k < |es|
      invariant 0 <= k <= |es|
      invariant dims' == dims + RadiusDims(js, es[..k])
    {
      ghost var before := dims';
      if es[k].Circle? {
        dims' := dims' + [RadiusDimension(js, es[k].center, es[k].radius)];
      }
      assert dims' == before + EntityRadiusDims(js, es[k]);
      AppendAssoc(dims, RadiusDims(js, es[..k]), EntityRadiusDims(js, es[k]));
      assert es[..k + 1][..k] == es[..k];
      assert RadiusDims(js, es[..k + 1]) == RadiusDims(js, es[..k]) + EntityRadiusDims(js, es[k]);
      k := k + 1;
    }
    assert es[..k] == es;
  }

  /** generateDimensions. */
  method GenerateDimensions(js: Numerics, es: seq<Entity>, cfg: DimensionConfig) returns (dims: seq<Dimension>)
    ensures dims == Dimensions(js, es, cfg)
  {
    ghost var linear := if cfg.linear then LinearDims(js, es) else [];
    ghost var bounding := if cfg.bounding then BoundingDims(js, BoundingBoxOf(es)) else [];
    ghost var angular := if cfg.angular then PolylineAngleDims(js, es) + LineAngleDims(js, es) else [];
    ghost var radius := if cfg.radius then RadiusDims(js, es) else [];
    dims := [];
    if cfg.linear {
      dims := PushLinear(js, es, dims);
    }
    assert dims == linear;
    if cfg.bounding {
      dims := PushBounding(js, es, dims);
    }
    assert dims == linear + bounding;
    if cfg.angular {
      dims := PushPolylineAngles(js, es, dims);
      dims := PushLineAngles(js, es, dims);
      AppendAssoc(linear + bounding, PolylineAngleDims(js, es), LineAngleDims(js, es));
    }
    assert dims == linear + bounding + angular;
    if cfg.radius {
      dims := PushRadius(js, es, dims);
    }
    assert dims == linear + bounding + angular + radius;
  }
}
