/**
  What generateDimensions and its helpers in src/services/geometryUtils.js
  promise: which dimensions each block produces, what each one measures, and
  that a block switched off in the configuration contributes nothing.
 */
module DimensionProperties {
  import opened JsRuntime
  import opened Entities
  import opened GeometryUtils
  import opened BoundingBoxProperties

  // ---------------------------------------------------------------------------
  // Helpers

  /** dist is symmetric, and under an exact square root it is the Euclidean length. */
  lemma DistLength(js: Numerics, p1: Point, p2: Point)
    ensures Dist(js, p1, p2) == Dist(js, p2, p1)
    ensures SqrtExact(js) ==>
              var d := Dist(js, p1, p2);
              d >= 0.0 && d * d == (p2.x - p1.x) * (p2.x - p1.x) + (p2.y - p1.y) * (p2.y - p1.y)
  {
    var dx, dy := p2.x - p1.x, p2.y - p1.y;
    assert (p1.x - p2.x) * (p1.x - p2.x) == dx * dx;
    assert (p1.y - p2.y) * (p1.y - p2.y) == dy * dy;
    assert dx * dx + dy * dy >= 0.0;
  }

  lemma QuarterTurnPerpendicular(dx: real, dy: real, len: real)
    requires len != 0.0
    ensures (-dy / len) * dx + (dx / len) * dy == 0.0
  {
    assert (-dy / len) * dx == -(dx * dy) / len;
    assert (dx / len) * dy == (dx * dy) / len;
  }

  lemma QuarterTurnUnit(dx: real, dy: real, len: real)
    requires len != 0.0 && len * len == dx * dx + dy * dy
    ensures (-dy / len) * (-dy / len) + (dx / len) * (dx / len) == 1.0
  {
    ScaledSquare(-dy, len);
    ScaledSquare(dx, len);
    NegSquare(dy);
    UnitSum((-dy / len) * (-dy / len), (dx / len) * (dx / len), len, (-dy) * (-dy), dx * dx);
  }

  lemma NegSquare(d: real)
    ensures (-d) * (-d) == d * d
  {
  }

  /** (d / len)^2 * len^2 = d^2. */
  lemma ScaledSquare(d: real, len: real)
    requires len != 0.0
    ensures ((d / len) * (d / len)) * (len * len) == d * d
  {
    assert (d / len) * len == d;
    assert ((d / len) * (d / len)) * (len * len) == ((d / len) * len) * ((d / len) * len);
  }

  /** Two parts that make up a non-zero square, each given as a multiple of it, sum to one. */
  lemma UnitSum(a: real, b: real, len: real, a': real, b': real)
    requires len != 0.0 && a * (len * len) == a' && b * (len * len) == b' && len * len == a' + b'
    ensures a + b == 1.0
  {
    assert (a + b - 1.0) * (len * len) == 0.0;
    assert ((a + b - 1.0) * len) * len == 0.0;
    NoZeroDivisor((a + b - 1.0) * len, len);
    NoZeroDivisor(a + b - 1.0, len);
  }

  lemma NoZeroDivisor(u: real, v: real)
    requires v != 0.0 && u * v == 0.0
    ensures u == 0.0
  {
  }

  /** getNormal is perpendicular to the edge and, with an exact square root, of unit length. */
  lemma NormalPerpendicular(js: Numerics, p1: Point, p2: Point)
    requires Dist(js, p1, p2) != 0.0
    ensures var n := GetNormal(js, p1, p2);
            n.x * (p2.x - p1.x) + n.y * (p2.y - p1.y) == 0.0
    ensures SqrtExact(js) ==> var n := GetNormal(js, p1, p2); n.x * n.x + n.y * n.y == 1.0
  {
    var dx, dy, len := p2.x - p1.x, p2.y - p1.y, Dist(js, p1, p2);
    QuarterTurnPerpendicular(dx, dy, len);
    if SqrtExact(js) {
      DistLength(js, p1, p2);
      QuarterTurnUnit(dx, dy, len);
    }
  }

  /** The point tolerance test is reflexive and symmetric ... */
  lemma PointsEqualReflexiveSymmetric(p: Point, q: Point)
    ensures ArePointsEqual(p, p)
    ensures ArePointsEqual(p, q) <==> ArePointsEqual(q, p)
  {
  }

  /** ... but not transitive: two steps of 0.0009 are each within tolerance, together they are not. */
  lemma PointsEqualNotTransitive()
    ensures ArePointsEqual(Point(0.0, 0.0), Point(0.0009, 0.0))
    ensures ArePointsEqual(Point(0.0009, 0.0), Point(0.0018, 0.0))
    ensures !ArePointsEqual(Point(0.0, 0.0), Point(0.0018, 0.0))
  {
  }

  // ---------------------------------------------------------------------------
  // Linear dimensions

  /** d is the dimension the linear block records for the edge. */
  predicate Measures(js: Numerics, d: Dimension, edge: (Point, Point)) {
    Dist(js, edge.0, edge.1) > 0.01 && d == LinearDimension(js, edge.0, edge.1)
  }

  /**
    A linear dimension spans its edge, carries the edge's length (longer than
    0.01) with a two-decimal label, sits at the edge's midpoint and has a
    normal perpendicular to the edge.
   */
  lemma LinearDimensionMeaning(js: Numerics, p1: Point, p2: Point)
    requires Dist(js, p1, p2) > 0.01
    ensures var d := LinearDimension(js, p1, p2);
            d.kind == Linear && d.start == p1 && d.end == p2 &&
            d.value == Dist(js, p1, p2) && d.value > 0.01 && d.text == js.toFixed(d.value, 2) &&
            d.midpoint == Some(Mid(p1, p2)) && d.normal.Some? &&
            d.normal.value.x * (p2.x - p1.x) + d.normal.value.y * (p2.y - p1.y) == 0.0
  {
    NormalPerpendicular(js, p1, p2);
  }

  /** A polyline of n vertices has n - 1 edges, and n when it is closed and n > 1. */
  lemma PolylineEdgeCount(vs: seq<Point>, closed: bool)
    ensures |Edges(LwPolyline(vs, closed))| == if |vs| == 0 then 0 else if closed && |vs| > 1 then |vs| else |vs| - 1
    ensures forall k :: 0 <= k < |vs| - 1 ==> Edges(LwPolyline(vs, closed))[k] == (vs[k], vs[k + 1])
    ensures closed && |vs| > 1 ==> Edges(LwPolyline(vs, closed))[|vs| - 1] == (vs[|vs| - 1], vs[0])
  {
  }

  /** The edge dimensions: at most one per edge, each measuring one of the edges, every long edge measured. */
  lemma {:induction false} EdgeDimsExact(js: Numerics, edges: seq<(Point, Point)>)
    ensures |EdgeDims(js, edges)| <= |edges|
    ensures forall d :: d in EdgeDims(js, edges) ==> exists edge :: edge in edges && Measures(js, d, edge)
    ensures forall edge :: edge in edges && Dist(js, edge.0, edge.1) > 0.01 ==>
              LinearDimension(js, edge.0, edge.1) in EdgeDims(js, edges)
  {
    if edges != [] {
      var n := |edges| - 1;
      var last := edges[n];
      assert edges == edges[..n] + [last];
      EdgeDimsExact(js, edges[..n]);
      var r := EdgeDims(js, edges);
      assert r == EdgeDims(js, edges[..n]) + EdgeDim(js, last);
      forall d | d in r ensures exists edge :: edge in edges && Measures(js, d, edge) {
        if d in EdgeDims(js, edges[..n]) {
          var edge :| edge in edges[..n] && Measures(js, d, edge);
          assert edge in edges;
        } else {
          assert last in edges && Measures(js, d, last);
        }
      }
      forall edge | edge in edges && Dist(js, edge.0, edge.1) > 0.01
        ensures LinearDimension(js, edge.0, edge.1) in r
      {
        if edge != last {
          assert edge in edges[..n];
        }
      }
    }
  }

  /** The linear block: every dimension measures an edge of some entity, and every long edge is measured. */
  lemma {:induction false} LinearDimsExact(js: Numerics, es: seq<Entity>)
    ensures forall d :: d in LinearDims(js, es) ==>
              d.kind == Linear && exists e, edge :: e in es && edge in Edges(e) && Measures(js, d, edge)
    ensures forall e, edge :: e in es && edge in Edges(e) && Dist(js, edge.0, edge.1) > 0.01 ==>
              LinearDimension(js, edge.0, edge.1) in LinearDims(js, es)
  {
    if es != [] {
      var n := |es| - 1;
      var last := es[n];
      assert es == es[..n] + [last];
      LinearDimsExact(js, es[..n]);
      EdgeDimsExact(js, Edges(last));
      var r := LinearDims(js, es);
      assert r == LinearDims(js, es[..n]) + EdgeDims(js, Edges(last));
      forall d | d in r
        ensures d.kind == Linear && exists e, edge :: e in es && edge in Edges(e) && Measures(js, d, edge)
      {
        if d in LinearDims(js, es[..n]) {
          var e, edge :| e in es[..n] && edge in Edges(e) && Measures(js, d, edge);
          assert e in es;
        } else {
          var edge :| edge in Edges(last) && Measures(js, d, edge);
          assert last in es;
        }
      }
      forall e, edge | e in es && edge in Edges(e) && Dist(js, edge.0, edge.1) > 0.01
        ensures LinearDimension(js, edge.0, edge.1) in r
      {
        if e != last {
          assert e in es[..n];
        }
      }
    }
  }

  // ---------------------------------------------------------------------------
  // Bounding dimensions

  /**
    The bounding block: a width dimension along the bottom side of the box and
    a height dimension along its left side, each as long as its value, placed
    at that side's midpoint, with an outward unit normal.
   */
  lemma BoundingDimsMeaning(js: Numerics, es: seq<Entity>)
    ensures var box := BoundingBoxOf(es);
            var ds := BoundingDims(js, box);
            |ds| == 2 && ds[0].kind == Bounding && ds[1].kind == Bounding &&
            ds[0].start == box.min && ds[0].end.y == box.min.y && ds[0].end.x - ds[0].start.x == ds[0].value == box.width &&
            ds[0].midpoint == Some(Mid(ds[0].start, ds[0].end)) && ds[0].normal == Some(Point(0.0, -1.0)) &&
            ds[0].text == "W: " + js.toFixed(box.width, 2) &&
            ds[1].start == box.min && ds[1].end.x == box.min.x && ds[1].end.y - ds[1].start.y == ds[1].value == box.height &&
            ds[1].midpoint == Some(Mid(ds[1].start, ds[1].end)) && ds[1].normal == Some(Point(-1.0, 0.0)) &&
            ds[1].text == "H: " + js.toFixed(box.height, 2)
  {
    BoxShape(es);
  }

  // ---------------------------------------------------------------------------
  // Angular dimensions

  /** An angular dimension runs from p1 to p3 with its vertex in `midpoint`, and is recorded exactly when the angle is over one degree. */
  lemma AngleDimMeaning(js: Numerics, p1: Point, vertex: Point, p3: Point)
    ensures AngleDim(js, p1, vertex, p3) != [] <==> AngleAt(js, p1, vertex, p3) > 1.0
    ensures forall d :: d in AngleDim(js, p1, vertex, p3) ==>
              d.start == p1 && d.midpoint == Some(vertex) && d.end == p3 && d.normal.None? &&
              d.value == AngleAt(js, p1, vertex, p3) && d.text == js.toFixed(d.value, 1) + DegreeSuffix
    ensures forall d :: d in AngleDim(js, p1, vertex, p3) ==> AngleRecord(js, d)
  {
  }

  /** d is the record addAngle builds for its own three points: its value is the angle they make, over one degree. */
  predicate AngleRecord(js: Numerics, d: Dimension) {
    d.midpoint.Some? && AngleDim(js, d.start, d.midpoint.value, d.end) == [d]
  }

  /** With atan2 in [-pi, pi], the folded angle lies in [0, 180]. */
  lemma AngleAtRange(js: Numerics, p1: Point, vertex: Point, p3: Point)
    requires Atan2Bounded(js)
    ensures 0.0 <= AngleAt(js, p1, vertex, p3) <= 180.0
  {
    var a3 := js.atan2(p3.y - vertex.y, p3.x - vertex.x);
    var a1 := js.atan2(p1.y - vertex.y, p1.x - vertex.x);
    assert -2.0 * PI <= a3 - a1 <= 2.0 * PI;
    assert -360.0 <= (a3 - a1) * 180.0 / PI <= 360.0;
  }

  /** An angle at vertex i + 1 of a polyline, between vertices i and i + 2. */
  predicate AtWindow(d: Dimension, vs: seq<Point>, i: int) {
    0 <= i && i + 2 < |vs| && d.start == vs[i] && d.midpoint == Some(vs[i + 1]) && d.end == vs[i + 2]
  }

  lemma {:induction false} WindowAnglesSound(js: Numerics, vs: seq<Point>, m: nat)
    requires m <= |Windows(vs)|
    ensures forall d :: d in WindowAngles(js, Windows(vs)[..m]) ==>
              d.kind == Angular && 1.0 < d.value <= 180.0 && AngleRecord(js, d) && exists i :: 0 <= i < m && AtWindow(d, vs, i)
    ensures |WindowAngles(js, Windows(vs)[..m])| <= m
  {
    if m > 0 {
      var ws := Windows(vs)[..m];
      assert ws[..m - 1] == Windows(vs)[..m - 1];
      WindowAnglesSound(js, vs, m - 1);
      var w := ws[m - 1];
      AngleDimMeaning(js, w.0, w.1, w.2);
      forall d | d in WindowAngles(js, ws)
        ensures d.kind == Angular && 1.0 < d.value <= 180.0 && AngleRecord(js, d) && exists i :: 0 <= i < m && AtWindow(d, vs, i)
      {
        if d !in WindowAngles(js, Windows(vs)[..m - 1]) {
          assert AtWindow(d, vs, m - 1);
        }
      }
    }
  }

  /**
    The polyline angles: each is measured at an interior vertex between its two
    neighbours, never across the closing edge, and a polyline of n vertices
    gives at most n - 2 of them.
   */
  lemma {:induction false} PolylineAnglesSound(js: Numerics, es: seq<Entity>)
    ensures forall d :: d in PolylineAngleDims(js, es) ==>
              d.kind == Angular && 1.0 < d.value <= 180.0 && AngleRecord(js, d) &&
              exists e, i :: e in es && e.LwPolyline? && AtWindow(d, e.vertices, i)
    ensures forall e :: e in es && e.LwPolyline? ==> |EntityAngleDims(js, e)| <= if |e.vertices| > 2 then |e.vertices| - 2 else 0
  {
    if es != [] {
      var n := |es| - 1;
      var last := es[n];
      assert es == es[..n] + [last];
      PolylineAnglesSound(js, es[..n]);
      if last.LwPolyline? && |last.vertices| > 2 {
        WindowAnglesSound(js, last.vertices, |Windows(last.vertices)|);
        assert Windows(last.vertices)[..|Windows(last.vertices)|] == Windows(last.vertices);
      }
      forall d | d in PolylineAngleDims(js, es)
        ensures d.kind == Angular && 1.0 < d.value <= 180.0 && AngleRecord(js, d) &&
                exists e, i :: e in es && e.LwPolyline? && AtWindow(d, e.vertices, i)
      {
        if d in PolylineAngleDims(js, es[..n]) {
          var e, i :| e in es[..n] && e.LwPolyline? && AtWindow(d, e.vertices, i);
          assert e in es;
        } else {
          var i :| 0 <= i < |Windows(last.vertices)| && AtWindow(d, last.vertices, i);
          assert last in es;
        }
      }
    }
  }

  /** Every one of the first m windows whose angle exceeds one degree gets its record. */
  lemma {:induction false} WindowAnglesComplete(js: Numerics, vs: seq<Point>, m: nat)
    requires m <= |Windows(vs)|
    ensures forall i :: 0 <= i < m && AngleAt(js, vs[i], vs[i + 1], vs[i + 2]) > 1.0 ==>
              AngleDim(js, vs[i], vs[i + 1], vs[i + 2])[0] in WindowAngles(js, Windows(vs)[..m])
  {
    if m > 0 {
      var ws := Windows(vs)[..m];
      assert ws[..m - 1] == Windows(vs)[..m - 1];
      WindowAnglesComplete(js, vs, m - 1);
      var w := ws[m - 1];
      assert WindowAngles(js, ws) == WindowAngles(js, ws[..m - 1]) + AngleDim(js, w.0, w.1, w.2);
      assert w == (vs[m - 1], vs[m], vs[m + 1]);
    }
  }

  /** Every interior vertex of a polyline whose angle exceeds one degree gets its record. */
  lemma {:induction false} PolylineAnglesComplete(js: Numerics, es: seq<Entity>)
    ensures forall e, i ::
              (e in es && e.LwPolyline? && 0 <= i && i + 2 < |e.vertices| &&
               AngleAt(js, e.vertices[i], e.vertices[i + 1], e.vertices[i + 2]) > 1.0) ==>
              AngleDim(js, e.vertices[i], e.vertices[i + 1], e.vertices[i + 2])[0] in PolylineAngleDims(js, es)
  {
    if es != [] {
      var n := |es| - 1;
      var last := es[n];
      assert es == es[..n] + [last];
      PolylineAnglesComplete(js, es[..n]);
      if last.LwPolyline? && |last.vertices| > 2 {
        WindowAnglesComplete(js, last.vertices, |Windows(last.vertices)|);
        assert Windows(last.vertices)[..|Windows(last.vertices)|] == Windows(last.vertices);
      }
      forall e, i | e in es && e.LwPolyline? && 0 <= i && i + 2 < |e.vertices| &&
                    AngleAt(js, e.vertices[i], e.vertices[i + 1], e.vertices[i + 2]) > 1.0
        ensures AngleDim(js, e.vertices[i], e.vertices[i + 1], e.vertices[i + 2])[0] in PolylineAngleDims(js, es)
      {
        if e !in es[..n] {
          assert e == last;
        }
      }
    }
  }

  /**
    d is the angle at a junction of l1 and l2: it runs from one endpoint of l1
    to its other endpoint (the vertex), which lies within tolerance of an
    endpoint of l2, and on to l2's other endpoint.
   */
  predicate JoinsAt(d: Dimension, l1: Entity, l2: Entity)
    requires l1.Line? && l2.Line?
  {
    d.midpoint.Some? &&
    ((d.start == l1.start && d.midpoint.value == l1.end) || (d.start == l1.end && d.midpoint.value == l1.start)) &&
    ((d.end == l2.end && ArePointsEqual(d.midpoint.value, l2.start)) || (d.end == l2.start && ArePointsEqual(d.midpoint.value, l2.end)))
  }

  /** Endpoints within tolerance of each other. */
  predicate Touch(l1: Entity, l2: Entity)
    requires l1.Line? && l2.Line?
  {
    ArePointsEqual(l1.end, l2.start) || ArePointsEqual(l1.start, l2.end) ||
    ArePointsEqual(l1.end, l2.end) || ArePointsEqual(l1.start, l2.start)
  }

  /**
    One pair of lines gives at most one angle, at a junction, and none when no
    endpoints touch. The junction is the first match in the order end/start,
    start/end, end/end, start/start, and the angle is the one addAngle finds there.
   */
  lemma PairAngleMeaning(js: Numerics, l1: Entity, l2: Entity)
    requires l1.Line? && l2.Line?
    ensures |PairAngle(js, l1, l2)| <= 1
    ensures !Touch(l1, l2) ==> PairAngle(js, l1, l2) == []
    ensures PairCorner(l1, l2).Some? <==> Touch(l1, l2)
    ensures ArePointsEqual(l1.end, l2.start) ==>
              PairAngle(js, l1, l2) == AngleDim(js, l1.start, l1.end, l2.end)
    ensures !ArePointsEqual(l1.end, l2.start) && ArePointsEqual(l1.start, l2.end) ==>
              PairAngle(js, l1, l2) == AngleDim(js, l1.end, l1.start, l2.start)
    ensures !ArePointsEqual(l1.end, l2.start) && !ArePointsEqual(l1.start, l2.end) && ArePointsEqual(l1.end, l2.end) ==>
              PairAngle(js, l1, l2) == AngleDim(js, l1.start, l1.end, l2.start)
    ensures !ArePointsEqual(l1.end, l2.start) && !ArePointsEqual(l1.start, l2.end) && !ArePointsEqual(l1.end, l2.end) &&
            ArePointsEqual(l1.start, l2.start) ==>
              PairAngle(js, l1, l2) == AngleDim(js, l1.end, l1.start, l2.end)
    ensures forall d :: d in PairAngle(js, l1, l2) ==>
              d.kind == Angular && 1.0 < d.value <= 180.0 && AngleRecord(js, d) && JoinsAt(d, l1, l2)
  {
    if ArePointsEqual(l1.end, l2.start) {
      AngleDimMeaning(js, l1.start, l1.end, l2.end);
    } else if ArePointsEqual(l1.start, l2.end) {
      AngleDimMeaning(js, l1.end, l1.start, l2.start);
    } else if ArePointsEqual(l1.end, l2.end) {
      AngleDimMeaning(js, l1.start, l1.end, l2.start);
    } else if ArePointsEqual(l1.start, l2.start) {
      AngleDimMeaning(js, l1.end, l1.start, l2.end);
    }
  }

  lemma PairAngleAtMostOne(js: Numerics, l1: Entity, l2: Entity)
    requires l1.Line? && l2.Line?
    ensures |PairAngle(js, l1, l2)| <= 1
  {
  }

  lemma {:induction false} PairRowCount(js: Numerics, ls: seq<Entity>, i: nat, m: nat)
    requires AllLines(ls) && i < |ls| && m <= |ls|
    ensures |PairRow(js, ls, i, m)| <= if m <= i + 1 then 0 else m - i - 1
    decreases m
  {
    if m > i + 1 {
      var prev := PairRow(js, ls, i, m - 1);
      var last := PairAngle(js, ls[i], ls[m - 1]);
      assert PairRow(js, ls, i, m) == prev + last;
      PairRowCount(js, ls, i, m - 1);
      PairAngleAtMostOne(js, ls[i], ls[m - 1]);
      assert |prev| <= m - i - 2;
    }
  }

  /** An angular dimension over one degree, as addAngle records it. */
  predicate IsAngle(js: Numerics, d: Dimension) {
    d.kind == Angular && 1.0 < d.value <= 180.0 && AngleRecord(js, d)
  }

  /** d is at a junction of line i of ls with a later line j < m. */
  predicate JoinedInRow(d: Dimension, ls: seq<Entity>, i: nat, m: nat)
    requires AllLines(ls) && i < |ls| && m <= |ls|
  {
    exists j :: i < j < m && JoinsAt(d, ls[i], ls[j])
  }

  /** d is at a junction of lines i < j of ls, with i < n. */
  predicate JoinedInRows(d: Dimension, ls: seq<Entity>, n: nat)
    requires AllLines(ls) && n <= |ls|
  {
    exists i, j :: 0 <= i < n && i < j < |ls| && JoinsAt(d, ls[i], ls[j])
  }

  lemma {:induction false} PairRowSound(js: Numerics, ls: seq<Entity>, i: nat, m: nat)
    requires AllLines(ls) && i < |ls| && m <= |ls|
    ensures forall d :: d in PairRow(js, ls, i, m) ==> IsAngle(js, d) && JoinedInRow(d, ls, i, m)
    decreases m
  {
    if m > i + 1 {
      var prev := PairRow(js, ls, i, m - 1);
      var last := PairAngle(js, ls[i], ls[m - 1]);
      PairRowSound(js, ls, i, m - 1);
      PairAngleMeaning(js, ls[i], ls[m - 1]);
      assert PairRow(js, ls, i, m) == prev + last;
      forall d | d in prev ensures JoinedInRow(d, ls, i, m) {
        var j :| i < j < m - 1 && JoinsAt(d, ls[i], ls[j]);
      }
      forall d | d in last ensures JoinedInRow(d, ls, i, m) {
        assert JoinsAt(d, ls[i], ls[m - 1]);
      }
    }
  }

  /** The number of pairs i < j < L with i among the first n rows. */
  function PairBudget(n: nat, L: nat): nat
    requires n <= L
  {
    if n == 0 then 0 else PairBudget(n - 1, L) + (L - n)
  }

  lemma {:induction false} PairBudgetAll(n: nat, L: nat)
    requires n <= L
    ensures 2 * PairBudget(n, L) == n * (2 * L - n - 1)
  {
    if n > 0 {
      PairBudgetAll(n - 1, L);
      assert (n - 1) * (2 * L - (n - 1) - 1) + 2 * (L - n) == n * (2 * L - n - 1);
    }
  }

  lemma {:induction false} PairRowsCount(js: Numerics, ls: seq<Entity>, n: nat)
    requires AllLines(ls) && n <= |ls|
    ensures |PairRows(js, ls, n)| <= PairBudget(n, |ls|)
  {
    if n > 0 {
      PairRowsCount(js, ls, n - 1);
      PairRowCount(js, ls, n - 1, |ls|);
    }
  }

  lemma {:induction false} PairRowsSound(js: Numerics, ls: seq<Entity>, n: nat)
    requires AllLines(ls) && n <= |ls|
    ensures forall d :: d in PairRows(js, ls, n) ==> IsAngle(js, d) && JoinedInRows(d, ls, n)
  {
    if n > 0 {
      PairRowsSound(js, ls, n - 1);
      PairRowSound(js, ls, n - 1, |ls|);
      assert PairRows(js, ls, n) == PairRows(js, ls, n - 1) + PairRow(js, ls, n - 1, |ls|);
      forall d | d in PairRows(js, ls, n) ensures IsAngle(js, d) && JoinedInRows(d, ls, n) {
        if d in PairRows(js, ls, n - 1) {
          var i, j :| 0 <= i < n - 1 && i < j < |ls| && JoinsAt(d, ls[i], ls[j]);
        } else {
          var j :| n - 1 < j < |ls| && JoinsAt(d, ls[n - 1], ls[j]);
        }
      }
    }
  }

  lemma {:induction false} PairRowComplete(js: Numerics, ls: seq<Entity>, i: nat, m: nat)
    requires AllLines(ls) && i < |ls| && m <= |ls|
    ensures forall j, d :: i < j < m && d in PairAngle(js, ls[i], ls[j]) ==> d in PairRow(js, ls, i, m)
    decreases m
  {
    if m > i + 1 {
      PairRowComplete(js, ls, i, m - 1);
      assert PairRow(js, ls, i, m) == PairRow(js, ls, i, m - 1) + PairAngle(js, ls[i], ls[m - 1]);
    }
  }

  lemma {:induction false} PairRowsComplete(js: Numerics, ls: seq<Entity>, n: nat)
    requires AllLines(ls) && n <= |ls|
    ensures forall i, j, d :: 0 <= i < n && i < j < |ls| && d in PairAngle(js, ls[i], ls[j]) ==> d in PairRows(js, ls, n)
  {
    if n > 0 {
      PairRowsComplete(js, ls, n - 1);
      PairRowComplete(js, ls, n - 1, |ls|);
      var prev, row := PairRows(js, ls, n - 1), PairRow(js, ls, n - 1, |ls|);
      assert PairRows(js, ls, n) == prev + row;
      forall i, j, d | 0 <= i < n && i < j < |ls| && d in PairAngle(js, ls[i], ls[j])
        ensures d in prev + row
      {
        if i < n - 1 {
          assert d in prev;
        } else {
          assert d in row;
        }
      }
    }
  }

  /** The LINE filter keeps exactly the lines. */
  lemma {:induction false} LinesOfMembers(es: seq<Entity>)
    ensures forall l :: l in LinesOf(es) <==> l in es && l.Line?
  {
    if es != [] {
      var n := |es| - 1;
      assert es == es[..n] + [es[n]];
      LinesOfMembers(es[..n]);
    }
  }

  /**
    The line angles: each pair of LINE entities is tested once, so there are at
    most L(L-1)/2 angles for L lines, each at a junction of two of the lines.
   */
  lemma LineAnglesSound(js: Numerics, es: seq<Entity>)
    ensures var L := |LinesOf(es)|; 2 * |LineAngleDims(js, es)| <= L * (L - 1)
    ensures forall d :: d in LineAngleDims(js, es) ==>
              d.kind == Angular && 1.0 < d.value <= 180.0 && AngleRecord(js, d) &&
              exists l1, l2 :: l1 in es && l2 in es && l1.Line? && l2.Line? && JoinsAt(d, l1, l2)
  {
    var ls := LinesOf(es);
    PairRowsCount(js, ls, |ls|);
    PairBudgetAll(|ls|, |ls|);
    PairRowsSound(js, ls, |ls|);
    LinesOfMembers(es);
    forall d | d in LineAngleDims(js, es)
      ensures exists l1, l2 :: l1 in es && l2 in es && l1.Line? && l2.Line? && JoinsAt(d, l1, l2)
    {
      assert JoinedInRows(d, ls, |ls|);
      var i, j :| 0 <= i < |ls| && i < j < |ls| && JoinsAt(d, ls[i], ls[j]);
      assert ls[i] in ls && ls[j] in ls;
    }
  }

  /**
    Every pair i < j of LINE entities that touch gets the angle at its first
    matching corner when that angle exceeds one degree.
   */
  lemma LineAnglesComplete(js: Numerics, es: seq<Entity>)
    ensures var ls := LinesOf(es);
            forall i, j :: 0 <= i < j < |ls| && PairCorner(ls[i], ls[j]).Some? ==>
              var c := PairCorner(ls[i], ls[j]).value;
              AngleAt(js, c.0, c.1, c.2) > 1.0 ==> AngleDim(js, c.0, c.1, c.2)[0] in LineAngleDims(js, es)
  {
    var ls := LinesOf(es);
    PairRowsComplete(js, ls, |ls|);
    forall i, j | 0 <= i < j < |ls| && PairCorner(ls[i], ls[j]).Some?
      ensures var c := PairCorner(ls[i], ls[j]).value;
              AngleAt(js, c.0, c.1, c.2) > 1.0 ==> AngleDim(js, c.0, c.1, c.2)[0] in LineAngleDims(js, es)
    {
      var c := PairCorner(ls[i], ls[j]).value;
      assert PairAngle(js, ls[i], ls[j]) == AngleDim(js, c.0, c.1, c.2);
    }
  }

  // ---------------------------------------------------------------------------
  // Radius dimensions

  function CircleCount(es: seq<Entity>): nat {
    if es == [] then 0 else CircleCount(es[..|es| - 1]) + (if es[|es| - 1].Circle? then 1 else 0)
  }

  /** A radius dimension runs from the center to a point of the circle's 45-degree ray, at their midpoint. */
  lemma RadiusDimensionMeaning(js: Numerics, c: Point, r: real)
    ensures var d := RadiusDimension(js, c, r);
            d.kind == Radius && d.start == c && d.value == r && d.text == "R" + js.toFixed(r, 2) &&
            d.midpoint == Some(Mid(d.start, d.end)) && d.normal.None? &&
            d.end.x - c.x == js.cos(PI / 4.0) * r && d.end.y - c.y == js.sin(PI / 4.0) * r
  {
  }

  /** The radius block: exactly one dimension per circle, each for one of the circles, every circle covered. */
  lemma {:induction false} RadiusDimsExact(js: Numerics, es: seq<Entity>)
    ensures |RadiusDims(js, es)| == CircleCount(es)
    ensures forall d :: d in RadiusDims(js, es) ==>
              exists e :: e in es && e.Circle? && d == RadiusDimension(js, e.center, e.radius)
    ensures forall e :: e in es && e.Circle? ==> RadiusDimension(js, e.center, e.radius) in RadiusDims(js, es)
  {
    if es != [] {
      var n := |es| - 1;
      var last := es[n];
      assert es == es[..n] + [last];
      RadiusDimsExact(js, es[..n]);
      forall d | d in RadiusDims(js, es)
        ensures exists e :: e in es && e.Circle? && d == RadiusDimension(js, e.center, e.radius)
      {
        if d in RadiusDims(js, es[..n]) {
          var e :| e in es[..n] && e.Circle? && d == RadiusDimension(js, e.center, e.radius);
          assert e in es;
        } else {
          assert last in es;
        }
      }
      forall e | e in es && e.Circle? ensures RadiusDimension(js, e.center, e.radius) in RadiusDims(js, es) {
        if e != last {
          assert e in es[..n];
        }
      }
    }
  }

  // ---------------------------------------------------------------------------
  // generateDimensions

  predicate OnlyKind(ds: seq<Dimension>, kind: DimensionKind) {
    forall d :: d in ds ==> d.kind == kind
  }

  lemma BlockKinds(js: Numerics, es: seq<Entity>)
    ensures OnlyKind(LinearDims(js, es), Linear)
    ensures OnlyKind(BoundingDims(js, BoundingBoxOf(es)), Bounding)
    ensures OnlyKind(PolylineAngleDims(js, es) + LineAngleDims(js, es), Angular)
    ensures OnlyKind(RadiusDims(js, es), Radius)
  {
    LinearDimsExact(js, es);
    PolylineAnglesSound(js, es);
    LineAnglesSound(js, es);
    RadiusDimsExact(js, es);
    forall d | d in RadiusDims(js, es) ensures d.kind == Radius {
      var e :| e in es && e.Circle? && d == RadiusDimension(js, e.center, e.radius);
    }
  }

  /** A dimension kind appears only when its block is switched on; the bounding block always gives two. */
  lemma DimensionsGated(js: Numerics, es: seq<Entity>, cfg: DimensionConfig)
    ensures forall d :: d in Dimensions(js, es, cfg) ==>
              (d.kind == Linear ==> cfg.linear) && (d.kind == Bounding ==> cfg.bounding) &&
              (d.kind == Angular ==> cfg.angular) && (d.kind == Radius ==> cfg.radius) && !d.kind.OtherKind?
    ensures cfg.bounding ==> |Dimensions(js, es, cfg)| >= 2
  {
    BlockKinds(js, es);
    var lin := if cfg.linear then LinearDims(js, es) else [];
    var bnd := if cfg.bounding then BoundingDims(js, BoundingBoxOf(es)) else [];
    var ang := if cfg.angular then PolylineAngleDims(js, es) + LineAngleDims(js, es) else [];
    var rad := if cfg.radius then RadiusDims(js, es) else [];
    assert Dimensions(js, es, cfg) == lin + bnd + ang + rad;
    assert OnlyKind(lin, Linear) && OnlyKind(bnd, Bounding) && OnlyKind(ang, Angular) && OnlyKind(rad, Radius);
  }

  predicate AllHaveMidpoints(ds: seq<Dimension>) {
    forall d :: d in ds ==> d.midpoint.Some?
  }

  lemma BlockMidpoints(js: Numerics, es: seq<Entity>)
    ensures AllHaveMidpoints(LinearDims(js, es))
    ensures AllHaveMidpoints(BoundingDims(js, BoundingBoxOf(es)))
    ensures AllHaveMidpoints(PolylineAngleDims(js, es) + LineAngleDims(js, es))
    ensures AllHaveMidpoints(RadiusDims(js, es))
  {
    LinearDimsExact(js, es);
    PolylineAnglesSound(js, es);
    LineAnglesSound(js, es);
    RadiusDimsExact(js, es);
    forall d | d in LinearDims(js, es) ensures d.midpoint.Some? {
      var edge :| Measures(js, d, edge);
    }
    forall d | d in RadiusDims(js, es) ensures d.midpoint.Some? {
      var e :| e in es && e.Circle? && d == RadiusDimension(js, e.center, e.radius);
    }
  }

  /**
    Every record generateDimensions builds carries a midpoint: the middle of a
    measured edge or side, the vertex of an angle, or the middle of a radius.
   */
  lemma DimensionsHaveMidpoints(js: Numerics, es: seq<Entity>, cfg: DimensionConfig)
    ensures AllHaveMidpoints(Dimensions(js, es, cfg))
  {
    BlockMidpoints(js, es);
    var lin := if cfg.linear then LinearDims(js, es) else [];
    var bnd := if cfg.bounding then BoundingDims(js, BoundingBoxOf(es)) else [];
    var ang := if cfg.angular then PolylineAngleDims(js, es) + LineAngleDims(js, es) else [];
    var rad := if cfg.radius then RadiusDims(js, es) else [];
    assert Dimensions(js, es, cfg) == lin + bnd + ang + rad;
    assert AllHaveMidpoints(lin) && AllHaveMidpoints(bnd) && AllHaveMidpoints(ang) && AllHaveMidpoints(rad);
  }
}
