/**
  What calculateBoundingBox in src/services/geometryUtils.js promises: the box
  holds every point the entities feed it and is the smallest such box, its
  width, height and center agree with its corners, and the default 100 x 100
  box is returned exactly when no entity feeds a point.
 */
module BoundingBoxProperties {
  import opened Entities
  import opened GeometryUtils

  /** All four bounds finite and every point of ps inside them. */
  predicate Encloses(b: Bounds, ps: seq<Point>) {
    b.minX.Finite? && b.minY.Finite? && b.maxX.Finite? && b.maxY.Finite? &&
    forall p :: p in ps ==> b.minX.v <= p.x <= b.maxX.v && b.minY.v <= p.y <= b.maxY.v
  }

  /** Each of the four bounds is the coordinate of some point of ps. */
  predicate Attains(b: Bounds, ps: seq<Point>)
    requires b.minX.Finite? && b.minY.Finite? && b.maxX.Finite? && b.maxY.Finite?
  {
    (exists p :: p in ps && p.x == b.minX.v) && (exists p :: p in ps && p.y == b.minY.v) &&
    (exists p :: p in ps && p.x == b.maxX.v) && (exists p :: p in ps && p.y == b.maxY.v)
  }

  /** Folding a non-empty run of points from the initial bounds gives the tight bounds of those points. */
  lemma {:induction false} FoldBoundsTight(ps: seq<Point>)
    requires ps != []
    ensures Encloses(FoldBounds(NoBounds, ps), ps)
    ensures Attains(FoldBounds(NoBounds, ps), ps)
  {
    var n := |ps| - 1;
    var q := ps[n];
    assert ps == ps[..n] + [q];
    var r := FoldBounds(NoBounds, ps);
    if n == 0 {
      assert ps[..n] == [];
      assert FoldBounds(NoBounds, ps[..n]) == NoBounds;
      assert r == UpdateBounds(NoBounds, q);
      assert r == Bounds(Finite(q.x), Finite(q.y), Finite(q.x), Finite(q.y));
      assert q in ps;
    } else {
      var b := FoldBounds(NoBounds, ps[..n]);
      FoldBoundsTight(ps[..n]);
      assert r == UpdateBounds(b, q);
      assert q in ps;
      forall p | p in ps
        ensures r.minX.v <= p.x <= r.maxX.v && r.minY.v <= p.y <= r.maxY.v
      {
        if p != q {
          assert p in ps[..n];
        }
      }
      var p1 :| p1 in ps[..n] && p1.x == b.minX.v;
      var p2 :| p2 in ps[..n] && p2.y == b.minY.v;
      var p3 :| p3 in ps[..n] && p3.x == b.maxX.v;
      var p4 :| p4 in ps[..n] && p4.y == b.maxY.v;
      assert p1 in ps && p2 in ps && p3 in ps && p4 in ps;
      assert r.minX.v == p1.x || r.minX.v == q.x;
      assert r.minY.v == p2.y || r.minY.v == q.y;
      assert r.maxX.v == p3.x || r.maxX.v == q.x;
      assert r.maxY.v == p4.y || r.maxY.v == q.y;
    }
  }

  /** The points fed are exactly the points of the entities. */
  lemma {:induction false} FedPointsOf(es: seq<Entity>)
    ensures forall e, p :: e in es && p in EntityPoints(e) ==> p in FedPoints(es)
    ensures forall p :: p in FedPoints(es) ==> exists e :: e in es && p in EntityPoints(e)
  {
    if es != [] {
      var n := |es| - 1;
      assert es == es[..n] + [es[n]];
      FedPointsOf(es[..n]);
      forall e, p | e in es && p in EntityPoints(e) ensures p in FedPoints(es) {
        if e != es[n] {
          assert e in es[..n];
        }
      }
      forall p | p in FedPoints(es) ensures exists e :: e in es && p in EntityPoints(e) {
        if p in FedPoints(es[..n]) {
          var e :| e in es[..n] && p in EntityPoints(e);
          assert e in es;
        } else {
          assert es[n] in es;
        }
      }
    }
  }

  /** An entity feeds no point exactly when it is a polyline without vertices. */
  predicate Pointless(e: Entity) {
    e.LwPolyline? && e.vertices == []
  }

  lemma {:induction false} FedPointsEmpty(es: seq<Entity>)
    ensures FedPoints(es) == [] <==> forall k :: 0 <= k < |es| ==> Pointless(es[k])
  {
    if es != [] {
      var n := |es| - 1;
      FedPointsEmpty(es[..n]);
      assert forall k :: 0 <= k < n ==> es[..n][k] == es[k];
    }
  }

  /** The box from the four bounds: width, height and center agree with its corners. */
  lemma BoxShape(es: seq<Entity>)
    ensures var box := BoundingBoxOf(es);
            box.width == box.max.x - box.min.x >= 0.0 && box.height == box.max.y - box.min.y >= 0.0 &&
            box.center == Mid(box.min, box.max)
  {
  }

  /**
    When every entity is a polyline without vertices (in particular for no
    entity at all), the result is the default 0..100 box.
   */
  lemma BoundingBoxDefault(es: seq<Entity>)
    requires forall k :: 0 <= k < |es| ==> Pointless(es[k])
    ensures BoundingBoxOf(es) == DefaultBox
  {
    FedPointsEmpty(es);
  }

  /** Otherwise the box holds every point the entities feed, and each of its sides touches one. */
  lemma BoundingBoxTight(es: seq<Entity>)
    requires exists k :: 0 <= k < |es| && !Pointless(es[k])
    ensures var box := BoundingBoxOf(es);
            (forall e, p :: e in es && p in EntityPoints(e) ==>
               box.min.x <= p.x <= box.max.x && box.min.y <= p.y <= box.max.y) &&
            (exists p :: p in FedPoints(es) && p.x == box.min.x) &&
            (exists p :: p in FedPoints(es) && p.y == box.min.y) &&
            (exists p :: p in FedPoints(es) && p.x == box.max.x) &&
            (exists p :: p in FedPoints(es) && p.y == box.max.y)
  {
    FedPointsEmpty(es);
    BoxTight(FedPoints(es));
    FedPointsOf(es);
  }

  /** The box of a non-empty run of points holds them all, and each of its sides touches one. */
  lemma BoxTight(ps: seq<Point>)
    requires ps != []
    ensures var box := BoxOf(FoldBounds(NoBounds, ps));
            (forall p :: p in ps ==> box.min.x <= p.x <= box.max.x && box.min.y <= p.y <= box.max.y) &&
            (exists p :: p in ps && p.x == box.min.x) && (exists p :: p in ps && p.y == box.min.y) &&
            (exists p :: p in ps && p.x == box.max.x) && (exists p :: p in ps && p.y == box.max.y)
  {
    FoldBoundsTight(ps);
  }

  /** Any point an entity feeds lies in the box. */
  lemma PointInBox(es: seq<Entity>, e: Entity, p: Point)
    requires e in es && p in EntityPoints(e)
    ensures var box := BoundingBoxOf(es);
            box.min.x <= p.x <= box.max.x && box.min.y <= p.y <= box.max.y
  {
    FedPointsOf(es);
    FoldBoundsTight(FedPoints(es));
  }

  /** A circle's box: the center offset by the radius on both axes. */
  lemma CircleInBox(es: seq<Entity>, c: Point, r: real)
    requires Circle(c, r) in es
    ensures var box := BoundingBoxOf(es);
            box.min.x <= c.x - r <= box.max.x && box.min.x <= c.x + r <= box.max.x &&
            box.min.y <= c.y - r <= box.max.y && box.min.y <= c.y + r <= box.max.y
  {
    PointInBox(es, Circle(c, r), Point(c.x - r, c.y - r));
    PointInBox(es, Circle(c, r), Point(c.x + r, c.y + r));
  }
}
