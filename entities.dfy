/**
  The data shared by the decoder, the geometry engine and the writer: planar
  points, the three entity kinds the decoder produces, the dimension records the
  geometry engine derives, and the feature toggles that drive it.
 */
module Entities {
  import opened JsRuntime

  /** A 2D point. The z coordinates the source carries are never read downstream and are left out. */
  datatype Point = Point(x: real, y: real)

  const Origin: Point := Point(0.0, 0.0)

  /**
    An entity as the decoder builds it. Both modern and legacy polylines become
    `LwPolyline` (the source's internal type 'LWPOLYLINE').
   */
  datatype Entity =
    | Line(start: Point, end: Point)
    | LwPolyline(vertices: seq<Point>, closed: bool)
    | Circle(center: Point, radius: real)

  /** The `type` tag of a dimension; `OtherKind` stands for any tag the writer does not know. */
  datatype DimensionKind = Linear | Bounding | Angular | Radius | OtherKind(tag: string)

  /**
    A dimension record. `normal` is present on LINEAR and BOUNDING dimensions
    only; on an ANGULAR dimension `midpoint` holds the angle's vertex. Every
    record the geometry engine builds has a `midpoint`; the writer also accepts
    records without one.
   */
  datatype Dimension = Dimension(
    kind: DimensionKind,
    start: Point,
    end: Point,
    midpoint: Option<Point>,
    normal: Option<Point>,
    value: real,
    text: string)   // the `label` field

  /** Which blocks of dimensions to generate. */
  datatype DimensionConfig = DimensionConfig(linear: bool, angular: bool, radius: bool, bounding: bool)
}
