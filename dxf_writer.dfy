/**
  The DXF encoder of src/services/dxfWriter.js: AutoCAD R12 (AC1009) text from
  entities and dimensions.

  A DXF file is a sequence of groups, each a group-code line followed by a
  value line. The writer's helpers and records are given as sequences of
  `Group`; `Render` is the text they stand for (every line followed by "\n").
  `DxfGroups` is the whole file as groups, and `GenerateDXF` is the source's
  accumulation of one output string, proved to produce `Render(DxfGroups(..))`
  unless a dimension makes the source throw.
 */
module DxfWriter {
  import opened JsRuntime
  import opened Entities

  datatype Group = Group(code: string, value: string)

  /** The lines of the groups: code, value, code, value, ... */
  function Lines(gs: seq<Group>): (r: seq<string>)
    ensures |r| == 2 * |gs|
  {
    if gs == [] then [] else [gs[0].code, gs[0].value] + Lines(gs[1..])
  }

  /** The text of the groups, as the source writes it with `${nl}` after every line. */
  function Render(gs: seq<Group>): string {
    JoinLines(Lines(gs))
  }

  lemma {:induction false} LinesAppend(a: seq<Group>, b: seq<Group>)
    ensures Lines(a + b) == Lines(a) + Lines(b)
  {
    if a != [] {
      assert (a + b)[0] == a[0];
      assert (a + b)[1..] == a[1..] + b;
      LinesAppend(a[1..], b);
      AppendAssoc([a[0].code, a[0].value], Lines(a[1..]), Lines(b));
    } else {
      assert a + b == b;
    }
  }

  lemma RenderAppend(a: seq<Group>, b: seq<Group>)
    ensures Render(a + b) == Render(a) + Render(b)
  {
    LinesAppend(a, b);
    JoinLinesAppend(Lines(a), Lines(b));
  }

  // ---------------------------------------------------------------------------
  // The fixed parts of the file

  /** The HEADER section: the drawing version and three point variables. */
  const Header: seq<Group> := [
    Group("0", "SECTION"), Group("2", "HEADER"),
    Group("9", "$ACADVER"), Group("1", "AC1009"),
    Group("9", "$INSBASE"), Group("10", "0.0"), Group("20", "0.0"), Group("30", "0.0"),
    Group("9", "$EXTMIN"), Group("10", "0.0"), Group("20", "0.0"), Group("30", "0.0"),
    Group("9", "$EXTMAX"), Group("10", "1000.0"), Group("20", "1000.0"), Group("30", "0.0"),
    Group("0", "ENDSEC")]

  /** The TABLES section: the CONTINUOUS line type and the layers 0 and DIMENSIONS. */
  const Tables: seq<Group> := [
    Group("0", "SECTION"), Group("2", "TABLES"),
    Group("0", "TABLE"), Group("2", "LTYPE"), Group("70", "1"),
    Group("0", "LTYPE"), Group("2", "CONTINUOUS"), Group("70", "64"), Group("3", "Solid line"),
    Group("72", "65"), Group("73", "0"), Group("40", "0.0"),
    Group("0", "ENDTAB"),
    Group("0", "TABLE"), Group("2", "LAYER"), Group("70", "6"),
    Group("0", "LAYER"), Group("2", "0"), Group("70", "0"), Group("62", "7"), Group("6", "CONTINUOUS"),
    Group("0", "LAYER"), Group("2", "DIMENSIONS"), Group("70", "0"), Group("62", "3"), Group("6", "CONTINUOUS"),
    Group("0", "ENDTAB"),
    Group("0", "ENDSEC")]

  const OpenEntities: seq<Group> := [Group("0", "SECTION"), Group("2", "ENTITIES")]

  const Prologue: seq<Group> := Header + Tables + OpenEntities

  const Epilogue: seq<Group> := [Group("0", "ENDSEC"), Group("0", "EOF")]

  const DimLayer: string := "DIMENSIONS"

  // ---------------------------------------------------------------------------
  // writePoint, writeLine, writeText

  /** writePoint(x, y) with its default z of 0. */
  function WritePoint(js: Numerics, x: real, y: real): seq<Group> {
    [Group("10", js.show(x)), Group("20", js.show(y)), Group("30", "0")]
  }

  /** writeLine; a color of 256 (BYLAYER, the default) writes no 62 group. */
  function WriteLine(js: Numerics, x1: real, y1: real, x2: real, y2: real, layer: string, color: int): seq<Group> {
    [Group("0", "LINE"), Group("8", layer)] +
    (if color != 256 then [Group("62", IntToString(color))] else []) +
    [Group("10", js.show(x1)), Group("20", js.show(y1)), Group("30", "0.0"),
     Group("11", js.show(x2)), Group("21", js.show(y2)), Group("31", "0.0")]
  }

  /** writeText. */
  function WriteText(js: Numerics, x: real, y: real, text: string, height: real, rotation: real, layer: string): seq<Group> {
    [Group("0", "TEXT"), Group("8", layer),
     Group("10", js.show(x)), Group("20", js.show(y)), Group("30", "0.0"),
     Group("40", js.show(height)), Group("1", text), Group("50", js.show(rotation))]
  }

  // ---------------------------------------------------------------------------
  // Entities

  /** The POLYLINE header: vertices follow, the closed flag, and a dummy (0, 0, 0) point. */
  function PolylineHeader(closed: bool): seq<Group> {
    [Group("0", "POLYLINE"), Group("8", "0"), Group("66", "1"),
     Group("70", if closed then "1" else "0"),
     Group("10", "0.0"), Group("20", "0.0"), Group("30", "0.0")]
  }

  function VertexGroups(js: Numerics, v: Point): seq<Group> {
    [Group("0", "VERTEX"), Group("8", "0")] + WritePoint(js, v.x, v.y)
  }

  function VerticesGroups(js: Numerics, vs: seq<Point>): seq<Group> {
    if vs == [] then [] else VerticesGroups(js, vs[..|vs| - 1]) + VertexGroups(js, vs[|vs| - 1])
  }

  const SeqEnd: seq<Group> := [Group("0", "SEQEND"), Group("8", "0")]

  /** One original entity on layer 0; a polyline is downgraded to POLYLINE / VERTEX / SEQEND. */
  function EntityGroups(js: Numerics, e: Entity): seq<Group> {
    match e
    case Line(s, t) => WriteLine(js, s.x, s.y, t.x, t.y, "0", 256)
    case LwPolyline(vs, closed) => PolylineHeader(closed) + VerticesGroups(js, vs) + SeqEnd
    case Circle(c, r) => [Group("0", "CIRCLE"), Group("8", "0")] + WritePoint(js, c.x, c.y) + [Group("40", js.show(r))]
  }

  function EntitiesGroups(js: Numerics, es: seq<Entity>): seq<Group> {
    if es == [] then [] else EntitiesGroups(js, es[..|es| - 1]) + EntityGroups(js, es[|es| - 1])
  }

  // ---------------------------------------------------------------------------
  // Dimensions

  /** `dim.normal?.x || 0`, `dim.normal?.y || 0`. */
  function NormalOf(d: Dimension): Point {
    match d.normal
    case Some(n) => n
    case None => Origin
  }

  /** The text angle: atan2 of the dimension line in degrees, turned by 180 when it would read upside down. */
  function TextRotation(js: Numerics, p1: Point, p2: Point): real {
    var angle := js.atan2(p2.y - p1.y, p2.x - p1.x) * 180.0 / PI;
    if angle > 90.0 || angle < -90.0 then angle + 180.0 else angle
  }

  /** The ends of the dimension line: both measured points moved twice the normal. */
  function Offset(p: Point, n: Point): Point {
    Point(p.x + n.x * 2.0, p.y + n.y * 2.0)
  }

  /** A LINEAR or BOUNDING dimension: the dimension line, two extension lines and the label. */
  function LinearGroups(js: Numerics, d: Dimension): seq<Group> {
    var n := NormalOf(d);
    var p1, p2 := Offset(d.start, n), Offset(d.end, n);
    LinearShape(js, p1, p2, d.start, d.end, (p1.x + p2.x) / 2.0 + n.x, (p1.y + p2.y) / 2.0 + n.y, d.text, TextRotation(js, p1, p2))
  }

  /** The dimension line p1-p2, the extension lines from the measured points s and e, and the label at (x, y). */
  function LinearShape(js: Numerics, p1: Point, p2: Point, s: Point, e: Point, x: real, y: real, text: string, rotation: real): seq<Group> {
    WriteLine(js, p1.x, p1.y, p2.x, p2.y, DimLayer, 3) +
    WriteLine(js, s.x, s.y, p1.x, p1.y, DimLayer, 3) +
    WriteLine(js, e.x, e.y, p2.x, p2.y, DimLayer, 3) +
    WriteText(js, x, y, text, 1.0, rotation, DimLayer)
  }

  /**
    A dimension the writer can handle: a RADIUS record reads `dim.midpoint.x`
    unguarded, so without a midpoint it throws.
   */
  predicate Writable(d: Dimension) {
    d.kind == Radius ==> d.midpoint.Some?
  }

  predicate AllWritable(ds: seq<Dimension>) {
    forall d :: d in ds ==> Writable(d)
  }

  /** The records of one dimension; an ANGULAR dimension without a midpoint, or of an unknown type, writes none. */
  function DimensionGroups(js: Numerics, d: Dimension): seq<Group>
    requires Writable(d)
  {
    match d.kind
    case Linear => LinearGroups(js, d)
    case Bounding => LinearGroups(js, d)
    case Radius =>
      WriteLine(js, d.start.x, d.start.y, d.end.x, d.end.y, DimLayer, 1) +
      WriteText(js, d.midpoint.value.x, d.midpoint.value.y + 1.0, d.text, 1.0, 0.0, DimLayer)
    case Angular =>
      if d.midpoint.Some? then WriteText(js, d.midpoint.value.x, d.midpoint.value.y, d.text, 1.0, 0.0, DimLayer) else []
    case OtherKind(_) => []
  }

  function DimensionsGroups(js: Numerics, ds: seq<Dimension>): seq<Group>
    requires AllWritable(ds)
  {
    if ds == [] then [] else DimensionsGroups(js, ds[..|ds| - 1]) + DimensionGroups(js, ds[|ds| - 1])
  }

  /** The whole file as groups. */
  function DxfGroups(js: Numerics, es: seq<Entity>, ds: seq<Dimension>): seq<Group>
    requires AllWritable(ds)
  {
    Prologue + EntitiesGroups(js, es) + DimensionsGroups(js, ds) + Epilogue
  }

  // ---------------------------------------------------------------------------
  // generateDXF

  /** The records of one original entity, appended to `output`. */
  method WriteEntity(js: Numerics, e: Entity, output: string) returns (output': string)
    ensures output' == output + Render(EntityGroups(js, e))
  {
    match e {
      case Line(s, t) =>
        output' := output + Render(WriteLine(js, s.x, s.y, t.x, t.y, "0", 256));
      case LwPolyline(vs, closed) =>
        output' := output + Render(PolylineHeader(closed));
        var j := 0;
        while j < |vs|
          invariant 0 <= j <= |vs|
          invariant output' == output + Render(PolylineHeader(closed)) + Render(VerticesGroups(js, vs[..j]))
        {
          output' := output' + Render(VertexGroups(js, vs[j]));
          assert vs[..j + 1][..j] == vs[..j];
          RenderAppend(VerticesGroups(js, vs[..j]), VertexGroups(js, vs[j]));
          AppendAssoc(output + Render(PolylineHeader(closed)), Render(VerticesGroups(js, vs[..j])), Render(VertexGroups(js, vs[j])));
          j := j + 1;
        }
        assert vs[..j] == vs;
        output' := output' + Render(SeqEnd);
        RenderAppend(PolylineHeader(closed), VerticesGroups(js, vs));
        RenderAppend(PolylineHeader(closed) + VerticesGroups(js, vs), SeqEnd);
        AppendAssoc(output, Render(PolylineHeader(closed)), Render(VerticesGroups(js, vs)));
        AppendAssoc(output, Render(PolylineHeader(closed)) + Render(VerticesGroups(js, vs)), Render(SeqEnd));
      case Circle(c, r) =>
        output' := output + Render([Group("0", "CIRCLE"), Group("8", "0")] + WritePoint(js, c.x, c.y) + [Group("40", js.show(r))]);
    }
  }

  /** The LINEAR / BOUNDING branch: offset the measured points by twice the normal, then the label. */
  method WriteLinearDimension(js: Numerics, d: Dimension) returns (gs: seq<Group>)
    ensures gs == LinearGroups(js, d)
  {
    var nx := if d.normal.Some? then d.normal.value.x else 0.0;
    var ny := if d.normal.Some? then d.normal.value.y else 0.0;
    var p1 := Point(d.start.x + nx * 2.0, d.start.y + ny * 2.0);
    var p2 := Point(d.end.x + nx * 2.0, d.end.y + ny * 2.0);
    gs := WriteLine(js, p1.x, p1.y, p2.x, p2.y, DimLayer, 3);
    gs := gs + WriteLine(js, d.start.x, d.start.y, p1.x, p1.y, DimLayer, 3);
    gs := gs + WriteLine(js, d.end.x, d.end.y, p2.x, p2.y, DimLayer, 3);
    var midX := (p1.x + p2.x) / 2.0 + nx;
    var midY := (p1.y + p2.y) / 2.0 + ny;
    var angle := js.atan2(p2.y - p1.y, p2.x - p1.x) * 180.0 / PI;
    if angle > 90.0 || angle < -90.0 {
      angle := angle + 180.0;
    }
    ghost var n := NormalOf(d);
    assert nx == n.x && ny == n.y;
    assert p1 == Offset(d.start, n) && p2 == Offset(d.end, n);
    assert angle == TextRotation(js, p1, p2);
    gs := gs + WriteText(js, midX, midY, d.text, 1.0, angle, DimLayer);
  }

  /** The records of one dimension, appended to `output`; `None` when the RADIUS branch throws. */
  method WriteDimension(js: Numerics, d: Dimension, output: string) returns (output': Option<string>)
    ensures output'.Some? <==> Writable(d)
    ensures Writable(d) ==> output' == Some(output + Render(DimensionGroups(js, d)))
  {
    var gs: seq<Group> := [];
    if d.kind == Linear || d.kind == Bounding {
      gs := WriteLinearDimension(js, d);
    } else if d.kind == Radius {
      if d.midpoint.None? {
        return None;
      }
      gs := WriteLine(js, d.start.x, d.start.y, d.end.x, d.end.y, DimLayer, 1);
      gs := gs + WriteText(js, d.midpoint.value.x, d.midpoint.value.y + 1.0, d.text, 1.0, 0.0, DimLayer);
    } else if d.kind == Angular && d.midpoint.Some? {
      gs := WriteText(js, d.midpoint.value.x, d.midpoint.value.y, d.text, 1.0, 0.0, DimLayer);
    }
    assert gs == DimensionGroups(js, d);
    output' := Some(output + Render(gs));
  }

  /** The forEach over the original entities. */
  method WriteEntities(js: Numerics, es: seq<Entity>, output: string) returns (output': string)
    ensures output' == output + Render(EntitiesGroups(js, es))
  {
    output' := output;
    var k := 0;
    while k < |es|
      invariant 0 <= k <= |es|
      invariant output' == output + Render(EntitiesGroups(js, es[..k]))
    {
      output' := WriteEntity(js, es[k], output');
      assert es[..k + 1][..k] == es[..k];
      RenderAppend(EntitiesGroups(js, es[..k]), EntityGroups(js, es[k]));
      AppendAssoc(output, Render(EntitiesGroups(js, es[..k])), Render(EntityGroups(js, es[k])));
      k := k + 1;
    }
    assert es[..k] == es;
  }

  /** The forEach over the dimensions; `None` once a dimension throws. */
  method WriteDimensions(js: Numerics, ds: seq<Dimension>, output: string) returns (output': Option<string>)
    ensures output'.Some? <==> AllWritable(ds)
    ensures AllWritable(ds) ==> output' == Some(output + Render(DimensionsGroups(js, ds)))
  {
    var text := output;
    var m := 0;
    while m < |ds|
      invariant 0 <= m <= |ds|
      invariant AllWritable(ds[..m])
      invariant text == output + Render(DimensionsGroups(js, ds[..m]))
    {
      var next := WriteDimension(js, ds[m], text);
      if next.None? {
        assert ds[m] in ds;
        return None;
      }
      DimensionsStep(js, ds, m, output, text);
      text := next.value;
      m := m + 1;
    }
    assert ds[..m] == ds;
    output' := Some(text);
  }

  lemma DimensionsStep(js: Numerics, ds: seq<Dimension>, m: nat, output: string, text: string)
    requires m < |ds| && AllWritable(ds[..m + 1])
    requires text == output + Render(DimensionsGroups(js, ds[..m]))
    ensures text + Render(DimensionGroups(js, ds[m])) == output + Render(DimensionsGroups(js, ds[..m + 1]))
  {
    var prev, last := DimensionsGroups(js, ds[..m]), DimensionGroups(js, ds[m]);
    var s := ds[..m + 1];
    assert s[..m] == ds[..m] && s[m] == ds[m];
    DimensionsSnoc(js, s);
    RenderAppend(prev, last);
    AppendAssoc(output, Render(prev), Render(last));
  }

  lemma DimensionsSnoc(js: Numerics, s: seq<Dimension>)
    requires s != [] && AllWritable(s)
    ensures DimensionsGroups(js, s) == DimensionsGroups(js, s[..|s| - 1]) + DimensionGroups(js, s[|s| - 1])
  {
  }

  /** generateDXF; `None` stands for the exception a RADIUS dimension without a midpoint raises. */
  method GenerateDXF(js: Numerics, es: seq<Entity>, ds: seq<Dimension>) returns (output: Option<string>)
    ensures output.Some? <==> AllWritable(ds)
    ensures AllWritable(ds) ==> output == Some(Render(DxfGroups(js, es, ds)))
  {
    var text := Render(Prologue);
    text := WriteEntities(js, es, text);
    output := WriteDimensions(js, ds, text);
    if output.Some? {
      ghost var ents, dims := EntitiesGroups(js, es), DimensionsGroups(js, ds);
      output := Some(output.value + Render(Epilogue));
      RenderAppend(Prologue, ents);
      RenderAppend(Prologue + ents, dims);
      RenderAppend(Prologue + ents + dims, Epilogue);
    }
  }
}
