/**
  What generateDXF in src/services/dxfWriter.js promises about the file it
  writes: the R12 frame (HEADER with AC1009, TABLES with the CONTINUOUS line
  type and the layers 0 and DIMENSIONS, then ENTITIES, ENDSEC and EOF), which
  records each entity and dimension becomes, their layers and colors, the
  POLYLINE layout, and the upright text rotation of linear labels.
 */
module DxfWriterProperties {
  import opened JsRuntime
  import opened Entities
  import opened DxfWriter
  import GeometryUtils
  import DimensionProperties

  // ---------------------------------------------------------------------------
  // Reading groups back by code

  /** Every group with the given code carries one of the allowed values. */
  predicate Tagged(gs: seq<Group>, code: string, allowed: set<string>) {
    forall k :: 0 <= k < |gs| && gs[k].code == code ==> gs[k].value in allowed
  }

  lemma TaggedAppend(a: seq<Group>, b: seq<Group>, code: string, allowed: set<string>)
    ensures Tagged(a + b, code, allowed) <==> Tagged(a, code, allowed) && Tagged(b, code, allowed)
  {
    forall k | 0 <= k < |a| ensures (a + b)[k] == a[k] { }
    forall k | 0 <= k < |b| ensures (a + b)[|a| + k] == b[k] { }
    if Tagged(a, code, allowed) && Tagged(b, code, allowed) {
      forall k | 0 <= k < |a + b| && (a + b)[k].code == code ensures (a + b)[k].value in allowed {
        if k >= |a| {
          assert (a + b)[k] == b[k - |a|];
        }
      }
    }
  }

  /** Every group code is a non-empty string of decimal digits. */
  predicate NumericCodes(gs: seq<Group>) {
    forall k :: 0 <= k < |gs| ==> |gs[k].code| > 0 && forall i :: 0 <= i < |gs[k].code| ==> IsDigit(gs[k].code[i])
  }

  lemma NumericCodesAppend(a: seq<Group>, b: seq<Group>)
    ensures NumericCodes(a + b) <==> NumericCodes(a) && NumericCodes(b)
  {
    forall k | 0 <= k < |a| ensures (a + b)[k] == a[k] { }
    forall k | 0 <= k < |b| ensures (a + b)[|a| + k] == b[k] { }
    if NumericCodes(a) && NumericCodes(b) {
      forall k | 0 <= k < |a + b| ensures |(a + b)[k].code| > 0 && forall i :: 0 <= i < |(a + b)[k].code| ==> IsDigit((a + b)[k].code[i]) {
        if k >= |a| {
          assert (a + b)[k] == b[k - |a|];
        }
      }
    }
  }

  /** The records of an entity-kind category: codes, layers, colors and keywords. */
  predicate Styled(gs: seq<Group>, keywords: set<string>, layer: string, colors: set<string>) {
    Tagged(gs, "0", keywords) && Tagged(gs, "8", {layer}) && Tagged(gs, "62", colors) && NumericCodes(gs)
  }

  lemma StyledAppend(a: seq<Group>, b: seq<Group>, keywords: set<string>, layer: string, colors: set<string>)
    requires Styled(a, keywords, layer, colors) && Styled(b, keywords, layer, colors)
    ensures Styled(a + b, keywords, layer, colors)
  {
    TaggedAppend(a, b, "0", keywords);
    TaggedAppend(a, b, "8", {layer});
    TaggedAppend(a, b, "62", colors);
    NumericCodesAppend(a, b);
  }

  lemma StyledWiden(gs: seq<Group>, keywords: set<string>, layer: string, colors: set<string>, keywords': set<string>, colors': set<string>)
    requires Styled(gs, keywords, layer, colors) && keywords <= keywords' && colors <= colors'
    ensures Styled(gs, keywords', layer, colors')
  {
  }

  /** The keywords of the records (the values of the code-0 groups), in order. */
  function Keywords(gs: seq<Group>): seq<string> {
    if gs == [] then [] else (if gs[0].code == "0" then [gs[0].value] else []) + Keywords(gs[1..])
  }

  lemma {:induction false} KeywordsAppend(a: seq<Group>, b: seq<Group>)
    ensures Keywords(a + b) == Keywords(a) + Keywords(b)
  {
    if a != [] {
      assert (a + b)[0] == a[0];
      assert (a + b)[1..] == a[1..] + b;
      KeywordsAppend(a[1..], b);
    } else {
      assert a + b == b;
    }
  }

  lemma {:induction false} KeywordsNone(gs: seq<Group>)
    requires forall k :: 0 <= k < |gs| ==> gs[k].code != "0"
    ensures Keywords(gs) == []
  {
    if gs != [] {
      assert gs[0].code != "0";
      KeywordsNone(gs[1..]);
    }
  }

  /** A record: one keyword group, then groups of other codes. */
  lemma KeywordsOfRecord(gs: seq<Group>)
    requires gs != [] && gs[0].code == "0"
    requires forall k :: 1 <= k < |gs| ==> gs[k].code != "0"
    ensures Keywords(gs) == [gs[0].value]
  {
    KeywordsNone(gs[1..]);
  }

  // ---------------------------------------------------------------------------
  // The helpers

  /** A LINE record on the given layer, with a color group unless the color is 256 (BYLAYER). */
  lemma WriteLineRecords(js: Numerics, x1: real, y1: real, x2: real, y2: real, layer: string, color: int)
    ensures var gs := WriteLine(js, x1, y1, x2, y2, layer, color);
            gs[0] == Group("0", "LINE") && gs[1] == Group("8", layer) &&
            Styled(gs, {"LINE"}, layer, if color != 256 then {IntToString(color)} else {}) &&
            (color != 256 ==> gs[2] == Group("62", IntToString(color)))
  {
  }

  /** A TEXT record on the given layer, without a color group, holding the label in group 1. */
  lemma WriteTextRecords(js: Numerics, x: real, y: real, text: string, height: real, rotation: real, layer: string)
    ensures var gs := WriteText(js, x, y, text, height, rotation, layer);
            gs[0] == Group("0", "TEXT") && gs[1] == Group("8", layer) &&
            Styled(gs, {"TEXT"}, layer, {}) && Tagged(gs, "1", {text})
  {
  }

  // ---------------------------------------------------------------------------
  // Original entities

  lemma {:induction false} VerticesLength(js: Numerics, vs: seq<Point>)
    ensures |VerticesGroups(js, vs)| == 5 * |vs|
  {
    if vs != [] {
      VerticesLength(js, vs[..|vs| - 1]);
    }
  }

  lemma SliceLeft<T>(a: seq<T>, b: seq<T>, i: nat, j: nat)
    requires i <= j <= |a|
    ensures (a + b)[i..j] == a[i..j]
  {
  }

  lemma SliceRight<T>(a: seq<T>, b: seq<T>)
    ensures (a + b)[|a|..|a| + |b|] == b
  {
  }

  /** The k-th vertex fills groups [5k, 5k + 5). */
  lemma {:induction false} VerticesSlices(js: Numerics, vs: seq<Point>)
    ensures |VerticesGroups(js, vs)| == 5 * |vs|
    ensures forall k :: 0 <= k < |vs| ==> VerticesGroups(js, vs)[5 * k..5 * k + 5] == VertexGroups(js, vs[k])
  {
    VerticesLength(js, vs);
    if vs != [] {
      var n := |vs| - 1;
      var prev := VerticesGroups(js, vs[..n]);
      var last := VertexGroups(js, vs[n]);
      VerticesSlices(js, vs[..n]);
      assert VerticesGroups(js, vs) == prev + last;
      assert |prev| == 5 * n;
      forall k | 0 <= k < |vs| ensures (prev + last)[5 * k..5 * k + 5] == VertexGroups(js, vs[k]) {
        if k < n {
          SliceLeft(prev, last, 5 * k, 5 * k + 5);
          assert vs[..n][k] == vs[k];
        } else {
          SliceRight(prev, last);
        }
      }
    }
  }

  lemma {:induction false} VerticesStyled(js: Numerics, vs: seq<Point>)
    ensures Styled(VerticesGroups(js, vs), {"VERTEX"}, "0", {})
  {
    if vs != [] {
      var n := |vs| - 1;
      VerticesStyled(js, vs[..n]);
      var last := VertexGroups(js, vs[n]);
      assert Styled(last, {"VERTEX"}, "0", {});
      StyledAppend(VerticesGroups(js, vs[..n]), last, {"VERTEX"}, "0", {});
    }
  }

  /**
    A polyline is written as POLYLINE with the closed flag in group 70 and a
    dummy point, then one VERTEX record of five groups per vertex, in order,
    then SEQEND.
   */
  lemma PolylineLayout(js: Numerics, vs: seq<Point>, closed: bool)
    ensures var gs := EntityGroups(js, LwPolyline(vs, closed));
            |gs| == 9 + 5 * |vs| &&
            gs[0] == Group("0", "POLYLINE") &&
            gs[3] == Group("70", if closed then "1" else "0") &&
            (forall k :: 0 <= k < |vs| ==> gs[7 + 5 * k..12 + 5 * k] == VertexGroups(js, vs[k])) &&
            gs[7 + 5 * |vs|..] == [Group("0", "SEQEND"), Group("8", "0")]
  {
    var body := VerticesGroups(js, vs);
    VerticesSlices(js, vs);
    var gs := PolylineHeader(closed) + body + SeqEnd;
    assert |PolylineHeader(closed)| == 7;
    forall k | 0 <= k < |vs| ensures gs[7 + 5 * k..12 + 5 * k] == VertexGroups(js, vs[k]) {
      assert gs[7 + 5 * k..12 + 5 * k] == body[5 * k..5 * k + 5];
    }
  }

  const EntityKeywords: set<string> := {"LINE", "POLYLINE", "VERTEX", "SEQEND", "CIRCLE"}

  /** Every original entity is written on layer 0, without a color group, and never as LWPOLYLINE. */
  lemma EntityRecords(js: Numerics, e: Entity)
    ensures Styled(EntityGroups(js, e), EntityKeywords, "0", {})
  {
    match e {
      case Line(s, t) =>
        WriteLineRecords(js, s.x, s.y, t.x, t.y, "0", 256);
        StyledWiden(EntityGroups(js, e), {"LINE"}, "0", {}, EntityKeywords, {});
      case LwPolyline(vs, closed) =>
        PolylineRecords(js, vs, closed);
      case Circle(c, r) =>
        CircleRecords(js, c, r);
    }
  }

  lemma PolylineRecords(js: Numerics, vs: seq<Point>, closed: bool)
    ensures Styled(PolylineHeader(closed) + VerticesGroups(js, vs) + SeqEnd, EntityKeywords, "0", {})
  {
    var h, b := PolylineHeader(closed), VerticesGroups(js, vs);
    VerticesStyled(js, vs);
    assert Styled(h, {"POLYLINE"}, "0", {});
    assert Styled(SeqEnd, {"SEQEND"}, "0", {});
    StyledWiden(h, {"POLYLINE"}, "0", {}, EntityKeywords, {});
    StyledWiden(b, {"VERTEX"}, "0", {}, EntityKeywords, {});
    StyledWiden(SeqEnd, {"SEQEND"}, "0", {}, EntityKeywords, {});
    StyledAppend(h, b, EntityKeywords, "0", {});
    StyledAppend(h + b, SeqEnd, EntityKeywords, "0", {});
  }

  lemma CircleRecords(js: Numerics, c: Point, r: real)
    ensures Styled([Group("0", "CIRCLE"), Group("8", "0")] + WritePoint(js, c.x, c.y) + [Group("40", js.show(r))], EntityKeywords, "0", {})
  {
  }

  lemma {:induction false} EntitiesRecords(js: Numerics, es: seq<Entity>)
    ensures Styled(EntitiesGroups(js, es), EntityKeywords, "0", {})
  {
    if es != [] {
      var n := |es| - 1;
      EntitiesRecords(js, es[..n]);
      EntityRecords(js, es[n]);
      StyledAppend(EntitiesGroups(js, es[..n]), EntityGroups(js, es[n]), EntityKeywords, "0", {});
    }
  }

  // ---------------------------------------------------------------------------
  // Dimensions

  /** A LINE in color 3 on layer DIMENSIONS, as the linear dimensions draw. */
  lemma DimensionLineStyled(js: Numerics, x1: real, y1: real, x2: real, y2: real)
    ensures Styled(WriteLine(js, x1, y1, x2, y2, DimLayer, 3), {"LINE", "TEXT"}, DimLayer, {"3"})
  {
    assert IntToString(3) == "3";
    WriteLineRecords(js, x1, y1, x2, y2, DimLayer, 3);
  }

  /** A linear (or bounding) dimension: three LINE records in color 3 on layer DIMENSIONS and a TEXT label. */
  lemma LinearRecords(js: Numerics, d: Dimension)
    ensures Styled(LinearGroups(js, d), {"LINE", "TEXT"}, DimLayer, {"3"})
  {
    var n := NormalOf(d);
    var p1, p2 := Offset(d.start, n), Offset(d.end, n);
    var x, y := (p1.x + p2.x) / 2.0 + n.x, (p1.y + p2.y) / 2.0 + n.y;
    assert LinearGroups(js, d) == LinearShape(js, p1, p2, d.start, d.end, x, y, d.text, TextRotation(js, p1, p2));
    LinearShapeStyled(js, p1, p2, d.start, d.end, x, y, d.text, TextRotation(js, p1, p2));
  }

  /** The shape of a linear dimension's records, for any coordinates. */
  lemma LinearShapeStyled(js: Numerics, p1: Point, p2: Point, s: Point, e: Point, x: real, y: real, text: string, rotation: real)
    ensures Styled(LinearShape(js, p1, p2, s, e, x, y, text, rotation), {"LINE", "TEXT"}, DimLayer, {"3"})
  {
    DimensionLineStyled(js, p1.x, p1.y, p2.x, p2.y);
    DimensionLineStyled(js, s.x, s.y, p1.x, p1.y);
    DimensionLineStyled(js, e.x, e.y, p2.x, p2.y);
    DimensionTextStyled(js, x, y, text, rotation);
    FourStyled(WriteLine(js, p1.x, p1.y, p2.x, p2.y, DimLayer, 3), WriteLine(js, s.x, s.y, p1.x, p1.y, DimLayer, 3),
               WriteLine(js, e.x, e.y, p2.x, p2.y, DimLayer, 3), WriteText(js, x, y, text, 1.0, rotation, DimLayer),
               {"LINE", "TEXT"}, DimLayer, {"3"});
  }

  lemma DimensionTextStyled(js: Numerics, x: real, y: real, text: string, rotation: real)
    ensures Styled(WriteText(js, x, y, text, 1.0, rotation, DimLayer), {"LINE", "TEXT"}, DimLayer, {"3"})
  {
    WriteTextRecords(js, x, y, text, 1.0, rotation, DimLayer);
    StyledWiden(WriteText(js, x, y, text, 1.0, rotation, DimLayer), {"TEXT"}, DimLayer, {}, {"LINE", "TEXT"}, {"3"});
  }

  lemma FourStyled(a: seq<Group>, b: seq<Group>, c: seq<Group>, t: seq<Group>, keywords: set<string>, layer: string, colors: set<string>)
    requires Styled(a, keywords, layer, colors) && Styled(b, keywords, layer, colors)
    requires Styled(c, keywords, layer, colors) && Styled(t, keywords, layer, colors)
    ensures Styled(a + b + c + t, keywords, layer, colors)
  {
    StyledAppend(a, b, keywords, layer, colors);
    StyledAppend(a + b, c, keywords, layer, colors);
    StyledAppend(a + b + c, t, keywords, layer, colors);
  }

  /** The only group 1 (text) of a linear dimension carries its label. */
  lemma LinearLabel(js: Numerics, d: Dimension)
    ensures Tagged(LinearGroups(js, d), "1", {d.text})
  {
  }

  const DimensionKeywords: set<string> := {"LINE", "TEXT"}
  const DimensionColors: set<string> := {"3", "1"}

  /** gs[i..] starts with a LINE record on layer DIMENSIONS in the given color, from a to b. */
  predicate DimensionLineAt(js: Numerics, gs: seq<Group>, i: nat, a: Point, b: Point, color: string) {
    i + 9 <= |gs| &&
    gs[i] == Group("0", "LINE") && gs[i + 1] == Group("8", DimLayer) && gs[i + 2] == Group("62", color) &&
    gs[i + 3] == Group("10", js.show(a.x)) && gs[i + 4] == Group("20", js.show(a.y)) &&
    gs[i + 6] == Group("11", js.show(b.x)) && gs[i + 7] == Group("21", js.show(b.y))
  }

  /** gs[i..] starts with a TEXT record on layer DIMENSIONS at (x, y), one unit high, holding `text`, turned by `rotation`. */
  predicate DimensionTextAt(js: Numerics, gs: seq<Group>, i: nat, x: real, y: real, text: string, rotation: real) {
    i + 8 <= |gs| &&
    gs[i] == Group("0", "TEXT") && gs[i + 1] == Group("8", DimLayer) &&
    gs[i + 2] == Group("10", js.show(x)) && gs[i + 3] == Group("20", js.show(y)) &&
    gs[i + 5] == Group("40", js.show(1.0)) && gs[i + 6] == Group("1", text) && gs[i + 7] == Group("50", js.show(rotation))
  }

  lemma DimensionLineLayout(js: Numerics, a: Point, b: Point, color: int)
    requires color != 256
    ensures var gs := WriteLine(js, a.x, a.y, b.x, b.y, DimLayer, color);
            |gs| == 9 && Keywords(gs) == ["LINE"] && DimensionLineAt(js, gs, 0, a, b, IntToString(color))
  {
    KeywordsOfRecord(WriteLine(js, a.x, a.y, b.x, b.y, DimLayer, color));
  }

  lemma DimensionTextLayout(js: Numerics, x: real, y: real, text: string, rotation: real)
    ensures var gs := WriteText(js, x, y, text, 1.0, rotation, DimLayer);
            |gs| == 8 && Keywords(gs) == ["TEXT"] && DimensionTextAt(js, gs, 0, x, y, text, rotation)
  {
    KeywordsOfRecord(WriteText(js, x, y, text, 1.0, rotation, DimLayer));
  }

  lemma LineAtShift(js: Numerics, a: seq<Group>, b: seq<Group>, i: nat, p: Point, q: Point, color: string)
    requires DimensionLineAt(js, b, i, p, q, color)
    ensures DimensionLineAt(js, a + b, |a| + i, p, q, color)
  {
  }

  lemma LineAtKeep(js: Numerics, a: seq<Group>, b: seq<Group>, i: nat, p: Point, q: Point, color: string)
    requires DimensionLineAt(js, a, i, p, q, color)
    ensures DimensionLineAt(js, a + b, i, p, q, color)
  {
  }

  lemma TextAtShift(js: Numerics, a: seq<Group>, b: seq<Group>, i: nat, x: real, y: real, text: string, rotation: real)
    requires DimensionTextAt(js, b, i, x, y, text, rotation)
    ensures DimensionTextAt(js, a + b, |a| + i, x, y, text, rotation)
  {
  }

  /**
    gs is the records of a linear dimension: exactly three LINE records in
    color 3 and then one TEXT, namely the dimension line p1-p2, the extension
    lines s-p1 and e-p2, and the label at (x, y).
   */
  predicate LinearRecordsAt(js: Numerics, gs: seq<Group>, p1: Point, p2: Point, s: Point, e: Point,
                            x: real, y: real, text: string, rotation: real) {
    |gs| == 35 && Keywords(gs) == ["LINE", "LINE", "LINE", "TEXT"] &&
    DimensionLineAt(js, gs, 0, p1, p2, "3") && DimensionLineAt(js, gs, 9, s, p1, "3") &&
    DimensionLineAt(js, gs, 18, e, p2, "3") && DimensionTextAt(js, gs, 27, x, y, text, rotation)
  }

  /**
    A LINEAR or BOUNDING dimension is written as three LINE records and a
    TEXT: the dimension line between the measured points moved twice the
    normal, the extension lines from the measured points to it, and the label
    at the middle of the dimension line moved one more normal, turned by
    `TextRotation`.
   */
  lemma LinearLayout(js: Numerics, d: Dimension)
    ensures var n := NormalOf(d);
            var p1, p2 := Offset(d.start, n), Offset(d.end, n);
            LinearRecordsAt(js, LinearGroups(js, d), p1, p2, d.start, d.end,
                            (p1.x + p2.x) / 2.0 + n.x, (p1.y + p2.y) / 2.0 + n.y, d.text, TextRotation(js, p1, p2))
  {
    var n := NormalOf(d);
    var p1, p2 := Offset(d.start, n), Offset(d.end, n);
    var x, y := (p1.x + p2.x) / 2.0 + n.x, (p1.y + p2.y) / 2.0 + n.y;
    var gs := LinearShape(js, p1, p2, d.start, d.end, x, y, d.text, TextRotation(js, p1, p2));
    LinearShapeLayout(js, p1, p2, d.start, d.end, x, y, d.text, TextRotation(js, p1, p2));
    LinearRecordsAtSame(js, gs, LinearGroups(js, d), p1, p2, d.start, d.end, x, y, d.text, TextRotation(js, p1, p2));
  }

  lemma LinearRecordsAtSame(js: Numerics, gs: seq<Group>, gs': seq<Group>, p1: Point, p2: Point, s: Point, e: Point,
                            x: real, y: real, text: string, rotation: real)
    requires LinearRecordsAt(js, gs, p1, p2, s, e, x, y, text, rotation) && gs' == gs
    ensures LinearRecordsAt(js, gs', p1, p2, s, e, x, y, text, rotation)
  {
  }

  lemma LinearShapeLayout(js: Numerics, p1: Point, p2: Point, s: Point, e: Point, x: real, y: real, text: string, rotation: real)
    ensures LinearRecordsAt(js, LinearShape(js, p1, p2, s, e, x, y, text, rotation), p1, p2, s, e, x, y, text, rotation)
  {
    assert IntToString(3) == "3";
    var a := WriteLine(js, p1.x, p1.y, p2.x, p2.y, DimLayer, 3);
    var b := WriteLine(js, s.x, s.y, p1.x, p1.y, DimLayer, 3);
    var c := WriteLine(js, e.x, e.y, p2.x, p2.y, DimLayer, 3);
    var t := WriteText(js, x, y, text, 1.0, rotation, DimLayer);
    DimensionLineLayout(js, p1, p2, 3);
    DimensionLineLayout(js, s, p1, 3);
    DimensionLineLayout(js, e, p2, 3);
    DimensionTextLayout(js, x, y, text, rotation);
    KeywordsAppend(a, b);
    KeywordsAppend(a + b, c);
    KeywordsAppend(a + b + c, t);
    LineAtKeep(js, a, b, 0, p1, p2, "3");
    LineAtShift(js, a, b, 0, s, p1, "3");
    LineAtKeep(js, a + b, c, 0, p1, p2, "3");
    LineAtKeep(js, a + b, c, 9, s, p1, "3");
    LineAtShift(js, a + b, c, 0, e, p2, "3");
    LineAtKeep(js, a + b + c, t, 0, p1, p2, "3");
    LineAtKeep(js, a + b + c, t, 9, s, p1, "3");
    LineAtKeep(js, a + b + c, t, 18, e, p2, "3");
    TextAtShift(js, a + b + c, t, 0, x, y, text, rotation);
  }

  /**
    A RADIUS dimension is written as one LINE in color 1 from the center to
    the probe point, then one TEXT one unit above its midpoint, unturned.
   */
  lemma RadiusLayout(js: Numerics, d: Dimension)
    requires d.kind.Radius? && d.midpoint.Some?
    ensures var m, gs := d.midpoint.value, DimensionGroups(js, d);
            |gs| == 17 && Keywords(gs) == ["LINE", "TEXT"] &&
            DimensionLineAt(js, gs, 0, d.start, d.end, "1") &&
            DimensionTextAt(js, gs, 9, m.x, m.y + 1.0, d.text, 0.0)
  {
    var m := d.midpoint.value;
    var l := WriteLine(js, d.start.x, d.start.y, d.end.x, d.end.y, DimLayer, 1);
    var t := WriteText(js, m.x, m.y + 1.0, d.text, 1.0, 0.0, DimLayer);
    assert DimensionGroups(js, d) == l + t;
    RadiusShapeLayout(js, d.start, d.end, m.x, m.y + 1.0, d.text);
  }

  lemma RadiusShapeLayout(js: Numerics, s: Point, e: Point, x: real, y: real, text: string)
    ensures var gs := WriteLine(js, s.x, s.y, e.x, e.y, DimLayer, 1) + WriteText(js, x, y, text, 1.0, 0.0, DimLayer);
            |gs| == 17 && Keywords(gs) == ["LINE", "TEXT"] &&
            DimensionLineAt(js, gs, 0, s, e, "1") && DimensionTextAt(js, gs, 9, x, y, text, 0.0)
  {
    assert IntToString(1) == "1";
    var l := WriteLine(js, s.x, s.y, e.x, e.y, DimLayer, 1);
    var t := WriteText(js, x, y, text, 1.0, 0.0, DimLayer);
    DimensionLineLayout(js, s, e, 1);
    DimensionTextLayout(js, x, y, text, 0.0);
    KeywordsAppend(l, t);
    LineAtKeep(js, l, t, 0, s, e, "1");
    TextAtShift(js, l, t, 0, x, y, text, 0.0);
  }

  /**
    An ANGULAR dimension is written as one unturned TEXT at its vertex, and as
    nothing when it has no midpoint.
   */
  lemma AngularLayout(js: Numerics, d: Dimension)
    requires d.kind.Angular?
    ensures var gs := DimensionGroups(js, d);
            (d.midpoint.None? ==> gs == []) &&
            (d.midpoint.Some? ==>
               |gs| == 8 && Keywords(gs) == ["TEXT"] &&
               DimensionTextAt(js, gs, 0, d.midpoint.value.x, d.midpoint.value.y, d.text, 0.0))
  {
    if d.midpoint.Some? {
      var m := d.midpoint.value;
      assert DimensionGroups(js, d) == WriteText(js, m.x, m.y, d.text, 1.0, 0.0, DimLayer);
      DimensionTextLayout(js, m.x, m.y, d.text, 0.0);
    }
  }

  /**
    Every dimension is drawn on layer DIMENSIONS with LINE and TEXT records
    only: linear and bounding dimensions as three lines in color 3 and a label,
    a radius as one line in color 1 and a label, an angle as a label alone (none
    without a midpoint), and a dimension of any other type draws nothing.
   */
  lemma DimensionRecords(js: Numerics, d: Dimension)
    requires Writable(d)
    ensures var gs := DimensionGroups(js, d);
            Styled(gs, DimensionKeywords, DimLayer, DimensionColors) &&
            (d.kind.Linear? || d.kind.Bounding? ==> Keywords(gs) == ["LINE", "LINE", "LINE", "TEXT"] && Tagged(gs, "62", {"3"})) &&
            (d.kind.Radius? ==> Keywords(gs) == ["LINE", "TEXT"] && Tagged(gs, "62", {"1"})) &&
            (d.kind.Angular? ==> Keywords(gs) == (if d.midpoint.Some? then ["TEXT"] else []) && Tagged(gs, "62", {})) &&
            (d.kind.OtherKind? ==> gs == [])
  {
    var gs := DimensionGroups(js, d);
    match d.kind {
      case Linear =>
        LinearRecords(js, d);
        LinearLayout(js, d);
        assert gs == LinearGroups(js, d);
        StyledWiden(gs, {"LINE", "TEXT"}, DimLayer, {"3"}, DimensionKeywords, DimensionColors);
      case Bounding =>
        LinearRecords(js, d);
        LinearLayout(js, d);
        assert gs == LinearGroups(js, d);
        StyledWiden(gs, {"LINE", "TEXT"}, DimLayer, {"3"}, DimensionKeywords, DimensionColors);
      case Radius =>
        RadiusRecords(js, d);
        RadiusLayout(js, d);
        StyledWiden(gs, DimensionKeywords, DimLayer, {"1"}, DimensionKeywords, DimensionColors);
      case Angular =>
        AngularRecords(js, d);
        AngularLayout(js, d);
        StyledWiden(gs, {"TEXT"}, DimLayer, {}, DimensionKeywords, DimensionColors);
      case OtherKind(_) =>
        assert gs == [];
    }
  }

  lemma RadiusRecords(js: Numerics, d: Dimension)
    requires d.kind.Radius? && d.midpoint.Some?
    ensures Styled(DimensionGroups(js, d), DimensionKeywords, DimLayer, {"1"})
  {
    var m := d.midpoint.value;
    var l := WriteLine(js, d.start.x, d.start.y, d.end.x, d.end.y, DimLayer, 1);
    var t := WriteText(js, m.x, m.y + 1.0, d.text, 1.0, 0.0, DimLayer);
    RadiusShapeStyled(js, d.start, d.end, m.x, m.y + 1.0, d.text);
    assert DimensionGroups(js, d) == l + t;
  }

  /** The shape of a radius dimension's records, for any coordinates. */
  lemma RadiusShapeStyled(js: Numerics, s: Point, e: Point, x: real, y: real, text: string)
    ensures Styled(WriteLine(js, s.x, s.y, e.x, e.y, DimLayer, 1) + WriteText(js, x, y, text, 1.0, 0.0, DimLayer),
                   DimensionKeywords, DimLayer, {"1"})
  {
    assert IntToString(1) == "1";
    var l := WriteLine(js, s.x, s.y, e.x, e.y, DimLayer, 1);
    var t := WriteText(js, x, y, text, 1.0, 0.0, DimLayer);
    WriteLineRecords(js, s.x, s.y, e.x, e.y, DimLayer, 1);
    WriteTextRecords(js, x, y, text, 1.0, 0.0, DimLayer);
    StyledWiden(l, {"LINE"}, DimLayer, {"1"}, DimensionKeywords, {"1"});
    StyledWiden(t, {"TEXT"}, DimLayer, {}, DimensionKeywords, {"1"});
    StyledAppend(l, t, DimensionKeywords, DimLayer, {"1"});
  }

  lemma AngularRecords(js: Numerics, d: Dimension)
    requires d.kind.Angular?
    ensures Styled(DimensionGroups(js, d), {"TEXT"}, DimLayer, {})
  {
    if d.midpoint.Some? {
      var m := d.midpoint.value;
      WriteTextRecords(js, m.x, m.y, d.text, 1.0, 0.0, DimLayer);
      assert DimensionGroups(js, d) == WriteText(js, m.x, m.y, d.text, 1.0, 0.0, DimLayer);
    }
  }

  lemma {:induction false} DimensionsRecords(js: Numerics, ds: seq<Dimension>)
    requires AllWritable(ds)
    ensures Styled(DimensionsGroups(js, ds), DimensionKeywords, DimLayer, DimensionColors)
  {
    if ds != [] {
      var n := |ds| - 1;
      assert ds[n] in ds;
      DimensionsRecords(js, ds[..n]);
      DimensionRecords(js, ds[n]);
      StyledAppend(DimensionsGroups(js, ds[..n]), DimensionGroups(js, ds[n]), DimensionKeywords, DimLayer, DimensionColors);
    }
  }

  /** generateDXF does not throw on the dimensions generateDimensions returns: each carries a midpoint. */
  lemma GeneratedDimensionsWritable(js: Numerics, es: seq<Entity>, cfg: DimensionConfig)
    ensures AllWritable(GeometryUtils.Dimensions(js, es, cfg))
  {
    DimensionProperties.DimensionsHaveMidpoints(js, es, cfg);
  }

  /**
    The dimension line of a LINEAR or BOUNDING dimension is the measured
    segment moved twice the normal: parallel to it and as long, joined to it by
    the two extension lines; the label sits at the measured midpoint moved
    three normals.
   */
  lemma DimensionLineGeometry(d: Dimension)
    ensures var n := NormalOf(d);
            var p1, p2 := Offset(d.start, n), Offset(d.end, n);
            p2.x - p1.x == d.end.x - d.start.x && p2.y - p1.y == d.end.y - d.start.y &&
            p1.x - d.start.x == 2.0 * n.x && p1.y - d.start.y == 2.0 * n.y &&
            (p1.x + p2.x) / 2.0 + n.x == (d.start.x + d.end.x) / 2.0 + 3.0 * n.x &&
            (p1.y + p2.y) / 2.0 + n.y == (d.start.y + d.end.y) / 2.0 + 3.0 * n.y
  {
  }

  /** With atan2 in [-pi, pi], the label angle is in [-90, 90] or, turned by 180, in (270, 360]: never upside down. */
  lemma TextRotationUpright(js: Numerics, p1: Point, p2: Point)
    requires Atan2Bounded(js)
    ensures var r := TextRotation(js, p1, p2);
            (-90.0 <= r <= 90.0) || (270.0 < r <= 360.0)
  {
    var a := js.atan2(p2.y - p1.y, p2.x - p1.x);
    assert -PI <= a <= PI;
    assert -180.0 <= a * 180.0 / PI <= 180.0;
  }

  // ---------------------------------------------------------------------------
  // The whole file

  /** Every group code of the fixed prologue and epilogue is numeric. */
  lemma FixedCodes()
    ensures NumericCodes(Prologue) && NumericCodes(Epilogue)
  {
    HeaderCodes();
    TablesCodes();
    assert NumericCodes(OpenEntities);
    NumericCodesAppend(Header, Tables);
    NumericCodesAppend(Header + Tables, OpenEntities);
  }

  lemma HeaderCodes()
    ensures NumericCodes(Header)
  {
  }

  lemma TablesCodes()
    ensures NumericCodes(Tables)
  {
  }

  /** The fixed prologue: HEADER declaring AC1009 first, ENTITIES opened last. */
  lemma PrologueShape()
    ensures |Prologue| == 47
    ensures Prologue[..4] == [Group("0", "SECTION"), Group("2", "HEADER"), Group("9", "$ACADVER"), Group("1", "AC1009")]
    ensures Prologue[45..] == [Group("0", "SECTION"), Group("2", "ENTITIES")]
  {
    assert Prologue[..4] == Header[..4];
    assert Prologue[45..] == OpenEntities;
  }

  /**
    The file is the fixed prologue (ending with ENTITIES opened), the entity
    records, the dimension records, then ENDSEC and EOF.
   */
  lemma FileFrame(js: Numerics, es: seq<Entity>, ds: seq<Dimension>)
    requires AllWritable(ds)
    ensures var gs := DxfGroups(js, es, ds);
            |gs| >= |Prologue| + 2 &&
            gs[..|Prologue|] == Prologue &&
            gs[|Prologue|..|gs| - 2] == EntitiesGroups(js, es) + DimensionsGroups(js, ds) &&
            gs[|gs| - 2..] == [Group("0", "ENDSEC"), Group("0", "EOF")]
  {
    FourParts(Prologue, EntitiesGroups(js, es), DimensionsGroups(js, ds), Epilogue);
  }

  lemma FourParts<T>(a: seq<T>, b: seq<T>, c: seq<T>, d: seq<T>)
    ensures var s := a + b + c + d;
            s[..|a|] == a && s[|a|..|s| - |d|] == b + c && s[|s| - |d|..] == d
  {
    var s := a + b + c + d;
    assert s[..|a|] == a;
    assert s[|a|..|s| - |d|] == b + c;
    assert s[|s| - |d|..] == d;
  }

  /**
    In the whole file every group code is numeric, the entity records are on
    layer 0 without a color and never LWPOLYLINE, and the dimension records are
    LINE and TEXT on layer DIMENSIONS in color 3 or 1.
   */
  lemma FileRecords(js: Numerics, es: seq<Entity>, ds: seq<Dimension>)
    requires AllWritable(ds)
    ensures NumericCodes(DxfGroups(js, es, ds))
    ensures Styled(EntitiesGroups(js, es), EntityKeywords, "0", {})
    ensures Styled(DimensionsGroups(js, ds), DimensionKeywords, DimLayer, DimensionColors)
  {
    var ents, dims := EntitiesGroups(js, es), DimensionsGroups(js, ds);
    EntitiesRecords(js, es);
    DimensionsRecords(js, ds);
    FixedCodes();
    NumericCodesAppend(Prologue, ents);
    NumericCodesAppend(Prologue + ents, dims);
    NumericCodesAppend(Prologue + ents + dims, Epilogue);
  }

  /** The TABLES section declares the CONTINUOUS line type ... */
  lemma TablesLineType()
    ensures Tables[5..9] == [Group("0", "LTYPE"), Group("2", "CONTINUOUS"), Group("70", "64"), Group("3", "Solid line")]
  {
    assert Tables[5..9] == [Tables[5], Tables[6], Tables[7], Tables[8]];
  }

  /** ... and the layers 0 (color 7) and DIMENSIONS (color 3), both with that line type. */
  lemma TablesLayers()
    ensures Tables[16..21] == [Group("0", "LAYER"), Group("2", "0"), Group("70", "0"), Group("62", "7"), Group("6", "CONTINUOUS")]
    ensures Tables[21..26] == [Group("0", "LAYER"), Group("2", DimLayer), Group("70", "0"), Group("62", "3"), Group("6", "CONTINUOUS")]
  {
    assert Tables[16..21] == [Tables[16], Tables[17], Tables[18], Tables[19], Tables[20]];
    assert Tables[21..26] == [Tables[21], Tables[22], Tables[23], Tables[24], Tables[25]];
  }
}
