/**
  Writing then reading: the text generateDXF (src/services/dxfWriter.js)
  produces for a list of entities and no dimensions, split into lines and
  decoded by parseDXF (src/services/dxfParser.js), gives the entities back,
  up to what the two files do differently on purpose: a polyline comes back
  with the writer's dummy (0, 0) point in front of its vertices, and a circle
  of radius 0 fails the decoder's validity test and is dropped.

  Number text is opaque here, so the round trip is stated under three facts
  about the number functions: every number is written as non-blank text
  (`ShowPrintable`), parseFloat reads back what String wrote for each
  coordinate and radius of the entities (`EntitiesReadBack`), and parseFloat
  reads "0.0" as 0 (`ReadsZero`). Reading back is assumed only for the numbers
  that occur: no function from the reals to strings is one-to-one, so it cannot
  hold for every number at once.
 */
module RoundTrip {
  import opened JsRuntime
  import opened Entities
  import opened DxfParser
  import opened DxfParserProperties
  import opened DxfWriter
  import opened DxfWriterProperties

  /** parseFloat reads x back from the text String wrote for it. */
  ghost predicate ReadsBack(js: Numerics, x: real) {
    js.parseFloat(js.show(x)) == x
  }

  ghost predicate PointReadsBack(js: Numerics, p: Point) {
    ReadsBack(js, p.x) && ReadsBack(js, p.y)
  }

  ghost predicate VerticesReadBack(js: Numerics, vs: seq<Point>) {
    forall k :: 0 <= k < |vs| ==> PointReadsBack(js, vs[k])
  }

  /** Every number the writer prints for e reads back. */
  ghost predicate EntityReadsBack(js: Numerics, e: Entity) {
    match e
    case Line(s, t) => PointReadsBack(js, s) && PointReadsBack(js, t)
    case LwPolyline(vs, _) => VerticesReadBack(js, vs)
    case Circle(c, r) => PointReadsBack(js, c) && ReadsBack(js, r)
  }

  ghost predicate EntitiesReadBack(js: Numerics, es: seq<Entity>) {
    forall k :: 0 <= k < |es| ==> EntityReadsBack(js, es[k])
  }

  ghost predicate ReadsZero(js: Numerics) {
    js.parseFloat("0.0") == 0.0
  }

  // ---------------------------------------------------------------------------
  // The decoder fed whole groups

  /** The decoder's state after the groups, each applied as one ordinary pair. */
  function Absorb(st: DecoderState, gs: seq<Group>, parseFloat: string -> real): (r: DecoderState)
    requires WellFormed(st)
    ensures WellFormed(r)
    decreases |gs|
  {
    if gs == [] then st else Absorb(Apply(st, gs[0].code, gs[0].value, parseFloat), gs[1..], parseFloat)
  }

  lemma {:induction false} AbsorbAppend(st: DecoderState, a: seq<Group>, b: seq<Group>, parseFloat: string -> real)
    requires WellFormed(st)
    ensures Absorb(st, a + b, parseFloat) == Absorb(Absorb(st, a, parseFloat), b, parseFloat)
    decreases |a|
  {
    if a != [] {
      assert (a + b)[0] == a[0];
      assert (a + b)[1..] == a[1..] + b;
      AbsorbAppend(Apply(st, a[0].code, a[0].value, parseFloat), a[1..], b, parseFloat);
    } else {
      assert a + b == b;
    }
  }

  lemma AbsorbFront(st: DecoderState, gs: seq<Group>, parseFloat: string -> real)
    requires WellFormed(st) && gs != []
    ensures Absorb(st, gs, parseFloat) == Absorb(Apply(st, gs[0].code, gs[0].value, parseFloat), gs[1..], parseFloat)
  {
  }

  /** One group off the front of a suffix. */
  lemma AbsorbAt(st: DecoderState, gs: seq<Group>, k: nat, parseFloat: string -> real)
    requires WellFormed(st) && k < |gs|
    ensures Absorb(st, gs[k..], parseFloat) == Absorb(Apply(st, gs[k].code, gs[k].value, parseFloat), gs[k + 1..], parseFloat)
  {
    assert gs[k..][0] == gs[k];
    assert gs[k..][1..] == gs[k + 1..];
  }

  lemma {:induction false} AbsorbOutside(st: DecoderState, gs: seq<Group>, parseFloat: string -> real)
    requires WellFormed(st) && !st.inEntities
    ensures Absorb(st, gs, parseFloat) == st
    decreases |gs|
  {
    if gs != [] {
      OutsideEntitiesIgnored(st, gs[0].code, gs[0].value, parseFloat);
      AbsorbOutside(st, gs[1..], parseFloat);
    }
  }

  // ---------------------------------------------------------------------------
  // From the lines to the groups

  /** Every code and value line survives trim and holds no line break. */
  predicate Clean(gs: seq<Group>) {
    forall j :: 0 <= j < |gs| ==> Settled(gs[j].code) && Settled(gs[j].value)
  }

  lemma CleanAppend(a: seq<Group>, b: seq<Group>)
    requires Clean(a) && Clean(b)
    ensures Clean(a + b)
  {
    forall j | 0 <= j < |a + b| ensures Settled((a + b)[j].code) && Settled((a + b)[j].value) {
      if j >= |a| {
        assert (a + b)[j] == b[j - |a|];
      }
    }
  }

  /** The pair at group j opens the ENTITIES section. */
  predicate Opener(gs: seq<Group>, j: nat) {
    j + 1 < |gs| && gs[j] == Group("0", "SECTION") && gs[j + 1] == Group("2", "ENTITIES")
  }

  /** The lines are the code and value of each group in turn, then one empty line. */
  predicate Holds(lines: seq<string>, gs: seq<Group>) {
    |lines| == |gs| + |gs| + 1 && lines[|gs| + |gs|] == "" &&
    forall j :: 0 <= j < |gs| ==> lines[j + j] == gs[j].code && lines[j + j + 1] == gs[j].value
  }

  lemma {:induction false} LinesAt(gs: seq<Group>, j: nat)
    requires j < |gs|
    ensures Lines(gs)[j + j] == gs[j].code && Lines(gs)[j + j + 1] == gs[j].value
  {
    if j > 0 {
      LinesAt(gs[1..], j - 1);
    }
  }

  /** The text split into lines holds the groups; none of its lines breaks. */
  lemma TextHolds(gs: seq<Group>)
    requires Clean(gs)
    ensures Holds(Lines(gs) + [""], gs)
    ensures forall i :: 0 <= i < |Lines(gs)| ==> NoLineBreak(Lines(gs)[i])
  {
    forall j | 0 <= j < |gs| ensures (Lines(gs) + [""])[j + j] == gs[j].code && (Lines(gs) + [""])[j + j + 1] == gs[j].value {
      LinesAt(gs, j);
    }
    forall i | 0 <= i < |Lines(gs)| ensures NoLineBreak(Lines(gs)[i]) {
      LinesAt(gs, i / 2);
    }
  }

  /** One turn of the loop, given the trimmed code and value it reads. */
  lemma StepReads(lines: seq<string>, i: nat, st: DecoderState, code: string, value: string, parseFloat: string -> real)
    requires i + 1 < |lines| && WellFormed(st)
    requires CodeAt(lines, i) == code && CodeAt(lines, i + 1) == value && code != "" && value != ""
    ensures Step(lines, i, st, parseFloat) ==
            if code == "0" && value == "SECTION" && OpensEntities(lines, i) then (i + 4, st.(inEntities := true))
            else (i + 2, Apply(st, code, value, parseFloat))
  {
  }

  lemma OpensLines(lines: seq<string>, i: nat, code: string, value: string)
    requires i + 3 < |lines| && CodeAt(lines, i + 2) == code && CodeAt(lines, i + 3) == value
    ensures OpensEntities(lines, i) <==> code == "2" && value == "ENTITIES"
  {
  }

  /** The trimmed lines of group j, which start at line i, are its code and value. */
  lemma ReadsAt(lines: seq<string>, gs: seq<Group>, j: nat, i: nat)
    requires Holds(lines, gs) && Clean(gs) && j < |gs| && i == j + j
    ensures i + 1 < |lines| && CodeAt(lines, i) == gs[j].code && CodeAt(lines, i + 1) == gs[j].value
  {
    assert lines[i] == gs[j].code && lines[i + 1] == gs[j].value;
    TrimSettled(gs[j].code);
    TrimSettled(gs[j].value);
  }

  lemma OpensAt(lines: seq<string>, gs: seq<Group>, j: nat, i: nat)
    requires Holds(lines, gs) && Clean(gs) && j < |gs| && i == j + j
    ensures OpensEntities(lines, i) <==> j + 1 < |gs| && gs[j + 1] == Group("2", "ENTITIES")
  {
    if j + 1 < |gs| {
      var j', i' := j + 1, i + 2;
      assert i' == j' + j';
      ReadsAt(lines, gs, j', i');
      OpensLines(lines, i, gs[j + 1].code, gs[j + 1].value);
    }
  }

  /** One turn of the decoder's loop on a clean group: the group is applied, or the section opened. */
  lemma StepGroup(lines: seq<string>, gs: seq<Group>, j: nat, i: nat, st: DecoderState, parseFloat: string -> real)
    requires Holds(lines, gs) && Clean(gs) && j < |gs| && i == j + j && WellFormed(st)
    ensures i < |lines|
    ensures Step(lines, i, st, parseFloat) ==
            if Opener(gs, j) then (i + 4, st.(inEntities := true))
            else (i + 2, Apply(st, gs[j].code, gs[j].value, parseFloat))
  {
    ReadsAt(lines, gs, j, i);
    OpensAt(lines, gs, j, i);
    StepReads(lines, i, st, gs[j].code, gs[j].value, parseFloat);
  }

  /** The groups gs[k], ..., gs[m - 1] applied in turn, by position. */
  function AbsorbRange(st: DecoderState, gs: seq<Group>, k: nat, m: nat, parseFloat: string -> real): (r: DecoderState)
    requires WellFormed(st) && k <= m <= |gs|
    ensures WellFormed(r)
    decreases m - k
  {
    if k == m then st else AbsorbRange(Apply(st, gs[k].code, gs[k].value, parseFloat), gs, k + 1, m, parseFloat)
  }

  /** The lines of group j read as that group's code and value, and they do not open the section. */
  predicate PlainAt(lines: seq<string>, gs: seq<Group>, j: nat)
    requires j < |gs|
  {
    var i := j + j;
    i + 1 < |lines| && CodeAt(lines, i) == gs[j].code && CodeAt(lines, i + 1) == gs[j].value &&
    gs[j].code != "" && gs[j].value != "" &&
    !(gs[j].code == "0" && gs[j].value == "SECTION" && OpensEntities(lines, i))
  }

  /** Every clean group that does not open the section is read plainly. */
  lemma PlainSpan(lines: seq<string>, gs: seq<Group>, k: nat, m: nat)
    requires Holds(lines, gs) && Clean(gs) && k <= m <= |gs|
    requires forall j :: k <= j < m ==> !Opener(gs, j)
    ensures forall j :: k <= j < m ==> PlainAt(lines, gs, j)
  {
    forall j | k <= j < m ensures PlainAt(lines, gs, j) {
      ReadsAt(lines, gs, j, j + j);
      OpensAt(lines, gs, j, j + j);
      assert !Opener(gs, j);
      if gs[j].code == "0" && gs[j].value == "SECTION" {
        assert gs[j] == Group("0", "SECTION");
      }
    }
  }

  lemma PlainStep(lines: seq<string>, gs: seq<Group>, j: nat, i: nat, st: DecoderState, parseFloat: string -> real)
    requires j < |gs| && i == j + j && WellFormed(st) && PlainAt(lines, gs, j)
    ensures i < |lines| && Step(lines, i, st, parseFloat) == (i + 2, Apply(st, gs[j].code, gs[j].value, parseFloat))
  {
    StepReads(lines, i, st, gs[j].code, gs[j].value, parseFloat);
  }

  /**
    A span of groups that are read plainly, starting at line i, is read as
    those groups applied in turn.
   */
  lemma {:induction false} RunSpan(lines: seq<string>, gs: seq<Group>, k: nat, m: nat, i: nat, st: DecoderState, parseFloat: string -> real)
    requires k <= m <= |gs| && i == k + k && WellFormed(st)
    requires forall j :: k <= j < m ==> PlainAt(lines, gs, j)
    ensures Run(lines, i, st, parseFloat) == Run(lines, m + m, AbsorbRange(st, gs, k, m, parseFloat), parseFloat)
    decreases m - k
  {
    if k < m {
      var st' := Apply(st, gs[k].code, gs[k].value, parseFloat);
      var k', i' := k + 1, i + 2;
      PlainStep(lines, gs, k, i, st, parseFloat);
      RunStep(lines, i, st, i', st', parseFloat);
      RunSpan(lines, gs, k', m, i', st', parseFloat);
      assert AbsorbRange(st, gs, k, m, parseFloat) == AbsorbRange(st', gs, k', m, parseFloat);
    } else {
      assert i == m + m;
      assert AbsorbRange(st, gs, k, m, parseFloat) == st;
    }
  }

  /** Folding by position is folding over the slice. */
  lemma {:induction false} AbsorbRangeSlice(st: DecoderState, gs: seq<Group>, k: nat, m: nat, parseFloat: string -> real)
    requires WellFormed(st) && k <= m <= |gs|
    ensures AbsorbRange(st, gs, k, m, parseFloat) == Absorb(st, gs[k..m], parseFloat)
    decreases m - k
  {
    if k < m {
      AbsorbSlice(st, gs, k, m, parseFloat);
      AbsorbRangeSlice(Apply(st, gs[k].code, gs[k].value, parseFloat), gs, k + 1, m, parseFloat);
    } else {
      assert gs[k..m] == [];
    }
  }

  lemma AbsorbSlice(st: DecoderState, gs: seq<Group>, k: nat, m: nat, parseFloat: string -> real)
    requires k < m <= |gs| && WellFormed(st)
    ensures Absorb(st, gs[k..m], parseFloat) == Absorb(Apply(st, gs[k].code, gs[k].value, parseFloat), gs[k + 1..m], parseFloat)
  {
    AbsorbFront(st, gs[k..m], parseFloat);
    assert gs[k..m][0] == gs[k];
    assert gs[k..m][1..] == gs[k + 1..m];
  }

  /** One turn of the loop taken. */
  lemma RunStep(lines: seq<string>, i: nat, st: DecoderState, j: nat, st': DecoderState, parseFloat: string -> real)
    requires i < |lines| && WellFormed(st) && Step(lines, i, st, parseFloat) == (j, st')
    ensures Run(lines, i, st, parseFloat) == Run(lines, j, st', parseFloat)
  {
  }

  lemma RunOpener(lines: seq<string>, gs: seq<Group>, k: nat, i: nat, st: DecoderState, parseFloat: string -> real)
    requires Holds(lines, gs) && Clean(gs) && k < |gs| && i == k + k && WellFormed(st) && Opener(gs, k)
    ensures Run(lines, i, st, parseFloat) == Run(lines, i + 4, st.(inEntities := true), parseFloat)
  {
    StepGroup(lines, gs, k, i, st, parseFloat);
    RunStep(lines, i, st, i + 4, st.(inEntities := true), parseFloat);
  }

  /** The empty line after the last newline is skipped. */
  lemma RunEnd(lines: seq<string>, gs: seq<Group>, st: DecoderState, parseFloat: string -> real)
    requires Holds(lines, gs) && WellFormed(st)
    ensures Run(lines, |gs| + |gs|, st, parseFloat) == st
  {
    assert TrimStart("") == "";
    assert CodeAt(lines, |gs| + |gs|) == "";
  }

  // ---------------------------------------------------------------------------
  // One entity at a time

  /**
    Between two entities: inside the section, not in an R12 polyline, every
    array entry frozen, and the entries plus the pending commit are `done`.
   */
  predicate Between(st: DecoderState, done: seq<Entity>) {
    st.inEntities && !st.legacy && AllFrozen(st) && FrozenValues(st) + Committed(st.current) == done
  }

  lemma ResolveFrozen(st: DecoderState)
    requires AllFrozen(st)
    ensures WellFormed(st) && Resolve(st) == FrozenValues(st)
  {
  }

  /** LINE, POLYLINE or CIRCLE between two entities commits the pending entity and starts a fresh one. */
  lemma StartEntity(st: DecoderState, value: string, parseFloat: string -> real)
    requires st.inEntities && !st.legacy && AllFrozen(st)
    requires value == "LINE" || value == "POLYLINE" || value == "CIRCLE"
    ensures var r := Apply(st, "0", value, parseFloat);
            r.inEntities && (r.legacy <==> value == "POLYLINE") && r.current == Started(value) &&
            AllFrozen(r) && FrozenValues(r) == FrozenValues(st) + Committed(st.current)
  {
    ResolveFrozen(st);
    BoundaryCommits(st, value);
    var r := Boundary(st, value);
    assert Apply(st, "0", value, parseFloat) == r;
    if st.current.Some? {
      assert r.pushed == Freeze((if Committable(st.current.value) then PushCurrent(st) else st).pushed, st.current.value);
    } else {
      assert r.pushed == st.pushed;
    }
    ResolveFrozen(r);
  }

  lemma AbsorbDone(st: DecoderState, gs: seq<Group>, parseFloat: string -> real)
    requires WellFormed(st)
    ensures Absorb(st, gs[|gs|..], parseFloat) == st
  {
    assert gs[|gs|..] == [];
  }

  /** The entity in progress after a run of property pairs. */
  function Props(e: Entity, gs: seq<Group>, legacy: bool, parseFloat: string -> real): Entity
    decreases |gs|
  {
    if gs == [] then e else Props(WithProperty(e, gs[0].code, gs[0].value, legacy, parseFloat), gs[1..], legacy, parseFloat)
  }

  lemma PropsAt(e: Entity, gs: seq<Group>, k: nat, legacy: bool, parseFloat: string -> real)
    requires k < |gs|
    ensures Props(e, gs[k..], legacy, parseFloat) ==
            Props(WithProperty(e, gs[k].code, gs[k].value, legacy, parseFloat), gs[k + 1..], legacy, parseFloat)
  {
    assert gs[k..][0] == gs[k];
    assert gs[k..][1..] == gs[k + 1..];
  }

  lemma PropsDone(e: Entity, gs: seq<Group>, legacy: bool, parseFloat: string -> real)
    ensures Props(e, gs[|gs|..], legacy, parseFloat) == e
  {
    assert gs[|gs|..] == [];
  }

  /** Groups none of whose codes is 0 only change the entity in progress. */
  lemma {:induction false} AbsorbProps(st: DecoderState, gs: seq<Group>, parseFloat: string -> real)
    requires WellFormed(st) && st.inEntities && st.current.Some?
    requires forall k :: 0 <= k < |gs| ==> gs[k].code != "0"
    ensures Absorb(st, gs, parseFloat) == st.(current := Some(Props(st.current.value, gs, st.legacy, parseFloat)))
    decreases |gs|
  {
    if gs != [] {
      var st' := st.(current := Some(WithProperty(st.current.value, gs[0].code, gs[0].value, st.legacy, parseFloat)));
      assert Apply(st, gs[0].code, gs[0].value, parseFloat) == st';
      AbsorbProps(st', gs[1..], parseFloat);
    }
  }

  /** An entity record: the keyword, then property pairs only. */
  lemma AbsorbRecord(st: DecoderState, gs: seq<Group>, parseFloat: string -> real)
    requires WellFormed(st) && gs != [] && gs[0].code == "0"
    requires var s1 := Apply(st, "0", gs[0].value, parseFloat); s1.inEntities && s1.current.Some?
    requires forall k :: 1 <= k < |gs| ==> gs[k].code != "0"
    ensures var s1 := Apply(st, "0", gs[0].value, parseFloat);
            Absorb(st, gs, parseFloat) == s1.(current := Some(Props(s1.current.value, gs[1..], s1.legacy, parseFloat)))
  {
    var s1 := Apply(st, "0", gs[0].value, parseFloat);
    AbsorbFront(st, gs, parseFloat);
    AbsorbProps(s1, gs[1..], parseFloat);
  }

  /** The property pairs of a written LINE set its two points: 10/20 the start, 11/21 the end. */
  lemma LineProps(js: Numerics, s: Point, t: Point)
    requires PointReadsBack(js, s) && PointReadsBack(js, t)
    ensures var gs := EntityGroups(js, Line(s, t));
            Props(NewLine, gs[1..], false, js.parseFloat) == Line(s, t)
  {
    var gs := EntityGroups(js, Line(s, t))[1..];
    assert gs[0..] == gs;
    LineStartProps(js, s, t);
    LineEndProps(js, s, t);
  }

  /** The groups of a written LINE on layer 0 in its own colour. */
  lemma LineGroups(js: Numerics, s: Point, t: Point)
    ensures EntityGroups(js, Line(s, t)) ==
      [Group("0", "LINE"), Group("8", "0"),
       Group("10", js.show(s.x)), Group("20", js.show(s.y)), Group("30", "0.0"),
       Group("11", js.show(t.x)), Group("21", js.show(t.y)), Group("31", "0.0")]
  {
  }

  /** One property pair whose effect is known. */
  lemma PropsStep(e: Entity, gs: seq<Group>, k: nat, e': Entity, legacy: bool, parseFloat: string -> real)
    requires k < |gs| && WithProperty(e, gs[k].code, gs[k].value, legacy, parseFloat) == e'
    ensures Props(e, gs[k..], legacy, parseFloat) == Props(e', gs[k + 1..], legacy, parseFloat)
  {
    PropsAt(e, gs, k, legacy, parseFloat);
  }

  lemma LineStartProps(js: Numerics, s: Point, t: Point)
    requires PointReadsBack(js, s)
    ensures var gs := EntityGroups(js, Line(s, t))[1..];
            |gs| == 7 && Props(NewLine, gs[0..], false, js.parseFloat) == Props(Line(s, Origin), gs[3..], false, js.parseFloat)
  {
    var pf := js.parseFloat;
    LineGroups(js, s, t);
    var gs := EntityGroups(js, Line(s, t))[1..];
    assert gs[0] == Group("8", "0") && gs[1] == Group("10", js.show(s.x)) && gs[2] == Group("20", js.show(s.y));
    var e1 := Line(Point(s.x, 0.0), Origin);
    PropsStep(NewLine, gs, 0, NewLine, false, pf);
    PropsStep(NewLine, gs, 1, e1, false, pf);
    PropsStep(e1, gs, 2, Line(s, Origin), false, pf);
  }

  lemma LineEndProps(js: Numerics, s: Point, t: Point)
    requires PointReadsBack(js, t)
    ensures var gs := EntityGroups(js, Line(s, t))[1..];
            |gs| == 7 && Props(Line(s, Origin), gs[3..], false, js.parseFloat) == Line(s, t)
  {
    var pf := js.parseFloat;
    LineGroups(js, s, t);
    var gs := EntityGroups(js, Line(s, t))[1..];
    assert gs[3] == Group("30", "0.0") && gs[4] == Group("11", js.show(t.x)) && gs[5] == Group("21", js.show(t.y)) &&
           gs[6] == Group("31", "0.0") && |gs| == 7;
    var e0, e1 := Line(s, Origin), Line(s, Point(t.x, 0.0));
    PropsStep(e0, gs, 3, e0, false, pf);
    PropsStep(e0, gs, 4, e1, false, pf);
    PropsStep(e1, gs, 5, Line(s, t), false, pf);
    PropsStep(Line(s, t), gs, 6, Line(s, t), false, pf);
    PropsDone(Line(s, t), gs, false, pf);
  }

  lemma LineRoundTrip(js: Numerics, st: DecoderState, done: seq<Entity>, s: Point, t: Point)
    requires Between(st, done) && PointReadsBack(js, s) && PointReadsBack(js, t)
    ensures Between(Absorb(st, EntityGroups(js, Line(s, t)), js.parseFloat), done + [Line(s, t)])
  {
    var gs := EntityGroups(js, Line(s, t));
    assert gs[0] == Group("0", "LINE") && forall k :: 1 <= k < |gs| ==> gs[k].code != "0";
    StartEntity(st, "LINE", js.parseFloat);
    AbsorbRecord(st, gs, js.parseFloat);
    LineProps(js, s, t);
  }

  lemma CircleProps(js: Numerics, c: Point, r: real)
    requires PointReadsBack(js, c) && ReadsBack(js, r)
    ensures var gs := EntityGroups(js, Circle(c, r));
            Props(NewCircle, gs[1..], false, js.parseFloat) == Circle(c, r)
  {
    var pf := js.parseFloat;
    var gs := EntityGroups(js, Circle(c, r))[1..];
    assert gs == [Group("8", "0"), Group("10", js.show(c.x)), Group("20", js.show(c.y)), Group("30", "0"), Group("40", js.show(r))];
    assert gs[0..] == gs;
    var e1, e2, e3 := Circle(Point(c.x, 0.0), 0.0), Circle(c, 0.0), Circle(c, r);
    PropsStep(NewCircle, gs, 0, NewCircle, false, pf);
    PropsStep(NewCircle, gs, 1, e1, false, pf);
    PropsStep(e1, gs, 2, e2, false, pf);
    PropsStep(e2, gs, 3, e2, false, pf);
    PropsStep(e2, gs, 4, e3, false, pf);
    PropsDone(e3, gs, false, pf);
  }

  lemma CircleRoundTrip(js: Numerics, st: DecoderState, done: seq<Entity>, c: Point, r: real)
    requires Between(st, done) && PointReadsBack(js, c) && ReadsBack(js, r)
    ensures Between(Absorb(st, EntityGroups(js, Circle(c, r)), js.parseFloat), done + Recovered(Circle(c, r)))
  {
    var gs := EntityGroups(js, Circle(c, r));
    assert gs[0] == Group("0", "CIRCLE") && forall k :: 1 <= k < |gs| ==> gs[k].code != "0";
    StartEntity(st, "CIRCLE", js.parseFloat);
    AbsorbRecord(st, gs, js.parseFloat);
    CircleProps(js, c, r);
  }

  /** The property pairs of a VERTEX record append its point to the polyline. */
  lemma VertexProps(js: Numerics, ws: seq<Point>, closed: bool, v: Point)
    requires PointReadsBack(js, v)
    ensures Props(LwPolyline(ws, closed), VertexGroups(js, v)[1..], true, js.parseFloat) == LwPolyline(ws + [v], closed)
  {
    var pf := js.parseFloat;
    var gs := VertexGroups(js, v)[1..];
    assert gs == [Group("8", "0"), Group("10", js.show(v.x)), Group("20", js.show(v.y)), Group("30", "0")];
    var e := LwPolyline(ws, closed);
    var e3 := LwPolyline(ws + [Point(v.x, 0.0)], closed);
    var e4 := LwPolyline(ws + [v], closed);
    assert (ws + [Point(v.x, 0.0)])[|ws| := (ws + [Point(v.x, 0.0)])[|ws|].(y := v.y)] == ws + [v];
    assert gs[0..] == gs;
    PropsStep(e, gs, 0, e, true, pf);
    PropsStep(e, gs, 1, e3, true, pf);
    PropsStep(e3, gs, 2, e4, true, pf);
    PropsStep(e4, gs, 3, e4, true, pf);
    PropsDone(e4, gs, true, pf);
  }

  /** One VERTEX record inside an R12 polyline appends its point. */
  lemma VertexRoundTrip(js: Numerics, st: DecoderState, ws: seq<Point>, closed: bool, v: Point)
    requires st.inEntities && st.legacy && st.current == Some(LwPolyline(ws, closed)) && PointReadsBack(js, v)
    ensures Absorb(st, VertexGroups(js, v), js.parseFloat) == st.(current := Some(LwPolyline(ws + [v], closed)))
  {
    var gs := VertexGroups(js, v);
    assert gs[0] == Group("0", "VERTEX") && forall k :: 1 <= k < |gs| ==> gs[k].code != "0";
    LegacyBoundary(st, "VERTEX");
    assert Apply(st, "0", "VERTEX", js.parseFloat) == st;
    AbsorbRecord(st, gs, js.parseFloat);
    VertexProps(js, ws, closed, v);
  }

  lemma {:induction false} VerticesRoundTrip(js: Numerics, st: DecoderState, ws: seq<Point>, closed: bool, vs: seq<Point>)
    requires st.inEntities && st.legacy && st.current == Some(LwPolyline(ws, closed)) && VerticesReadBack(js, vs)
    ensures Absorb(st, VerticesGroups(js, vs), js.parseFloat) == st.(current := Some(LwPolyline(ws + vs, closed)))
  {
    var pf := js.parseFloat;
    if vs == [] {
      assert ws + vs == ws;
    } else {
      var n := |vs| - 1;
      assert forall k :: 0 <= k < n ==> vs[..n][k] == vs[k];
      assert PointReadsBack(js, vs[n]);
      VerticesRoundTrip(js, st, ws, closed, vs[..n]);
      var mid := st.(current := Some(LwPolyline(ws + vs[..n], closed)));
      VertexRoundTrip(js, mid, ws + vs[..n], closed, vs[n]);
      AbsorbAppend(st, VerticesGroups(js, vs[..n]), VertexGroups(js, vs[n]), pf);
      assert (ws + vs[..n]) + [vs[n]] == ws + vs;
    }
  }

  /** The flag written for the closed bit reads back as that bit. */
  lemma FlagBit(closed: bool)
    ensures ClosedBit(if closed then "1" else "0") == closed
  {
    ClosedBitOfInteger(if closed then 1 else 0);
    assert IntToString(1) == "1" && IntToString(0) == "0";
  }

  /** The POLYLINE header's pairs: the closed flag and the dummy point at the origin. */
  lemma PolylineHeaderProps(js: Numerics, closed: bool)
    requires ReadsZero(js)
    ensures Props(NewPolyline, PolylineHeader(closed)[1..], true, js.parseFloat) == LwPolyline([Origin], closed)
  {
    var gs := PolylineHeader(closed)[1..];
    assert gs[0..] == gs;
    PolylineFlagProps(js, closed);
    PolylineDummyProps(js, closed);
  }

  lemma PolylineFlagProps(js: Numerics, closed: bool)
    ensures var gs := PolylineHeader(closed)[1..];
            |gs| == 6 && Props(NewPolyline, gs[0..], true, js.parseFloat) == Props(LwPolyline([], closed), gs[3..], true, js.parseFloat)
  {
    var gs := PolylineHeader(closed)[1..];
    assert gs[0] == Group("8", "0") && gs[1] == Group("66", "1") && gs[2] == Group("70", if closed then "1" else "0") && |gs| == 6;
    FlagBit(closed);
    FlagPairs(gs, closed, js.parseFloat);
  }

  /** The layer, vertices-follow and flag pairs of a POLYLINE header set only the closed flag. */
  lemma FlagPairs(gs: seq<Group>, closed: bool, pf: string -> real)
    requires |gs| == 6 && gs[0].code == "8" && gs[1].code == "66" && gs[2].code == "70" && ClosedBit(gs[2].value) == closed
    ensures Props(NewPolyline, gs[0..], true, pf) == Props(LwPolyline([], closed), gs[3..], true, pf)
  {
    FlagGroups(gs, closed, pf);
    PropsStep(NewPolyline, gs, 0, NewPolyline, true, pf);
    PropsStep(NewPolyline, gs, 1, NewPolyline, true, pf);
    PropsStep(NewPolyline, gs, 2, LwPolyline([], closed), true, pf);
  }

  /** The layer and entities-follow groups leave the new polyline as it is; the flag group sets its closed flag. */
  lemma FlagGroups(gs: seq<Group>, closed: bool, pf: string -> real)
    requires |gs| == 6 && gs[0].code == "8" && gs[1].code == "66" && gs[2].code == "70" && ClosedBit(gs[2].value) == closed
    ensures WithProperty(NewPolyline, gs[0].code, gs[0].value, true, pf) == NewPolyline
    ensures WithProperty(NewPolyline, gs[1].code, gs[1].value, true, pf) == NewPolyline
    ensures WithProperty(NewPolyline, gs[2].code, gs[2].value, true, pf) == LwPolyline([], closed)
  {
  }

  lemma PolylineDummyProps(js: Numerics, closed: bool)
    requires ReadsZero(js)
    ensures var gs := PolylineHeader(closed)[1..];
            |gs| == 6 && Props(LwPolyline([], closed), gs[3..], true, js.parseFloat) == LwPolyline([Origin], closed)
  {
    var pf := js.parseFloat;
    var gs := PolylineHeader(closed)[1..];
    var e := LwPolyline([Origin], closed);
    assert gs[3] == Group("10", "0.0") && gs[4] == Group("20", "0.0") && gs[5] == Group("30", "0.0") && |gs| == 6;
    assert [] + [Point(pf("0.0"), 0.0)] == [Origin];
    assert [Origin][0 := Origin.(y := pf("0.0"))] == [Origin];
    PropsStep(LwPolyline([], closed), gs, 3, e, true, pf);
    PropsStep(e, gs, 4, e, true, pf);
    PropsStep(e, gs, 5, e, true, pf);
    PropsDone(e, gs, true, pf);
  }

  lemma PolylineHeaderRoundTrip(js: Numerics, st: DecoderState, closed: bool)
    requires st.inEntities && !st.legacy && AllFrozen(st) && ReadsZero(js)
    ensures var r := Absorb(st, PolylineHeader(closed), js.parseFloat);
            r.inEntities && r.legacy && r.current == Some(LwPolyline([Origin], closed)) &&
            AllFrozen(r) && FrozenValues(r) == FrozenValues(st) + Committed(st.current)
  {
    var gs := PolylineHeader(closed);
    assert gs[0] == Group("0", "POLYLINE") && forall k :: 1 <= k < |gs| ==> gs[k].code != "0";
    StartEntity(st, "POLYLINE", js.parseFloat);
    AbsorbRecord(st, gs, js.parseFloat);
    PolylineHeaderProps(js, closed);
  }

  /** SEQEND commits the polyline in progress, whatever it holds; the layer pair after it is outside any entity. */
  lemma SeqEndRoundTrip(st: DecoderState, p: Entity, parseFloat: string -> real)
    requires st.inEntities && st.legacy && AllFrozen(st) && st.current == Some(p) && p.LwPolyline?
    ensures Between(Absorb(st, SeqEnd, parseFloat), FrozenValues(st) + [p])
  {
    ResolveFrozen(st);
    LegacyBoundary(st, "SEQEND");
    var r := Boundary(st, "SEQEND");
    assert Apply(st, "0", "SEQEND", parseFloat) == r;
    assert r.pushed == Freeze(st.pushed + [Live], p);
    ResolveFrozen(r);
    assert Apply(r, "8", "0", parseFloat) == r;
    assert SeqEnd[0..] == SeqEnd;
    AbsorbAt(st, SeqEnd, 0, parseFloat);
    AbsorbAt(r, SeqEnd, 1, parseFloat);
    AbsorbDone(r, SeqEnd, parseFloat);
  }

  lemma PolylineRoundTrip(js: Numerics, st: DecoderState, done: seq<Entity>, vs: seq<Point>, closed: bool)
    requires Between(st, done) && VerticesReadBack(js, vs) && ReadsZero(js)
    ensures Between(Absorb(st, EntityGroups(js, LwPolyline(vs, closed)), js.parseFloat), done + Recovered(LwPolyline(vs, closed)))
  {
    var pf := js.parseFloat;
    var h, b := PolylineHeader(closed), VerticesGroups(js, vs);
    PolylineHeaderRoundTrip(js, st, closed);
    var s1 := Absorb(st, h, pf);
    VerticesRoundTrip(js, s1, [Origin], closed, vs);
    var s2 := Absorb(s1, b, pf);
    SeqEndRoundTrip(s2, LwPolyline([Origin] + vs, closed), pf);
    AbsorbAppend(st, h, b, pf);
    AbsorbAppend(st, h + b, SeqEnd, pf);
    assert FrozenValues(s2) == FrozenValues(s1);
  }

  /** What the decoder reads back of one written entity. */
  function Recovered(e: Entity): seq<Entity> {
    match e
    case Line(_, _) => [e]
    case LwPolyline(vs, closed) => [LwPolyline([Origin] + vs, closed)]
    case Circle(_, r) => if r != 0.0 then [e] else []
  }

  function RecoveredAll(es: seq<Entity>): seq<Entity> {
    if es == [] then [] else RecoveredAll(es[..|es| - 1]) + Recovered(es[|es| - 1])
  }

  lemma EntityRoundTrip(js: Numerics, st: DecoderState, done: seq<Entity>, e: Entity)
    requires Between(st, done) && EntityReadsBack(js, e) && ReadsZero(js)
    ensures Between(Absorb(st, EntityGroups(js, e), js.parseFloat), done + Recovered(e))
  {
    match e {
      case Line(s, t) => LineRoundTrip(js, st, done, s, t);
      case LwPolyline(vs, closed) => PolylineRoundTrip(js, st, done, vs, closed);
      case Circle(c, r) => CircleRoundTrip(js, st, done, c, r);
    }
  }

  lemma {:induction false} EntitiesRoundTrip(js: Numerics, st: DecoderState, done: seq<Entity>, es: seq<Entity>)
    requires Between(st, done) && EntitiesReadBack(js, es) && ReadsZero(js)
    ensures Between(Absorb(st, EntitiesGroups(js, es), js.parseFloat), done + RecoveredAll(es))
  {
    if es == [] {
      assert done + [] == done;
    } else {
      var n := |es| - 1;
      assert forall k :: 0 <= k < n ==> es[..n][k] == es[k];
      assert EntityReadsBack(js, es[n]);
      EntitiesRoundTrip(js, st, done, es[..n]);
      var mid := Absorb(st, EntitiesGroups(js, es[..n]), js.parseFloat);
      EntityRoundTrip(js, mid, done + RecoveredAll(es[..n]), es[n]);
      AbsorbAppend(st, EntitiesGroups(js, es[..n]), EntityGroups(js, es[n]), js.parseFloat);
      AppendAssoc(done, RecoveredAll(es[..n]), Recovered(es[n]));
    }
  }

  // ---------------------------------------------------------------------------
  // The whole file

  lemma ShowSettled(js: Numerics, x: real)
    requires ShowPrintable(js)
    ensures Settled(js.show(x))
  {
    PrintableSettled(js.show(x));
  }

  /** The group codes of the fixed sections. */
  lemma CodeWords()
    ensures Settled("0") && Settled("1") && Settled("2") && Settled("3") && Settled("6") && Settled("7")
    ensures Settled("8") && Settled("9") && Settled("10") && Settled("11") && Settled("20") && Settled("21")
  {
  }

  lemma MoreCodeWords()
    ensures Settled("30") && Settled("31") && Settled("40") && Settled("62") && Settled("64") && Settled("65")
    ensures Settled("66") && Settled("70") && Settled("72") && Settled("73")
  {
  }

  /** The words of the HEADER section and of the closing groups. */
  lemma HeaderWords()
    ensures Settled("SECTION") && Settled("HEADER") && Settled("$ACADVER") && Settled("AC1009")
    ensures Settled("$INSBASE") && Settled("$EXTMIN") && Settled("$EXTMAX")
  {
  }

  lemma ValueWords()
    ensures Settled("0.0") && Settled("1000.0") && Settled("ENDSEC") && Settled("ENTITIES") && Settled("EOF")
  {
  }

  /** The words of the TABLES section. */
  lemma TablesWords()
    ensures Settled("TABLES") && Settled("TABLE") && Settled("LTYPE") && Settled("CONTINUOUS")
    ensures Settled("Solid line") && Settled("ENDTAB") && Settled("LAYER") && Settled("DIMENSIONS")
  {
  }

  /** The keywords of the entity records. */
  lemma EntityWords()
    ensures Settled("LINE") && Settled("POLYLINE") && Settled("VERTEX") && Settled("SEQEND") && Settled("CIRCLE")
  {
  }

  lemma CleanHeader()
    ensures Clean(Header)
  {
    CodeWords();
    MoreCodeWords();
    HeaderWords();
    ValueWords();
  }

  lemma CleanTables()
    ensures Clean(Tables)
  {
    CodeWords();
    MoreCodeWords();
    HeaderWords();
    ValueWords();
    TablesWords();
  }

  lemma CleanFixed()
    ensures Clean(Prologue) && Clean(Epilogue)
  {
    CleanHeader();
    CleanTables();
    CodeWords();
    ValueWords();
    assert Clean(OpenEntities);
    CleanAppend(Header, Tables);
    CleanAppend(Header + Tables, OpenEntities);
  }

  lemma CleanVertex(js: Numerics, v: Point)
    requires ShowPrintable(js)
    ensures Clean(VertexGroups(js, v))
  {
    CodeWords();
    MoreCodeWords();
    ValueWords();
    EntityWords();
    ShowSettled(js, v.x);
    ShowSettled(js, v.y);
  }

  lemma {:induction false} CleanVertices(js: Numerics, vs: seq<Point>)
    requires ShowPrintable(js)
    ensures Clean(VerticesGroups(js, vs))
    decreases |vs|
  {
    if vs != [] {
      var n := |vs| - 1;
      CleanVertices(js, vs[..n]);
      CleanVertex(js, vs[n]);
      CleanAppend(VerticesGroups(js, vs[..n]), VertexGroups(js, vs[n]));
    }
  }

  lemma CleanLine(js: Numerics, s: Point, t: Point)
    requires ShowPrintable(js)
    ensures Clean(EntityGroups(js, Line(s, t)))
  {
    CodeWords();
    MoreCodeWords();
    ValueWords();
    EntityWords();
    ShowSettled(js, s.x);
    ShowSettled(js, s.y);
    ShowSettled(js, t.x);
    ShowSettled(js, t.y);
    assert EntityGroups(js, Line(s, t)) ==
      [Group("0", "LINE"), Group("8", "0"),
       Group("10", js.show(s.x)), Group("20", js.show(s.y)), Group("30", "0.0"),
       Group("11", js.show(t.x)), Group("21", js.show(t.y)), Group("31", "0.0")];
  }

  lemma CleanPolyline(js: Numerics, vs: seq<Point>, closed: bool)
    requires ShowPrintable(js)
    ensures Clean(EntityGroups(js, LwPolyline(vs, closed)))
  {
    CodeWords();
    MoreCodeWords();
    ValueWords();
    EntityWords();
    assert Clean(PolylineHeader(closed));
    assert Clean(SeqEnd);
    CleanVertices(js, vs);
    CleanAppend(PolylineHeader(closed), VerticesGroups(js, vs));
    CleanAppend(PolylineHeader(closed) + VerticesGroups(js, vs), SeqEnd);
  }

  lemma CleanCircle(js: Numerics, c: Point, r: real)
    requires ShowPrintable(js)
    ensures Clean(EntityGroups(js, Circle(c, r)))
  {
    CodeWords();
    MoreCodeWords();
    ValueWords();
    EntityWords();
    ShowSettled(js, c.x);
    ShowSettled(js, c.y);
    ShowSettled(js, r);
    assert EntityGroups(js, Circle(c, r)) ==
      [Group("0", "CIRCLE"), Group("8", "0"),
       Group("10", js.show(c.x)), Group("20", js.show(c.y)), Group("30", "0"), Group("40", js.show(r))];
  }

  lemma CleanEntity(js: Numerics, e: Entity)
    requires ShowPrintable(js)
    ensures Clean(EntityGroups(js, e))
  {
    match e {
      case Line(s, t) => CleanLine(js, s, t);
      case LwPolyline(vs, closed) => CleanPolyline(js, vs, closed);
      case Circle(c, r) => CleanCircle(js, c, r);
    }
  }

  lemma {:induction false} CleanEntities(js: Numerics, es: seq<Entity>)
    requires ShowPrintable(js)
    ensures Clean(EntitiesGroups(js, es))
  {
    if es != [] {
      var n := |es| - 1;
      CleanEntities(js, es[..n]);
      CleanEntity(js, es[n]);
      CleanAppend(EntitiesGroups(js, es[..n]), EntityGroups(js, es[n]));
    }
  }

  /** ENTITIES is named only where the prologue opens the section. */
  lemma EntitiesNamedOnce()
    ensures |Header| == 17 && |Tables| == 28
    ensures forall j :: 0 <= j < |Header| ==> Header[j].value != "ENTITIES"
    ensures forall j :: 0 <= j < |Tables| ==> Tables[j].value != "ENTITIES"
    ensures Tables[27] == Group("0", "ENDSEC")
  {
  }

  /** No pair of the HEADER and TABLES sections opens ENTITIES; the pair at 45 does. */
  lemma FixedNoOpener(gs: seq<Group>, rest: seq<Group>)
    requires gs == Prologue + rest
    ensures |Prologue| == 47 && Opener(gs, 45)
    ensures forall j :: 0 <= j < 45 ==> !Opener(gs, j)
  {
    PrologueShape();
    EntitiesNamedOnce();
    var fixed := Header + Tables;
    assert Prologue == fixed + OpenEntities;
    assert gs[45] == Prologue[45] && gs[46] == Prologue[46];
    forall j | 0 <= j < 45 ensures !Opener(gs, j) {
      if j < 44 {
        assert gs[j + 1] == fixed[j + 1];
        if j + 1 < 17 {
          assert fixed[j + 1] == Header[j + 1];
        } else {
          assert fixed[j + 1] == Tables[j + 1 - 17];
        }
      } else {
        assert gs[j] == fixed[44] == Tables[27];
      }
    }
  }

  /** Groups whose code-0 values all lie in a set without "SECTION" hold no SECTION group. */
  lemma TaggedNoSection(gs: seq<Group>, allowed: set<string>)
    requires Tagged(gs, "0", allowed) && "SECTION" !in allowed
    ensures forall k :: 0 <= k < |gs| ==> gs[k] != Group("0", "SECTION")
  {
  }

  /** The entity records and the closing groups hold no SECTION group. */
  lemma BodyNoSection(js: Numerics, es: seq<Entity>)
    ensures forall k :: 0 <= k < |EntitiesGroups(js, es) + Epilogue| ==>
              (EntitiesGroups(js, es) + Epilogue)[k] != Group("0", "SECTION")
  {
    var ents := EntitiesGroups(js, es);
    EntitiesRecords(js, es);
    TaggedNoSection(ents, EntityKeywords);
    forall k | 0 <= k < |ents + Epilogue| ensures (ents + Epilogue)[k] != Group("0", "SECTION") {
      if k >= |ents| {
        assert (ents + Epilogue)[k] == Epilogue[k - |ents|];
      }
    }
  }

  /** No pair after the prologue opens ENTITIES. */
  lemma BodyNoOpener(js: Numerics, es: seq<Entity>, gs: seq<Group>)
    requires gs == Prologue + (EntitiesGroups(js, es) + Epilogue)
    ensures |Prologue| == 47 && forall j :: 47 <= j < |gs| ==> !Opener(gs, j)
  {
    PrologueShape();
    var body := EntitiesGroups(js, es) + Epilogue;
    BodyNoSection(js, es);
    forall j | 47 <= j < |gs| ensures !Opener(gs, j) {
      assert gs[j] == body[j - 47];
    }
  }

  /** ENDSEC closes the section; EOF after it is outside any section. */
  lemma EpilogueCloses(st: DecoderState, parseFloat: string -> real)
    requires WellFormed(st)
    ensures Absorb(st, Epilogue, parseFloat) == st.(inEntities := false)
  {
    EndsecClosesSection(st, parseFloat);
    var st' := st.(inEntities := false);
    assert Epilogue[0..] == Epilogue;
    AbsorbAt(st, Epilogue, 0, parseFloat);
    AbsorbAt(st', Epilogue, 1, parseFloat);
    OutsideEntitiesIgnored(st', "0", "EOF", parseFloat);
    AbsorbDone(st', Epilogue, parseFloat);
  }

  /** The written file without dimensions: its groups are clean and its text splits back into their lines. */
  lemma FileLines(js: Numerics, es: seq<Entity>)
    requires ShowPrintable(js)
    ensures var gs := DxfGroups(js, es, []);
            gs == Prologue + (EntitiesGroups(js, es) + Epilogue) && Clean(gs) &&
            SplitLines(Render(gs)) == Lines(gs) + [""] && Holds(Lines(gs) + [""], gs)
  {
    var ents := EntitiesGroups(js, es);
    var gs := DxfGroups(js, es, []);
    assert DimensionsGroups(js, []) == [];
    assert gs == Prologue + (ents + Epilogue);
    CleanFixed();
    CleanEntities(js, es);
    CleanAppend(ents, Epilogue);
    CleanAppend(Prologue, ents + Epilogue);
    TextHolds(gs);
    SplitJoinLines(Lines(gs));
  }

  /** Reading the HEADER and TABLES sections changes nothing; the next pair opens ENTITIES. */
  lemma ReadPrologue(lines: seq<string>, gs: seq<Group>, rest: seq<Group>, parseFloat: string -> real)
    requires gs == Prologue + rest && Holds(lines, gs) && Clean(gs)
    ensures Run(lines, 0, Initial, parseFloat) == Run(lines, 94, Initial.(inEntities := true), parseFloat)
  {
    FixedNoOpener(gs, rest);
    PlainSpan(lines, gs, 0, 45);
    RunSpan(lines, gs, 0, 45, 0, Initial, parseFloat);
    AbsorbRangeSlice(Initial, gs, 0, 45, parseFloat);
    AbsorbOutside(Initial, gs[0..45], parseFloat);
    RunOpener(lines, gs, 45, 90, Initial, parseFloat);
  }

  lemma DropFront(a: seq<Group>, b: seq<Group>)
    ensures (a + b)[|a|..] == b
  {
  }

  /** After the prologue, the rest of the file is read as the entity records and the closing groups in turn. */
  lemma BodySpan(lines: seq<string>, gs: seq<Group>, pre: seq<Group>, ents: seq<Group>, st: DecoderState, parseFloat: string -> real)
    requires gs == pre + (ents + Epilogue) && Holds(lines, gs) && Clean(gs) && WellFormed(st)
    requires |pre| == 47 && forall j :: 47 <= j < |gs| ==> !Opener(gs, j)
    ensures Run(lines, 94, st, parseFloat) == Run(lines, |gs| + |gs|, Absorb(Absorb(st, ents, parseFloat), Epilogue, parseFloat), parseFloat)
  {
    var n := |gs|;
    assert 94 == 47 + 47;
    PlainSpan(lines, gs, 47, n);
    RunSpan(lines, gs, 47, n, 94, st, parseFloat);
    AbsorbRangeSlice(st, gs, 47, n, parseFloat);
    DropFront(pre, ents + Epilogue);
    assert gs[47..n] == ents + Epilogue;
    AbsorbAppend(st, ents, Epilogue, parseFloat);
  }

  /** Reading the entity records and the closing groups. */
  lemma ReadBody(js: Numerics, es: seq<Entity>, lines: seq<string>, gs: seq<Group>)
    requires gs == Prologue + (EntitiesGroups(js, es) + Epilogue) && Holds(lines, gs) && Clean(gs)
    requires EntitiesReadBack(js, es) && ReadsZero(js)
    ensures var entered := Initial.(inEntities := true);
            var done := Absorb(entered, EntitiesGroups(js, es), js.parseFloat);
            Run(lines, 94, entered, js.parseFloat) == done.(inEntities := false) &&
            Between(done, RecoveredAll(es))
  {
    var pf := js.parseFloat;
    var ents := EntitiesGroups(js, es);
    var entered := Initial.(inEntities := true);
    BodyNoOpener(js, es, gs);
    BodySpan(lines, gs, Prologue, ents, entered, pf);
    assert Between(entered, []);
    EntitiesRoundTrip(js, entered, [], es);
    var done := Absorb(entered, ents, pf);
    EpilogueCloses(done, pf);
    RunEnd(lines, gs, done.(inEntities := false), pf);
  }

  /**
    The round trip: the text written for a list of entities (and no
    dimensions), split into lines and decoded, is `RecoveredAll` of the list:
    every line as written, every circle of non-zero radius as written, every
    polyline with the dummy origin in front of its vertices and its closed flag.
   */
  lemma RoundTrip(js: Numerics, es: seq<Entity>)
    requires ShowPrintable(js) && EntitiesReadBack(js, es) && ReadsZero(js)
    ensures Decode(SplitLines(Render(DxfGroups(js, es, []))), js.parseFloat) == RecoveredAll(es)
  {
    var gs := DxfGroups(js, es, []);
    FileLines(js, es);
    var lines := Lines(gs) + [""];
    ReadPrologue(lines, gs, EntitiesGroups(js, es) + Epilogue, js.parseFloat);
    ReadBody(js, es, lines, gs);
    var done := Absorb(Initial.(inEntities := true), EntitiesGroups(js, es), js.parseFloat);
    var closed := done.(inEntities := false);
    FinishCommits(closed);
    ResolveFrozen(closed);
  }
}
