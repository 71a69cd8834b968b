/**
  What the decoder of src/services/dxfParser.js promises, stated over its
  specification `Step` / `Run` / `Finish` / `Decode`: which pairs are read,
  when an entity is committed, how polyline vertices and the closed flag are
  read, and what follows from the aliasing of the entity in progress.
 */
module DxfParserProperties {
  import opened JsRuntime
  import opened Entities
  import opened DxfParser

  // ---------------------------------------------------------------------------
  // Reading the entities array through its aliases

  /** What a commit of the entity in progress adds: the entity if there is one and it is valid. */
  function Committed(c: Option<Entity>): seq<Entity> {
    if c.Some? && Committable(c.value) then [c.value] else []
  }

  /** The entity a boundary keyword starts; any other keyword leaves no entity in progress. */
  function Started(value: string): Option<Entity> {
    if value == "LINE" then Some(NewLine)
    else if value == "LWPOLYLINE" || value == "POLYLINE" then Some(NewPolyline)
    else if value == "CIRCLE" then Some(NewCircle)
    else None
  }

  /** Reassigning the entity in progress leaves the values of the array as they are. */
  lemma ResolveRetarget(st: DecoderState, c: Option<Entity>)
    requires WellFormed(st)
    ensures WellFormed(Retarget(st, c))
    ensures Resolve(Retarget(st, c)) == Resolve(st)
  {
    var r := Retarget(st, c);
    assert |r.pushed| == |st.pushed|;
    forall k | 0 <= k < |st.pushed|
      ensures r.pushed[k].Frozen? && Resolve(r)[k] == Resolve(st)[k]
    {
    }
  }

  /** A push appends the current entity's value. */
  lemma ResolvePush(st: DecoderState)
    requires WellFormed(st) && st.current.Some?
    ensures WellFormed(PushCurrent(st))
    ensures Resolve(PushCurrent(st)) == Resolve(st) + [st.current.value]
  {
    var r := PushCurrent(st);
    assert |Resolve(r)| == |Resolve(st)| + 1;
    forall k | 0 <= k < |st.pushed|
      ensures Resolve(r)[k] == Resolve(st)[k]
    {
    }
  }

  /** The commit step shared by a boundary and the end of input. */
  lemma ResolveCommit(st: DecoderState)
    requires WellFormed(st)
    ensures var st1 := if st.current.Some? && !st.legacy && Committable(st.current.value) then PushCurrent(st) else st;
            WellFormed(st1) && Resolve(st1) == Resolve(st) + (if st.legacy then [] else Committed(st.current))
  {
    if st.current.Some? && !st.legacy && Committable(st.current.value) {
      ResolvePush(st);
    } else {
      assert Resolve(st) + [] == Resolve(st);
    }
  }

  // ---------------------------------------------------------------------------
  // The cursor

  /** A pair with an empty or missing code or value is stepped over and changes nothing. */
  lemma SkipPair(lines: seq<string>, i: nat, st: DecoderState, parseFloat: string -> real)
    requires i < |lines| && WellFormed(st)
    requires CodeAt(lines, i) == "" || ValueAt(lines, i) == ""
    ensures Step(lines, i, st, parseFloat) == (i + 2, st)
  {
  }

  /** Outside the ENTITIES section every ordinary pair is ignored. */
  lemma OutsideEntitiesIgnored(st: DecoderState, code: string, value: string, parseFloat: string -> real)
    requires WellFormed(st) && !st.inEntities
    ensures Apply(st, code, value, parseFloat) == st
  {
  }

  /** `0 ENDSEC` closes the section and touches nothing else: the entity in progress is not committed there. */
  lemma EndsecClosesSection(st: DecoderState, parseFloat: string -> real)
    requires WellFormed(st)
    ensures Apply(st, "0", "ENDSEC", parseFloat) == st.(inEntities := false)
  {
  }

  /** No line reads ENTITIES from i on: the section is never opened, so the state never changes. */
  lemma {:induction false} RunWithoutEntities(lines: seq<string>, i: nat, st: DecoderState, parseFloat: string -> real)
    requires WellFormed(st) && !st.inEntities
    requires forall k :: i <= k < |lines| ==> Trim(lines[k]) != "ENTITIES"
    ensures Run(lines, i, st, parseFloat) == st
    decreases |lines| - i
  {
    if i < |lines| {
      assert !OpensEntities(lines, i);
      var (j, st') := Step(lines, i, st, parseFloat);
      assert st' == st;
      RunWithoutEntities(lines, j, st, parseFloat);
    }
  }

  /** A text with no ENTITIES line decodes to no entity. */
  lemma DecodeWithoutEntities(lines: seq<string>, parseFloat: string -> real)
    requires forall k :: 0 <= k < |lines| ==> Trim(lines[k]) != "ENTITIES"
    ensures Decode(lines, parseFloat) == []
  {
    RunWithoutEntities(lines, 0, Initial, parseFloat);
  }

  // ---------------------------------------------------------------------------
  // Commits at a boundary

  /**
    A boundary outside an R12 polyline, on any keyword but VERTEX and SEQEND:
    the entity in progress is committed when valid, and the keyword starts a
    LINE, a polyline or a CIRCLE; any other keyword leaves none in progress.
   */
  lemma BoundaryCommits(st: DecoderState, value: string)
    requires WellFormed(st) && !st.legacy && value != "VERTEX" && value != "SEQEND"
    ensures Resolve(Boundary(st, value)) == Resolve(st) + Committed(st.current)
    ensures Boundary(st, value).current == Started(value)
    ensures Boundary(st, value).legacy <==> value == "POLYLINE"
  {
    ResolveCommit(st);
    var st1 := if st.current.Some? && Committable(st.current.value) then PushCurrent(st) else st;
    ResolveRetarget(st1, Started(value));
  }

  /**
    A stray VERTEX or SEQEND outside an R12 polyline commits the entity in
    progress but keeps it in progress: the array entry aliases it, and later
    property pairs still change what that entry holds.
   */
  lemma StrayVertexKeepsAlias(st: DecoderState, value: string)
    requires WellFormed(st) && !st.legacy && (value == "VERTEX" || value == "SEQEND")
    ensures Boundary(st, value).current == st.current
    ensures Resolve(Boundary(st, value)) == Resolve(st) + Committed(st.current)
    ensures Committed(st.current) != [] ==>
              |Boundary(st, value).pushed| == |st.pushed| + 1 && Boundary(st, value).pushed[|st.pushed|].Live?
  {
    ResolveCommit(st);
  }

  /**
    Inside an R12 polyline: VERTEX changes nothing, SEQEND commits a polyline
    in progress without checking its vertex count and ends the run, and any
    other keyword commits nothing and keeps the run open.
   */
  lemma LegacyBoundary(st: DecoderState, value: string)
    requires WellFormed(st) && st.legacy
    ensures value == "VERTEX" ==> Boundary(st, value) == st
    ensures value == "SEQEND" ==>
              Boundary(st, value).current.None? && !Boundary(st, value).legacy &&
              Resolve(Boundary(st, value)) == Resolve(st) +
                (if st.current.Some? && st.current.value.LwPolyline? then [st.current.value] else [])
    ensures value != "VERTEX" && value != "SEQEND" ==>
              Boundary(st, value).legacy && Resolve(Boundary(st, value)) == Resolve(st)
  {
    if value == "SEQEND" {
      if st.current.Some? && st.current.value.LwPolyline? {
        ResolvePush(st);
        ResolveRetarget(PushCurrent(st), None);
      } else {
        ResolveRetarget(st, None);
        assert Resolve(st) + [] == Resolve(st);
      }
    } else if value != "VERTEX" {
      ResolveRetarget(st, Started(value));
    }
  }

  /** At the end of input the entity in progress is committed when valid, unless an R12 polyline is open. */
  lemma FinishCommits(st: DecoderState)
    requires WellFormed(st)
    ensures Finish(st) == Resolve(st) + (if st.legacy then [] else Committed(st.current))
  {
    ResolveCommit(st);
  }

  // ---------------------------------------------------------------------------
  // Property pairs

  /**
    On a polyline, each 10 appends one vertex at (x, 0); a 20 sets the y of the
    last vertex only, and is ignored while there is no vertex.
   */
  lemma PolylineVertexCodes(vs: seq<Point>, closed: bool, value: string, legacy: bool, parseFloat: string -> real)
    ensures WithProperty(LwPolyline(vs, closed), "10", value, legacy, parseFloat)
         == LwPolyline(vs + [Point(parseFloat(value), 0.0)], closed)
    ensures vs == [] ==> WithProperty(LwPolyline(vs, closed), "20", value, legacy, parseFloat) == LwPolyline(vs, closed)
    ensures vs != [] ==>
              var r := WithProperty(LwPolyline(vs, closed), "20", value, legacy, parseFloat);
              r.LwPolyline? && |r.vertices| == |vs| && r.closed == closed &&
              r.vertices[..|vs| - 1] == vs[..|vs| - 1] &&
              r.vertices[|vs| - 1] == Point(vs[|vs| - 1].x, parseFloat(value))
  {
  }

  /** bit 0 of a decimal integer flag is its parity. */
  lemma ClosedBitOfInteger(n: int)
    ensures ClosedBit(IntToString(n)) <==> n % 2 == 1
  {
    ParseIntOfIntToString(n);
  }

  /**
    Code 70 on an LWPOLYLINE sets `closed` to bit 0 of the flag and can clear
    it; on an R12 POLYLINE it can only set it.
   */
  lemma ClosedFlag(vs: seq<Point>, closed: bool, value: string, parseFloat: string -> real)
    ensures WithProperty(LwPolyline(vs, closed), "70", value, false, parseFloat) == LwPolyline(vs, ClosedBit(value))
    ensures WithProperty(LwPolyline(vs, closed), "70", value, true, parseFloat) == LwPolyline(vs, closed || ClosedBit(value))
  {
  }

  // ---------------------------------------------------------------------------
  // Order and stability of the committed entities

  /** Every entry already frozen keeps its place and value; entries are only appended. */
  predicate Extends(st: DecoderState, st': DecoderState) {
    |st.pushed| <= |st'.pushed| &&
    forall k :: 0 <= k < |st.pushed| && st.pushed[k].Frozen? ==> st'.pushed[k] == st.pushed[k]
  }

  lemma ExtendsTransitive(a: DecoderState, b: DecoderState, c: DecoderState)
    requires Extends(a, b) && Extends(b, c)
    ensures Extends(a, c)
  {
  }

  lemma BoundaryExtends(st: DecoderState, value: string)
    requires WellFormed(st)
    ensures Extends(st, Boundary(st, value))
  {
    var r := Boundary(st, value);
    if !(st.legacy && value == "VERTEX") {
      var st1 := if st.legacy then (if st.current.Some? && st.current.value.LwPolyline? then PushCurrent(st) else st)
                 else (if st.current.Some? && Committable(st.current.value) then PushCurrent(st) else st);
      assert Extends(st, st1);
      assert Extends(st1, Retarget(st1, r.current));
      ExtendsTransitive(st, st1, Retarget(st1, r.current));
    }
  }

  lemma StepExtends(lines: seq<string>, i: nat, st: DecoderState, parseFloat: string -> real)
    requires i < |lines| && WellFormed(st)
    ensures Extends(st, Step(lines, i, st, parseFloat).1)
  {
    var code, value := CodeAt(lines, i), ValueAt(lines, i);
    if code != "" && value != "" && !(code == "0" && value == "SECTION" && OpensEntities(lines, i)) {
      var st1 := if code == "0" && value == "ENDSEC" then st.(inEntities := false) else st;
      if st1.inEntities && code == "0" {
        BoundaryExtends(st1, value);
      }
    }
  }

  /** Committed and frozen entities stay where they are, in the order they were read, to the end of the run. */
  lemma {:induction false} RunExtends(lines: seq<string>, i: nat, st: DecoderState, parseFloat: string -> real)
    requires WellFormed(st)
    ensures Extends(st, Run(lines, i, st, parseFloat))
    decreases |lines| - i
  {
    if i < |lines| {
      var (j, st') := Step(lines, i, st, parseFloat);
      StepExtends(lines, i, st, parseFloat);
      RunExtends(lines, j, st', parseFloat);
    }
  }

  // ---------------------------------------------------------------------------
  // An R12 polyline that is never closed

  predicate AllFrozen(st: DecoderState) {
    forall k :: 0 <= k < |st.pushed| ==> st.pushed[k].Frozen?
  }

  /** The values of an array whose entries are all frozen. */
  function FrozenValues(st: DecoderState): (r: seq<Entity>)
    requires AllFrozen(st)
    ensures |r| == |st.pushed|
  {
    seq(|st.pushed|, k requires 0 <= k < |st.pushed| => st.pushed[k].entity)
  }

  lemma LegacyBoundaryKeeps(st: DecoderState, value: string)
    requires WellFormed(st) && st.legacy && AllFrozen(st) && value != "SEQEND"
    ensures var r := Boundary(st, value); r.legacy && AllFrozen(r) && r.pushed == st.pushed
  {
    if value != "VERTEX" {
      assert Retarget(st, Started(value)).pushed == st.pushed;
    }
  }

  lemma LegacyStepKeeps(lines: seq<string>, i: nat, st: DecoderState, parseFloat: string -> real)
    requires i < |lines| && WellFormed(st) && st.legacy && AllFrozen(st)
    requires i + 1 < |lines| ==> Trim(lines[i + 1]) != "SEQEND"
    ensures var st' := Step(lines, i, st, parseFloat).1;
            st'.legacy && AllFrozen(st') && st'.pushed == st.pushed
  {
    var code, value := CodeAt(lines, i), ValueAt(lines, i);
    if code != "" && value != "" && !(code == "0" && value == "SECTION" && OpensEntities(lines, i)) {
      var st1 := if code == "0" && value == "ENDSEC" then st.(inEntities := false) else st;
      if st1.inEntities && code == "0" {
        LegacyBoundaryKeeps(st1, value);
      }
    }
  }

  /**
    Once an R12 POLYLINE is open, no later entity is committed unless some
    later line reads SEQEND: neither at a boundary nor at the end of input.
   */
  lemma {:induction false} LegacyWithoutSeqEnd(lines: seq<string>, i: nat, st: DecoderState, parseFloat: string -> real)
    requires WellFormed(st) && st.legacy && AllFrozen(st)
    requires forall k :: i <= k < |lines| ==> Trim(lines[k]) != "SEQEND"
    ensures Finish(Run(lines, i, st, parseFloat)) == FrozenValues(st)
    decreases |lines| - i
  {
    if i < |lines| {
      var (j, st') := Step(lines, i, st, parseFloat);
      LegacyStepKeeps(lines, i, st, parseFloat);
      LegacyWithoutSeqEnd(lines, j, st', parseFloat);
      assert FrozenValues(st') == FrozenValues(st);
    } else {
      FinishCommits(st);
      assert Resolve(st) == FrozenValues(st);
      assert Resolve(st) + [] == Resolve(st);
    }
  }

  // ---------------------------------------------------------------------------
  // Inputs on which the decoder returns entities the validity test rejects

  /** The pairs of gs applied in order, as the loop reads them inside the ENTITIES section. */
  function Feed(st: DecoderState, gs: seq<(string, string)>, parseFloat: string -> real): (r: DecoderState)
    requires WellFormed(st)
    ensures WellFormed(r)
    decreases |gs|
  {
    if gs == [] then st else Feed(Apply(st, gs[0].0, gs[0].1, parseFloat), gs[1..], parseFloat)
  }

  /** Reads "5" as 5 and every other text as 0. */
  function FiveOrZero(s: string): real {
    if s == "5" then 5.0 else 0.0
  }

  /** The state right after `0 SECTION` / `2 ENTITIES`. */
  const Opened: DecoderState := Initial.(inEntities := true)

  /**
    A CIRCLE committed at a stray VERTEX stays in progress, so the 40 pair after
    it sets the committed entry's radius to 0: the result holds a circle of
    radius 0, which a commit would have refused.
   */
  lemma StrayVertexZeroCircle()
    ensures Finish(Feed(Opened, [("0", "CIRCLE"), ("40", "5"), ("0", "VERTEX"), ("40", "0")], FiveOrZero))
         == [Circle(Origin, 0.0)]
  {
    var st1 := Apply(Opened, "0", "CIRCLE", FiveOrZero);
    assert st1 == DecoderState(true, Some(NewCircle), false, []);
    var st2 := Apply(st1, "40", "5", FiveOrZero);
    assert st2 == DecoderState(true, Some(Circle(Origin, 5.0)), false, []);
    var st3 := Apply(st2, "0", "VERTEX", FiveOrZero);
    assert st3 == DecoderState(true, Some(Circle(Origin, 5.0)), false, [Live]);
    var st4 := Apply(st3, "40", "0", FiveOrZero);
    assert st4 == DecoderState(true, Some(Circle(Origin, 0.0)), false, [Live]);
  }

  /** SEQEND commits an R12 polyline without checking that it has a vertex. */
  lemma SeqEndEmptyPolyline()
    ensures Finish(Feed(Opened, [("0", "POLYLINE"), ("0", "SEQEND")], FiveOrZero)) == [NewPolyline]
  {
    var st1 := Apply(Opened, "0", "POLYLINE", FiveOrZero);
    assert st1 == DecoderState(true, Some(NewPolyline), true, []);
    var st2 := Apply(st1, "0", "SEQEND", FiveOrZero);
    assert st2 == DecoderState(true, None, false, [Frozen(NewPolyline)]);
  }

  /** Each stray VERTEX pushes the same LINE again, and the end of input pushes it once more. */
  lemma StrayVertexRepeatsLine()
    ensures Finish(Feed(Opened, [("0", "LINE"), ("0", "VERTEX"), ("0", "VERTEX")], FiveOrZero))
         == [NewLine, NewLine, NewLine]
  {
    var st1 := Apply(Opened, "0", "LINE", FiveOrZero);
    assert st1 == DecoderState(true, Some(NewLine), false, []);
    var st2 := Apply(st1, "0", "VERTEX", FiveOrZero);
    assert st2 == DecoderState(true, Some(NewLine), false, [Live]);
    var st3 := Apply(st2, "0", "VERTEX", FiveOrZero);
    assert st3 == DecoderState(true, Some(NewLine), false, [Live, Live]);
  }
}
