/**
  The DXF decoder of src/services/dxfParser.js.

  The text is split into lines and read two lines at a time as (group code,
  value) pairs. Three pieces of state drive the reading: whether the cursor is
  inside the ENTITIES section, the entity currently being built, and whether an
  R12 POLYLINE ... VERTEX ... SEQEND run is open.

  The functional specification is `Decode`: `Step` takes one pair (or, at the
  opening of the ENTITIES section, two), `Run` repeats it to the end of the
  lines and `Finish` performs the commit at end of input. `ParseDXF` is the
  source's loop over mutable entity objects, proved to compute `Decode`.

  The source pushes entity objects by reference, so an object can sit in the
  result array while it is still `currentEntity` and still being patched. The
  specification tracks this with `Slot`: a pushed object that is still current
  is `Live` (its value is whatever the current entity ends up as); it becomes
  `Frozen` at its value of that moment once `currentEntity` is reassigned.
 */
module DxfParser {
  import opened JsRuntime
  import opened Entities

  datatype Slot = Frozen(entity: Entity) | Live

  datatype DecoderState = DecoderState(
    inEntities: bool,          // isEntitiesSection
    current: Option<Entity>,   // currentEntity, None for null
    legacy: bool,              // isParsingPolyline
    pushed: seq<Slot>)         // the entities array

  const Initial: DecoderState := DecoderState(false, None, false, [])

  /** Only the current entity can be aliased by the entities array. */
  predicate WellFormed(st: DecoderState) {
    st.current.None? ==> forall k :: 0 <= k < |st.pushed| ==> st.pushed[k].Frozen?
  }

  /** The fresh objects of src/services/dxfParser.js:67-75 (the z coordinates are left out). */
  const NewLine: Entity := Line(Origin, Origin)
  const NewPolyline: Entity := LwPolyline([], false)
  const NewCircle: Entity := Circle(Origin, 0.0)

  /**
    The validity test applied before a commit: a LINE always passes (its start
    and end objects always exist), a polyline needs a vertex, a CIRCLE needs a
    truthy radius (NaN is not modelled, so this is a non-zero radius).
   */
  predicate Committable(e: Entity) {
    match e
    case Line(_, _) => true
    case LwPolyline(vs, _) => |vs| > 0
    case Circle(_, r) => r != 0.0
  }

  function Freeze(slots: seq<Slot>, e: Entity): seq<Slot> {
    seq(|slots|, k requires 0 <= k < |slots| => if slots[k].Live? then Frozen(e) else slots[k])
  }

  /** `currentEntity = c`: entries aliasing the old current entity keep its present value. */
  function Retarget(st: DecoderState, c: Option<Entity>): DecoderState {
    var pushed := if st.current.Some? then Freeze(st.pushed, st.current.value) else st.pushed;
    st.(current := c, pushed := pushed)
  }

  /** `entities.push(currentEntity)`. */
  function PushCurrent(st: DecoderState): DecoderState {
    st.(pushed := st.pushed + [Live])
  }

  /** A (0, value) pair inside the ENTITIES section: src/services/dxfParser.js:36-79. */
  function Boundary(st: DecoderState, value: string): (r: DecoderState)
    requires WellFormed(st)
    ensures WellFormed(r)
    ensures r.inEntities == st.inEntities
  {
    var isVertex := value == "VERTEX";
    var isSeqEnd := value == "SEQEND";
    if st.legacy && isVertex then st
    else if st.legacy && isSeqEnd then
      var st1 := if st.current.Some? && st.current.value.LwPolyline? then PushCurrent(st) else st;
      Retarget(st1, None).(legacy := false)
    else
      var st1 := if st.current.Some? && !st.legacy && Committable(st.current.value) then PushCurrent(st) else st;
      if value == "LINE" then Retarget(st1, Some(NewLine))
      else if value == "LWPOLYLINE" then Retarget(st1, Some(NewPolyline))
      else if value == "POLYLINE" then Retarget(st1, Some(NewPolyline)).(legacy := true)
      else if value == "CIRCLE" then Retarget(st1, Some(NewCircle))
      else if !isVertex && !isSeqEnd then Retarget(st1, None)
      else st1
  }

  /**
    `(parseInt(value, 10) & 1) === 1`. NaN & 1 is 0; for an integer, bit 0 of
    its 32-bit two's complement form is its parity.
   */
  function ClosedBit(value: string): bool {
    match ParseInt(value)
    case None => false
    case Some(flag) => flag % 2 == 1
  }

  /** A property pair (code other than 0) applied to the current entity: src/services/dxfParser.js:83-126. */
  function WithProperty(e: Entity, code: string, value: string, legacy: bool, parseFloat: string -> real): Entity {
    match e
    case Line(s, t) =>
      if code == "10" then Line(s.(x := parseFloat(value)), t)
      else if code == "20" then Line(s.(y := parseFloat(value)), t)
      else if code == "11" then Line(s, t.(x := parseFloat(value)))
      else if code == "21" then Line(s, t.(y := parseFloat(value)))
      else e
    case LwPolyline(vs, closed) =>
      if code == "10" then LwPolyline(vs + [Point(parseFloat(value), 0.0)], closed)
      else if code == "20" then
        if |vs| > 0 then LwPolyline(vs[|vs| - 1 := vs[|vs| - 1].(y := parseFloat(value))], closed) else e
      else if code == "70" then
        if legacy then LwPolyline(vs, if ClosedBit(value) then true else closed)
        else LwPolyline(vs, ClosedBit(value))
      else e
    case Circle(c, r) =>
      if code == "10" then Circle(c.(x := parseFloat(value)), r)
      else if code == "20" then Circle(c.(y := parseFloat(value)), r)
      else if code == "40" then Circle(c, parseFloat(value))
      else e
  }

  /** One ordinary (code, value) pair, both non-empty: src/services/dxfParser.js:31-128. */
  function Apply(st: DecoderState, code: string, value: string, parseFloat: string -> real): (r: DecoderState)
    requires WellFormed(st)
    ensures WellFormed(r)
  {
    var st1 := if code == "0" && value == "ENDSEC" then st.(inEntities := false) else st;
    if !st1.inEntities then st1
    else if code == "0" then Boundary(st1, value)
    else if st1.current.Some? then
      st1.(current := Some(WithProperty(st1.current.value, code, value, st1.legacy, parseFloat)))
    else st1
  }

  /** The trimmed code line at the cursor. */
  function CodeAt(lines: seq<string>, i: nat): string
    requires i < |lines|
  {
    Trim(lines[i])
  }

  /** The trimmed value line after the cursor; a missing line reads as "" (both are falsy). */
  function ValueAt(lines: seq<string>, i: nat): string {
    if i + 1 < |lines| then Trim(lines[i + 1]) else ""
  }

  /** `lines[i + 2]?.trim() === '2' && lines[i + 3]?.trim() === 'ENTITIES'`. */
  predicate OpensEntities(lines: seq<string>, i: nat) {
    i + 3 < |lines| && Trim(lines[i + 2]) == "2" && Trim(lines[i + 3]) == "ENTITIES"
  }

  /** One turn of the loop: the new cursor and the new state. */
  function Step(lines: seq<string>, i: nat, st: DecoderState, parseFloat: string -> real): (r: (nat, DecoderState))
    requires i < |lines| && WellFormed(st)
    ensures r.0 == i + 2 || r.0 == i + 4
    ensures WellFormed(r.1)
  {
    var code := CodeAt(lines, i);
    var value := ValueAt(lines, i);
    if code == "" || value == "" then (i + 2, st)
    else if code == "0" && value == "SECTION" && OpensEntities(lines, i) then (i + 4, st.(inEntities := true))
    else (i + 2, Apply(st, code, value, parseFloat))
  }

  /** The loop from cursor i to the end of the lines. */
  function Run(lines: seq<string>, i: nat, st: DecoderState, parseFloat: string -> real): (r: DecoderState)
    requires WellFormed(st)
    ensures WellFormed(r)
    decreases |lines| - i
  {
    if i >= |lines| then st
    else
      var (j, st') := Step(lines, i, st, parseFloat);
      Run(lines, j, st', parseFloat)
  }

  /** The values of the entities array: a Live entry is the current entity. */
  function Resolve(st: DecoderState): (r: seq<Entity>)
    requires WellFormed(st)
    ensures |r| == |st.pushed|
  {
    seq(|st.pushed|, k requires 0 <= k < |st.pushed| =>
      match st.pushed[k]
      case Frozen(e) => e
      case Live => st.current.value)
  }

  /** The commit after the loop (src/services/dxfParser.js:133-142), then the array's values. */
  function Finish(st: DecoderState): seq<Entity>
    requires WellFormed(st)
  {
    var st1 := if st.current.Some? && !st.legacy && Committable(st.current.value) then PushCurrent(st) else st;
    Resolve(st1)
  }

  /** parseDXF on lines already split. */
  function Decode(lines: seq<string>, parseFloat: string -> real): seq<Entity> {
    Finish(Run(lines, 0, Initial, parseFloat))
  }

  // ---------------------------------------------------------------------------
  // The imperative decoder

  datatype EntityType = LineType | PolylineType | CircleType

  function Blank(kind: EntityType): Entity {
    match kind
    case LineType => NewLine
    case PolylineType => NewPolyline
    case CircleType => NewCircle
  }

  /** An entity object as the source builds it; `kind` is its `type` field. */
  class EntityRecord {
    var kind: EntityType
    var start: Point
    var end: Point
    var vertices: seq<Point>
    var closed: bool
    var center: Point
    var radius: real

    /** The entity this object describes now. */
    function Value(): Entity
      reads this
    {
      match kind
      case LineType => Line(start, end)
      case PolylineType => LwPolyline(vertices, closed)
      case CircleType => Circle(center, radius)
    }

    constructor (kind: EntityType)
      ensures this.kind == kind
      ensures Value() == Blank(kind)
    {
      this.kind := kind;
      start, end := Origin, Origin;
      vertices, closed := [], false;
      center, radius := Origin, 0.0;
    }

    /** The property branch of the loop, patching this object in place. */
    method SetProperty(code: string, value: string, legacy: bool, parseFloat: string -> real)
      modifies this
      ensures kind == old(kind)
      ensures Value() == WithProperty(old(Value()), code, value, legacy, parseFloat)
    {
      match kind
      case LineType =>
        if code == "10" { start := start.(x := parseFloat(value)); }
        if code == "20" { start := start.(y := parseFloat(value)); }
        if code == "11" { end := end.(x := parseFloat(value)); }
        if code == "21" { end := end.(y := parseFloat(value)); }
      case PolylineType =>
        if legacy {
          if code == "10" { vertices := vertices + [Point(parseFloat(value), 0.0)]; }
          if code == "20" {
            if |vertices| > 0 {
              var last := vertices[|vertices| - 1];
              vertices := vertices[|vertices| - 1 := last.(y := parseFloat(value))];
            }
          }
          if code == "70" {
            if ClosedBit(value) { closed := true; }
          }
        } else {
          if code == "10" { vertices := vertices + [Point(parseFloat(value), 0.0)]; }
          if code == "20" {
            if |vertices| > 0 {
              var last := vertices[|vertices| - 1];
              vertices := vertices[|vertices| - 1 := last.(y := parseFloat(value))];
            }
          }
          if code == "70" { closed := ClosedBit(value); }
        }
      case CircleType =>
        if code == "10" { center := center.(x := parseFloat(value)); }
        if code == "20" { center := center.(y := parseFloat(value)); }
        if code == "40" { radius := parseFloat(value); }
    }
  }

  /** The decoder state that the loop's variables stand for. */
  ghost function Abstract(inEntities: bool, cur: EntityRecord?, legacy: bool, slots: seq<Slot>): DecoderState
    reads cur
  {
    DecoderState(inEntities, if cur == null then None else Some(cur.Value()), legacy, slots)
  }

  /** The entities array `objs` against its description `slots`: Live exactly where the object is current. */
  ghost predicate Linked(objs: seq<EntityRecord>, slots: seq<Slot>, cur: EntityRecord?)
    reads objs
  {
    |objs| == |slots| &&
    forall k :: 0 <= k < |objs| ==>
      (slots[k].Live? <==> objs[k] == cur) &&
      (slots[k].Frozen? ==> objs[k].Value() == slots[k].entity)
  }

  ghost function FreezeAt(slots: seq<Slot>, cur: EntityRecord?): seq<Slot>
    reads cur
  {
    if cur == null then slots else Freeze(slots, cur.Value())
  }

  /** The (0, value) branch of the loop inside the ENTITIES section. */
  method EntityBoundary(value: string, cur: EntityRecord?, legacy: bool, objs: seq<EntityRecord>, ghost slots: seq<Slot>)
    returns (cur': EntityRecord?, legacy': bool, objs': seq<EntityRecord>, ghost slots': seq<Slot>)
    requires Linked(objs, slots, cur)
    requires WellFormed(Abstract(true, cur, legacy, slots))
    ensures cur' != null ==> cur' == cur || fresh(cur')
    ensures Linked(objs', slots', cur')
    ensures Abstract(true, cur', legacy', slots') == Boundary(Abstract(true, cur, legacy, slots), value)
  {
    ghost var st := Abstract(true, cur, legacy, slots);
    var isVertex := value == "VERTEX";
    var isSeqEnd := value == "SEQEND";
    cur', legacy', objs', slots' := cur, legacy, objs, slots;
    if legacy && isVertex {
      // the VERTEX record's properties are read into the open polyline
    } else if legacy && isSeqEnd {
      if cur != null && cur.kind == PolylineType {
        objs', slots' := objs' + [cur], slots' + [Live];
      }
      slots' := FreezeAt(slots', cur);
      cur' := null;
      legacy' := false;
    } else {
      if cur != null && !legacy {
        if cur.kind == LineType {
          objs', slots' := objs' + [cur], slots' + [Live];
        } else if cur.kind == PolylineType && |cur.vertices| > 0 {
          objs', slots' := objs' + [cur], slots' + [Live];
        } else if cur.kind == CircleType && cur.radius != 0.0 {
          objs', slots' := objs' + [cur], slots' + [Live];
        }
      }
      ghost var st1 := Abstract(true, cur, legacy, slots');
      assert st1 == if st.current.Some? && !st.legacy && Committable(st.current.value) then PushCurrent(st) else st;
      if value == "LINE" {
        slots' := FreezeAt(slots', cur);
        cur' := new EntityRecord(LineType);
      } else if value == "LWPOLYLINE" {
        slots' := FreezeAt(slots', cur);
        cur' := new EntityRecord(PolylineType);
      } else if value == "POLYLINE" {
        slots' := FreezeAt(slots', cur);
        cur' := new EntityRecord(PolylineType);
        legacy' := true;
      } else if value == "CIRCLE" {
        slots' := FreezeAt(slots', cur);
        cur' := new EntityRecord(CircleType);
      } else if !isVertex && !isSeqEnd {
        slots' := FreezeAt(slots', cur);
        cur' := null;
      }
    }
  }

  /** The property branch: patch the current object; the other array entries keep their values. */
  method PatchCurrent(cur: EntityRecord, code: string, value: string, legacy: bool,
                      objs: seq<EntityRecord>, ghost slots: seq<Slot>, parseFloat: string -> real)
    requires Linked(objs, slots, cur)
    modifies cur
    ensures Linked(objs, slots, cur)
    ensures cur.Value() == WithProperty(old(cur.Value()), code, value, legacy, parseFloat)
  {
    cur.SetProperty(code, value, legacy, parseFloat);
    assert forall k :: 0 <= k < |objs| && slots[k].Frozen? ==> objs[k] != cur && objs[k].Value() == old(objs[k].Value());
  }

  /** An ordinary pair: the ENDSEC test and the work inside the ENTITIES section. */
  method ApplyPair(code: string, value: string, inEntities: bool, cur: EntityRecord?, legacy: bool,
                   objs: seq<EntityRecord>, ghost slots: seq<Slot>, parseFloat: string -> real)
    returns (inEntities': bool, cur': EntityRecord?, legacy': bool, objs': seq<EntityRecord>, ghost slots': seq<Slot>)
    requires Linked(objs, slots, cur)
    requires WellFormed(Abstract(inEntities, cur, legacy, slots))
    modifies cur
    ensures cur' != null ==> cur' == cur || fresh(cur')
    ensures Linked(objs', slots', cur')
    ensures WellFormed(Abstract(inEntities', cur', legacy', slots'))
    ensures Abstract(inEntities', cur', legacy', slots')
         == Apply(old(Abstract(inEntities, cur, legacy, slots)), code, value, parseFloat)
  {
    inEntities', cur', legacy', objs', slots' := inEntities, cur, legacy, objs, slots;
    if code == "0" && value == "ENDSEC" {
      inEntities' := false;
    }
    if inEntities' {
      if code == "0" {
        cur', legacy', objs', slots' := EntityBoundary(value, cur, legacy, objs, slots);
      } else if cur != null {
        PatchCurrent(cur, code, value, legacy, objs, slots, parseFloat);
      }
    }
  }

  /** One turn of the loop of parseDXF at cursor i. */
  method ReadPair(lines: seq<string>, i: nat, inEntities: bool, cur: EntityRecord?, legacy: bool,
                  objs: seq<EntityRecord>, ghost slots: seq<Slot>, parseFloat: string -> real)
    returns (i': nat, inEntities': bool, cur': EntityRecord?, legacy': bool,
             objs': seq<EntityRecord>, ghost slots': seq<Slot>)
    requires i < |lines|
    requires Linked(objs, slots, cur)
    requires WellFormed(Abstract(inEntities, cur, legacy, slots))
    modifies cur
    ensures cur' != null ==> cur' == cur || fresh(cur')
    ensures Linked(objs', slots', cur')
    ensures WellFormed(Abstract(inEntities', cur', legacy', slots'))
    ensures (i', Abstract(inEntities', cur', legacy', slots'))
         == Step(lines, i, old(Abstract(inEntities, cur, legacy, slots)), parseFloat)
  {
    ghost var st := Abstract(inEntities, cur, legacy, slots);
    i', inEntities', cur', legacy', objs', slots' := i, inEntities, cur, legacy, objs, slots;
    var code := Trim(lines[i]);
    var value := if i + 1 < |lines| then Trim(lines[i + 1]) else "";
    assert code == CodeAt(lines, i) && value == ValueAt(lines, i);
    if code == "" || value == "" {
      i' := i + 2;
      assert Step(lines, i, st, parseFloat) == (i + 2, st);
      return;
    }
    if code == "0" && value == "SECTION" {
      if i + 3 < |lines| && Trim(lines[i + 2]) == "2" && Trim(lines[i + 3]) == "ENTITIES" {
        inEntities' := true;
        i' := i + 4;
        assert Step(lines, i, st, parseFloat) == (i + 4, st.(inEntities := true));
        return;
      }
    }
    assert Step(lines, i, st, parseFloat) == (i + 2, Apply(st, code, value, parseFloat));
    inEntities', cur', legacy', objs', slots' := ApplyPair(code, value, inEntities, cur, legacy, objs, slots, parseFloat);
    i' := i + 2;
  }

  /** The commit after the loop and the values of the entities array. */
  method CommitLast(cur: EntityRecord?, legacy: bool, objs: seq<EntityRecord>, ghost slots: seq<Slot>, ghost inEntities: bool)
    returns (entities: seq<Entity>)
    requires Linked(objs, slots, cur)
    requires WellFormed(Abstract(inEntities, cur, legacy, slots))
    ensures entities == Finish(Abstract(inEntities, cur, legacy, slots))
  {
    ghost var st := Abstract(inEntities, cur, legacy, slots);
    var objs' := objs;
    ghost var slots' := slots;
    if cur != null && !legacy {
      if cur.kind == LineType {
        objs', slots' := objs' + [cur], slots' + [Live];
      } else if cur.kind == PolylineType && |cur.vertices| > 0 {
        objs', slots' := objs' + [cur], slots' + [Live];
      } else if cur.kind == CircleType && cur.radius != 0.0 {
        objs', slots' := objs' + [cur], slots' + [Live];
      }
    }
    ghost var st1 := Abstract(inEntities, cur, legacy, slots');
    assert st1 == if st.current.Some? && !st.legacy && Committable(st.current.value) then PushCurrent(st) else st;
    entities := seq(|objs'|, k requires 0 <= k < |objs'| reads objs' => objs'[k].Value());
    assert entities == Resolve(st1);
  }

  /** parseDXF: the cursor loop over the lines of dxfContent. */
  method ParseDXF(dxfContent: string, parseFloat: string -> real) returns (entities: seq<Entity>)
    ensures entities == Decode(SplitLines(dxfContent), parseFloat)
  {
    var lines := SplitLines(dxfContent);
    var objs: seq<EntityRecord> := [];
    ghost var slots: seq<Slot> := [];
    var isEntitiesSection := false;
    var currentEntity: EntityRecord? := null;
    var isParsingPolyline := false;

    var i: nat := 0;
    while i < |lines|
      invariant currentEntity != null ==> fresh(currentEntity)
      invariant Linked(objs, slots, currentEntity)
      invariant WellFormed(Abstract(isEntitiesSection, currentEntity, isParsingPolyline, slots))
      invariant Run(lines, i, Abstract(isEntitiesSection, currentEntity, isParsingPolyline, slots), parseFloat)
             == Run(lines, 0, Initial, parseFloat)
      decreases |lines| - i
    {
      i, isEntitiesSection, currentEntity, isParsingPolyline, objs, slots :=
        ReadPair(lines, i, isEntitiesSection, currentEntity, isParsingPolyline, objs, slots, parseFloat);
    }
    entities := CommitLast(currentEntity, isParsingPolyline, objs, slots, isEntitiesSection);
  }
}
