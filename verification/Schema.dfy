/**
 * Field descriptors and the messages they describe.
 *
 * A descriptor is the array of pb_field_t of a message type, without its terminator. A message is the
 * sequence of its struct members (slots). Every field has a slot of its own, except that the members
 * of a union share one, as the field iterator's pointer arithmetic says.
 */
module Schema {
  import opened Bits
  import opened Options

  const PB_SIZE_MAX: nat := 255
  const PB_MAX_REQUIRED_FIELDS: nat := 64
  const TAG_MAX: nat := 0x1FFF_FFFF

  /** The data type of one item. */
  datatype LType =
    | LVarint | LUvarint | LSvarint | LFixed32 | LFixed64
    | LBytes | LString | LFixedBytes
    | LSubmessage(fields: seq<Field>)
  {
    /** Numeric types, which go into packed arrays. */
    predicate Packable() { LVarint? || LUvarint? || LSvarint? || LFixed32? || LFixed64? }
  }

  /** How often the field occurs. */
  datatype HType = Required | Optional | Repeated | Oneof

  /** Where the data lives: in the struct, or behind a byte-bundle callback. */
  datatype AType = Static | Callback

  datatype Field = Field(
    tag: nat, ltype: LType, htype: HType, atype: AType,
    dataOffset: nat, sizeOffset: int, dataSize: nat, arraySize: nat, dflt: Option<Value>)

  /** One item. Text is the C string in a char buffer: the bytes before the first NUL. */
  datatype Value = Int(i: int) | Blob(b: seq<byte>) | Text(s: seq<byte>) | Msg(slots: seq<Slot>)

  /**
   * One struct member: a single item with its has-flag, a counted array, a union with its selector,
   * or a callback, which is unset or bound to a bundle of bytes.
   */
  datatype Slot =
    | One(has: bool, v: Value)
    | Many(items: seq<Value>)
    | Union(which: nat, u: Value)
    | Hook(bundle: Option<seq<byte>>)

  // ---- Where a field's data is

  /** Field i lies in the same union as field i - 1. */
  predicate Joined(fields: seq<Field>, i: nat)
    requires 0 < i < |fields|
  {
    fields[i - 1].htype.Oneof? && fields[i].htype.Oneof? && fields[i].dataOffset == PB_SIZE_MAX
  }

  function SlotOf(fields: seq<Field>, i: nat): nat
    requires i < |fields|
  {
    if i == 0 then 0
    else SlotOf(fields, i - 1) + (if Joined(fields, i) then 0 else 1)
  }

  function SlotCount(fields: seq<Field>): nat {
    if fields == [] then 0 else SlotOf(fields, |fields| - 1) + 1
  }

  /** How many of the first n fields are required. */
  function RequiredBefore(fields: seq<Field>, n: nat): nat
    requires n <= |fields|
  {
    if n == 0 then 0
    else RequiredBefore(fields, n - 1) + (if fields[n - 1].htype.Required? then 1 else 0)
  }

  /** The required fields the decoder keeps track of: the first 64. */
  predicate Tracked(fields: seq<Field>, i: nat)
    requires i < |fields|
  {
    fields[i].htype.Required? && RequiredBefore(fields, i) < PB_MAX_REQUIRED_FIELDS
  }

  lemma {:induction false} SlotInRange(fields: seq<Field>, i: nat, j: nat)
    requires i <= j < |fields|
    ensures SlotOf(fields, i) <= SlotOf(fields, j) < SlotCount(fields)
    decreases |fields| - i
  {
    if i < j {
      SlotInRange(fields, i + 1, j);
    } else if j < |fields| - 1 {
      SlotInRange(fields, i + 1, |fields| - 1);
    }
  }

  /** Outside a union, a field's slot lies beyond those of all earlier fields. */
  lemma {:induction false} SlotIsNew(fields: seq<Field>, i: nat, j: nat)
    requires i < j < |fields| && !fields[j].htype.Oneof?
    ensures SlotOf(fields, i) < SlotOf(fields, j)
  {
    SlotInRange(fields, i, j - 1);
  }

  /** Every slot belongs to some field. */
  lemma {:induction false} SlotHasField(fields: seq<Field>, n: nat, k: nat) returns (i: nat)
    requires 0 < n <= |fields| && k <= SlotOf(fields, n - 1)
    ensures i < n && SlotOf(fields, i) == k
  {
    if k == SlotOf(fields, n - 1) {
      i := n - 1;
    } else {
      i := SlotHasField(fields, n - 1, k);
    }
  }

  /** The first field with the given tag. */
  function FindTag(fields: seq<Field>, tag: nat, from: nat): (r: Option<nat>)
    requires from <= |fields|
    ensures r.Some? ==> from <= r.value < |fields| && fields[r.value].tag == tag
    ensures r.None? ==> forall i :: from <= i < |fields| ==> fields[i].tag != tag
    decreases |fields| - from
  {
    if from == |fields| then None
    else if fields[from].tag == tag then Some(from)
    else FindTag(fields, tag, from + 1)
  }

  // ---- Well-formed descriptors, as the generator emits them

  ghost predicate DistinctTags(fields: seq<Field>) {
    forall i, j :: 0 <= i < j < |fields| ==> fields[i].tag != fields[j].tag
  }

  ghost predicate WellFormedField(f: Field)
    decreases f
  {
    && 1 <= f.tag <= TAG_MAX
    && f.dataSize <= PB_SIZE_MAX && f.arraySize <= PB_SIZE_MAX
    && (f.atype.Callback? ==> (f.htype.Required? || f.htype.Optional?) && (f.ltype.LBytes? || f.ltype.LString?))
    && (f.ltype.LSubmessage? ==> WellFormed(f.ltype.fields))
  }

  ghost predicate WellFormed(fields: seq<Field>)
    decreases fields
  {
    && DistinctTags(fields)
    && forall i :: 0 <= i < |fields| ==> WellFormedField(fields[i])
  }

  lemma FindsItself(fields: seq<Field>, i: nat)
    requires DistinctTags(fields) && i < |fields|
    ensures FindTag(fields, fields[i].tag, 0) == Some(i)
  {
    var r := FindTag(fields, fields[i].tag, 0);
    assert r.Some?;
  }

  // ---- Default values

  function ZeroValue(f: Field): Value {
    match f.ltype
    case LBytes => Blob([])
    case LString => Text([])
    case LFixedBytes => Blob(seq(f.dataSize, _ => 0))
    case LSubmessage(_) => Msg([])
    case _ => Int(0)
  }

  /** Struct memory cleared to zero bytes: no callback is bound. */
  function ZeroMemory(fields: seq<Field>): (slots: seq<Slot>)
    ensures |slots| == SlotCount(fields)
  {
    seq(SlotCount(fields), _ => Hook(None))
  }

  /** The submessage a value holds. */
  function Inner(v: Value, fields: seq<Field>): (slots: seq<Slot>)
    ensures |slots| == SlotCount(fields)
  {
    if v.Msg? && |v.slots| == SlotCount(fields) then v.slots else ZeroMemory(fields)
  }

  function ValueOf(s: Slot): Value {
    match s
    case One(_, v) => v
    case Union(_, u) => u
    case _ => Int(0)
  }

  function ItemsOf(s: Slot): seq<Value> {
    if s.Many? then s.items else []
  }

  function DefaultValue(f: Field, was: Value): Value
    decreases f, 0
  {
    if f.ltype.LSubmessage? then
      var sub := f.ltype.fields;
      Msg(DefaultsUpTo(sub, |sub|, Inner(was, sub)))
    else if f.dflt.Some? then f.dflt.value
    else ZeroValue(f)
  }

  /** Initialising one field. Callbacks are not overwritten. */
  function DefaultSlot(f: Field, was: Slot): Slot
    decreases f, 1
  {
    if f.atype.Callback? then was
    else match f.htype
      case Repeated => Many([])
      case Oneof => Union(0, Int(0))
      case _ => One(false, DefaultValue(f, ValueOf(was)))
  }

  /** Initialising the first n fields in turn. */
  function DefaultsUpTo(fields: seq<Field>, n: nat, was: seq<Slot>): (slots: seq<Slot>)
    requires n <= |fields| && |was| == SlotCount(fields)
    ensures |slots| == |was|
    decreases fields, n
  {
    if n == 0 then was
    else
      var done := DefaultsUpTo(fields, n - 1, was);
      var k := SlotOf(fields, n - 1);
      SlotInRange(fields, n - 1, n - 1);
      done[k := DefaultSlot(fields[n - 1], done[k])]
  }

  function Defaults(fields: seq<Field>, was: seq<Slot>): (slots: seq<Slot>)
    requires |was| == SlotCount(fields)
    ensures |slots| == |was|
  {
    DefaultsUpTo(fields, |fields|, was)
  }

  // ---- Ranges of integers of a given size in bytes

  predicate IntSize(size: nat) { size == 1 || size == 2 || size == 4 || size == 8 }

  function UnsignedLimit(size: nat): nat {
    if size == 1 then 0x100 else if size == 2 then 0x1_0000 else if size == 4 then U32 else U64
  }

  predicate SignedFits(i: int, size: nat) {
    IntSize(size) && -(UnsignedLimit(size) as int) <= 2 * i < UnsignedLimit(size)
  }

  predicate UnsignedFits(i: int, size: nat) {
    IntSize(size) && 0 <= i < UnsignedLimit(size)
  }

  /** The two's complement reading of the low 8 * size bits of w. */
  function Signed(w: nat, size: nat): int {
    var m := w % UnsignedLimit(size);
    if 2 * m < UnsignedLimit(size) then m else m - UnsignedLimit(size)
  }

  /** A signed integer as the 64-bit word a cast gives. */
  function ToU64(i: int): nat
    requires SignedFits(i, 8)
  {
    if i < 0 then i + U64 else i
  }
}
