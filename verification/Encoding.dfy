/** What the encoder writes: the bytes of a message, field by field in descriptor order. */
module Encoding {
  import opened Bits
  import opened Options
  import opened Schema
  import opened Varint

  const WT_VARINT: nat := 0
  const WT_64BIT: nat := 1
  const WT_STRING: nat := 2
  const WT_32BIT: nat := 5

  function WireType(t: LType): (wt: nat)
    ensures wt < 8
  {
    match t
    case LVarint | LUvarint | LSvarint => WT_VARINT
    case LFixed32 => WT_32BIT
    case LFixed64 => WT_64BIT
    case _ => WT_STRING
  }

  /** The n low bytes of w, least significant first. */
  function LittleEndian(w: nat, n: nat): (bs: seq<byte>)
    ensures |bs| == n
  {
    if n == 0 then [] else [w % 256] + LittleEndian(w / 256, n - 1)
  }

  function TagBytes(wireType: nat, tag: nat): (bs: seq<byte>)
    ensures |bs| >= 1
  {
    VarintBytes(8 * tag + wireType)
  }

  function FieldTag(f: Field): (bs: seq<byte>)
    ensures |bs| >= 1
  {
    TagBytes(WireType(f.ltype), f.tag)
  }

  /** A length prefix and the data. */
  function Delimited(bs: seq<byte>): seq<byte> {
    VarintBytes(|bs|) + bs
  }

  /** A length prefix and a body, when there is one and its size is a size_t of 32 bits. */
  function Prefixed(body: Option<seq<byte>>): (r: Option<seq<byte>>)
    ensures r.Some? <==> body.Some? && |body.value| < U32
    ensures r.Some? ==> r.value == Delimited(body.value)
  {
    if body.None? || |body.value| >= U32 then None else Some(Delimited(body.value))
  }

  /** A char buffer holds s when s has no NUL and fits; it is terminated when a NUL follows it. */
  predicate HoldsText(f: Field, s: seq<byte>) {
    0 !in s && |s| <= f.dataSize
  }

  /** An item that is not a submessage; None where the encoder reports an error. */
  function EncodeScalar(f: Field, v: Value): Option<seq<byte>> {
    match (f.ltype, v)
    case (LVarint, Int(i)) =>
      if SignedFits(i, f.dataSize) then Some(VarintBytes(ToU64(i))) else None
    case (LUvarint, Int(i)) =>
      if UnsignedFits(i, f.dataSize) then Some(VarintBytes(i)) else None
    case (LSvarint, Int(i)) =>
      if SignedFits(i, f.dataSize) then Some(VarintBytes(ZigZag(i))) else None
    case (LFixed32, Int(i)) =>
      if UnsignedFits(i, 4) then Some(LittleEndian(i, 4)) else None
    case (LFixed64, Int(i)) =>
      if UnsignedFits(i, 8) then Some(LittleEndian(i, 8)) else None
    case (LBytes, Blob(b)) =>
      if |b| + 1 <= f.dataSize then Some(Delimited(b)) else None
    case (LString, Text(s)) =>
      if HoldsText(f, s) then Some(Delimited(s)) else None
    case (LFixedBytes, Blob(b)) =>
      if |b| == f.dataSize then Some(Delimited(b)) else None
    case _ => None
  }

  function EncodeValue(f: Field, v: Value): Option<seq<byte>>
    decreases f, 0
  {
    if f.ltype.LSubmessage? then
      var sub := f.ltype.fields;
      if !v.Msg? || |v.slots| != SlotCount(sub) then None
      else Prefixed(EncodeUpTo(sub, |sub|, v.slots))
    else EncodeScalar(f, v)
  }

  /** A tag and an item. */
  function EncodeTagged(f: Field, v: Value): Option<seq<byte>>
    decreases f, 1
  {
    var body := EncodeValue(f, v);
    if body.None? then None else Some(FieldTag(f) + body.value)
  }

  /** The first n items of a packed array, without tag or length. */
  function EncodePacked(f: Field, items: seq<Value>, n: nat): Option<seq<byte>>
    requires n <= |items|
  {
    if n == 0 then Some([])
    else
      var done := EncodePacked(f, items, n - 1);
      var item := EncodeScalar(f, items[n - 1]);
      if done.None? || item.None? then None else Some(done.value + item.value)
  }

  /** The first n items of an array that cannot be packed, each with its tag. */
  function EncodeItems(f: Field, items: seq<Value>, n: nat): Option<seq<byte>>
    requires n <= |items|
    decreases f, 2, n
  {
    if n == 0 then Some([])
    else
      var done := EncodeItems(f, items, n - 1);
      var item := EncodeTagged(f, items[n - 1]);
      if done.None? || item.None? then None else Some(done.value + item.value)
  }

  function EncodeArray(f: Field, items: seq<Value>): Option<seq<byte>>
    decreases f, 3
  {
    if |items| == 0 then Some([])
    else if |items| > f.arraySize then None
    else if f.ltype.Packable() then
      var body := Prefixed(EncodePacked(f, items, |items|));
      if body.None? then None else Some(TagBytes(WT_STRING, f.tag) + body.value)
    else EncodeItems(f, items, |items|)
  }

  /** The zero test for proto3 fields, which have no has-flag. */
  predicate IsZero(f: Field, s: Slot)
    decreases f, 0
  {
    match f.htype
    case Required => false
    case Repeated => |ItemsOf(s)| == 0
    case Oneof => s.Union? && s.which == 0
    case Optional =>
      if f.sizeOffset != 0 then s.One? && !s.has
      else if f.atype.Callback? then s == Hook(None)
      else match f.ltype
        case LBytes => ValueOf(s) == Blob([])
        case LString => ValueOf(s) == Text([])
        case LFixedBytes => f.dataSize == 0
        case LSubmessage(sub) => AllZero(sub, 0, Inner(ValueOf(s), sub))
        case _ => ValueOf(s) == Int(0)
  }

  predicate AllZero(fields: seq<Field>, from: nat, slots: seq<Slot>)
    requires from <= |fields| && |slots| == SlotCount(fields)
    decreases fields, |fields| - from
  {
    from == |fields| ||
    (SlotInRange(fields, from, from);
     IsZero(fields[from], slots[SlotOf(fields, from)]) && AllZero(fields, from + 1, slots))
  }

  /** Whether a single (required, optional or union) field is written. */
  predicate Present(f: Field, s: Slot) {
    match f.htype
    case Required => true
    case Optional => if f.sizeOffset != 0 then s.One? && s.has else !IsZero(f, s)
    case Oneof => s.Union? && s.which == f.tag
    case Repeated => false
  }

  /** The bundle callback writes the tag and the length-prefixed bytes; an unset callback writes nothing. */
  function EncodeHook(f: Field, s: Slot): Option<seq<byte>> {
    if !s.Hook? then None
    else if s.bundle.None? then Some([])
    else if |s.bundle.value| >= U32 then None
    else Some(FieldTag(f) + Delimited(s.bundle.value))
  }

  function EncodeField(f: Field, s: Slot): Option<seq<byte>>
    decreases f, 4
  {
    if f.atype.Callback? then EncodeHook(f, s)
    else match f.htype
      case Repeated => if s.Many? then EncodeArray(f, s.items) else None
      case Oneof =>
        if !s.Union? then None
        else if Present(f, s) then EncodeTagged(f, s.u)
        else Some([])
      case _ =>
        if !s.One? then None
        else if Present(f, s) then EncodeTagged(f, s.v)
        else Some([])
  }

  /** The bytes of the first n fields. */
  function EncodeUpTo(fields: seq<Field>, n: nat, msg: seq<Slot>): Option<seq<byte>>
    requires n <= |fields| && |msg| == SlotCount(fields)
    decreases fields, n
  {
    if n == 0 then Some([])
    else
      var done := EncodeUpTo(fields, n - 1, msg);
      SlotInRange(fields, n - 1, n - 1);
      var next := EncodeField(fields[n - 1], msg[SlotOf(fields, n - 1)]);
      if done.None? || next.None? then None else Some(done.value + next.value)
  }

  /** The wire form of a message. */
  function Encode(fields: seq<Field>, msg: seq<Slot>): Option<seq<byte>>
    requires |msg| == SlotCount(fields)
  {
    EncodeUpTo(fields, |fields|, msg)
  }
}
