/** What the decoder reads: a loop over tags that fills slots, then the required-field check. */
module Decoding {
  import opened Bits
  import opened Options
  import opened Schema
  import opened Varint
  import opened Encoding

  /** Slots filled so far, the fields met in order, and whether a zero tag ended the message. */
  datatype State = State(slots: seq<Slot>, log: seq<nat>, stopped: bool)

  // ---- Reading and skipping raw data

  function Take(bs: seq<byte>, n: nat): (r: Parse<seq<byte>>)
    ensures r.Ok? ==> bs == r.v + r.rest && |r.v| == n
  {
    if |bs| < n then Fail else Ok(bs[..n], bs[n..])
  }

  /** A length prefix and that many bytes. */
  function TakeDelimited(bs: seq<byte>): (r: Parse<seq<byte>>)
    ensures r.Ok? ==> |r.v| + |r.rest| < |bs|
  {
    match Varint32(bs)
    case Fail => Fail
    case Ok(n, rest) => Take(rest, n)
  }

  /** Bytes up to and including the first one without a continuation bit. */
  function TakeVarint(bs: seq<byte>): (r: Parse<seq<byte>>)
    ensures r.Ok? ==> bs == r.v + r.rest && |r.v| >= 1
  {
    if bs == [] then Fail
    else if bs[0] < 128 then Ok(bs[..1], bs[1..])
    else
      match TakeVarint(bs[1..])
      case Fail => Fail
      case Ok(v, rest) => Ok([bs[0]] + v, rest)
  }

  function SkipField(wireType: nat, bs: seq<byte>): (r: Parse<seq<byte>>)
    ensures r.Ok? ==> |r.rest| <= |bs|
  {
    if wireType == WT_VARINT then TakeVarint(bs)
    else if wireType == WT_64BIT then Take(bs, 8)
    else if wireType == WT_STRING then TakeDelimited(bs)
    else if wireType == WT_32BIT then Take(bs, 4)
    else Fail
  }

  // ---- Items

  function FromLittleEndian(bs: seq<byte>): nat {
    if bs == [] then 0 else bs[0] + 256 * FromLittleEndian(bs[1..])
  }

  /** The part of a char buffer that C reads as its string. */
  function CString(bs: seq<byte>): (s: seq<byte>)
    ensures |s| <= |bs| && 0 !in s
  {
    if bs == [] || bs[0] == 0 then [] else [bs[0]] + CString(bs[1..])
  }

  /** An integer, when it fits the field. */
  function CheckedInt(i: int, fits: bool, rest: seq<byte>): Parse<Value> {
    if fits then Ok(Int(i), rest) else Fail
  }

  function DecodeInt(f: Field, bs: seq<byte>): (r: Parse<Value>)
    ensures r.Ok? ==> |r.rest| < |bs|
  {
    match Varint64(bs)
    case Fail => Fail
    case Ok(w, rest) =>
      if f.ltype.LVarint? then
        var i := Signed(w, if f.dataSize == 8 then 8 else 4);
        CheckedInt(i, SignedFits(i, f.dataSize), rest)
      else if f.ltype.LUvarint? then
        CheckedInt(w, UnsignedFits(w, f.dataSize), rest)
      else
        CheckedInt(UnZigZag(w), SignedFits(UnZigZag(w), f.dataSize), rest)
  }

  function DecodeFixed(n: nat, bs: seq<byte>): (r: Parse<Value>)
    ensures r.Ok? ==> |r.rest| + n == |bs|
  {
    match Take(bs, n)
    case Fail => Fail
    case Ok(b, rest) => Ok(Int(FromLittleEndian(b)), rest)
  }

  function DecodeBlob(f: Field, bs: seq<byte>): (r: Parse<Value>)
    ensures r.Ok? ==> |r.rest| < |bs|
  {
    match Varint32(bs)
    case Fail => Fail
    case Ok(size, rest) =>
      if f.ltype.LString? then
        if size + 1 > f.dataSize || |rest| < size then Fail
        else Ok(Text(CString(rest[..size])), rest[size..])
      else if size > PB_SIZE_MAX then Fail
      else if f.ltype.LBytes? then
        if size + 1 > f.dataSize || |rest| < size then Fail
        else Ok(Blob(rest[..size]), rest[size..])
      else if size == 0 then Ok(Blob(seq(f.dataSize, _ => 0)), rest)
      else if size != f.dataSize || |rest| < size then Fail
      else Ok(Blob(rest[..size]), rest[size..])
  }

  /** An item that is not a submessage. */
  function DecodeScalar(f: Field, bs: seq<byte>): (r: Parse<Value>)
    ensures r.Ok? ==> |r.rest| < |bs|
  {
    match f.ltype
    case LVarint | LUvarint | LSvarint => DecodeInt(f, bs)
    case LFixed32 => DecodeFixed(4, bs)
    case LFixed64 => DecodeFixed(8, bs)
    case LSubmessage(_) => Fail
    case _ => DecodeBlob(f, bs)
  }

  /** Items of a packed array, appended while there are bytes and room. */
  function DecodePacked(f: Field, bs: seq<byte>, items: seq<Value>): Option<seq<Value>>
    decreases |bs|
  {
    if bs == [] then Some(items)
    else if |items| >= f.arraySize then None
    else
      match DecodeScalar(f, bs)
      case Fail => None
      case Ok(v, rest) => DecodePacked(f, rest, items + [v])
  }

  /** A scalar handed to a callback: at most ten bytes of it. */
  function TakeRaw(wireType: nat, bs: seq<byte>): (r: Parse<seq<byte>>)
    ensures r.Ok? ==> |r.rest| <= |bs|
  {
    if wireType == WT_VARINT then
      match TakeVarint(bs)
      case Fail => Fail
      case Ok(v, rest) => if |v| > 10 then Fail else Ok(v, rest)
    else if wireType == WT_64BIT then Take(bs, 8)
    else if wireType == WT_32BIT then Take(bs, 4)
    else Fail
  }

  /** The bundle callback points its bundle at the data; an unset callback skips the field. */
  function DecodeHook(wireType: nat, bs: seq<byte>, s: Slot): (r: Parse<Slot>)
    ensures r.Ok? ==> |r.rest| <= |bs|
  {
    if !s.Hook? || s.bundle.None? then
      match SkipField(wireType, bs)
      case Fail => Fail
      case Ok(_, rest) => Ok(s, rest)
    else
      match if wireType == WT_STRING then TakeDelimited(bs) else TakeRaw(wireType, bs)
      case Fail => Fail
      case Ok(v, rest) => Ok(Hook(Some(v)), rest)
  }

  // ---- Messages

  /** What an item starts from: array entries and union submessages are initialised first. */
  function StartValue(f: Field, was: Value): Value {
    if f.ltype.LSubmessage? then
      var sub := f.ltype.fields;
      if f.htype.Repeated? || f.htype.Oneof? then Msg(Defaults(sub, ZeroMemory(sub)))
      else Msg(Inner(was, sub))
    else was
  }

  function DecodeValue(f: Field, bs: seq<byte>, start: Value): (r: Parse<Value>)
    ensures r.Ok? ==> |r.rest| < |bs|
    decreases |bs|, 1
  {
    if f.ltype.LSubmessage? then
      match TakeDelimited(bs)
      case Fail => Fail
      case Ok(body, rest) =>
        match DecodeNoInit(f.ltype.fields, body, Inner(start, f.ltype.fields))
        case Fail => Fail
        case Ok(slots, _) => Ok(Msg(slots), rest)
    else DecodeScalar(f, bs)
  }

  function DecodeRepeated(f: Field, wireType: nat, bs: seq<byte>, s: Slot): (r: Parse<Slot>)
    ensures r.Ok? ==> |r.rest| <= |bs|
    decreases |bs|, 2
  {
    if wireType == WT_STRING && f.ltype.Packable() then
      match TakeDelimited(bs)
      case Fail => Fail
      case Ok(body, rest) =>
        var items := DecodePacked(f, body, ItemsOf(s));
        if items.None? then Fail else Ok(Many(items.value), rest)
    else if |ItemsOf(s)| >= f.arraySize then Fail
    else
      match DecodeValue(f, bs, StartValue(f, Int(0)))
      case Fail => Fail
      case Ok(v, rest) => Ok(Many(ItemsOf(s) + [v]), rest)
  }

  function DecodeField(f: Field, wireType: nat, bs: seq<byte>, s: Slot): (r: Parse<Slot>)
    ensures r.Ok? ==> |r.rest| <= |bs|
    decreases |bs|, 3
  {
    if f.atype.Callback? then DecodeHook(wireType, bs, s)
    else if f.htype.Repeated? then DecodeRepeated(f, wireType, bs, s)
    else
      match DecodeValue(f, bs, StartValue(f, ValueOf(s)))
      case Fail => Fail
      case Ok(v, rest) =>
        if f.htype.Oneof? then Ok(Union(f.tag, v), rest)
        else Ok(One((f.htype.Optional? && f.sizeOffset != 0) || (s.One? && s.has), v), rest)
  }

  /** Reading one known field into its slot. */
  function Known(fields: seq<Field>, i: nat, wireType: nat, bs: seq<byte>, st: State): (r: Parse<State>)
    requires i < |fields| && |st.slots| == SlotCount(fields)
    ensures r.Ok? ==> |r.rest| <= |bs| && |r.v.slots| == |st.slots|
    decreases |bs|, 4
  {
    SlotInRange(fields, i, i);
    var k := SlotOf(fields, i);
    match DecodeField(fields[i], wireType, bs, st.slots[k])
    case Fail => Fail
    case Ok(s, rest) => Ok(st.(slots := st.slots[k := s], log := st.log + [i]), rest)
  }

  /**
   * One field after its tag. An unknown field is skipped; in a message type without fields the
   * terminator itself matches tag 0, and no value decodes into it.
   */
  function Record(fields: seq<Field>, key: nat, bs: seq<byte>, st: State): (r: Parse<State>)
    requires |st.slots| == SlotCount(fields)
    ensures r.Ok? ==> |r.rest| <= |bs| && |r.v.slots| == |st.slots|
    decreases |bs|, 5
  {
    match FindTag(fields, key / 8, 0)
    case Some(i) => Known(fields, i, key % 8, bs, st)
    case None =>
      if fields == [] && key / 8 == 0 then Fail
      else
        match SkipField(key % 8, bs)
        case Fail => Fail
        case Ok(_, rest) => Ok(st, rest)
  }

  /** The field loop: it ends with the input or at a zero tag. */
  function DecodeFields(fields: seq<Field>, bs: seq<byte>, st: State): (r: Parse<State>)
    requires |st.slots| == SlotCount(fields)
    ensures r.Ok? ==> |r.rest| <= |bs| && |r.v.slots| == |st.slots|
    decreases |bs|, 6
  {
    if bs == [] then Ok(st, [])
    else
      match Varint32(bs)
      case Fail => Fail
      case Ok(key, rest) =>
        if key == 0 then Ok(st.(stopped := true), rest)
        else
          match Record(fields, key, rest, st)
          case Fail => Fail
          case Ok(st', rest') => DecodeFields(fields, rest', st')
  }

  /** Each tracked required field has been met. */
  ghost predicate RequiredMet(fields: seq<Field>, log: seq<nat>) {
    forall i :: 0 <= i < |fields| && Tracked(fields, i) ==> i in log
  }

  /** The same, as a test. */
  predicate RequiredMetFrom(fields: seq<Field>, log: seq<nat>, from: nat)
    requires from <= |fields|
    decreases |fields| - from
  {
    from == |fields| || ((Tracked(fields, from) ==> from in log) && RequiredMetFrom(fields, log, from + 1))
  }

  lemma {:induction false} RequiredMetTest(fields: seq<Field>, log: seq<nat>, from: nat)
    requires from <= |fields|
    ensures RequiredMetFrom(fields, log, from)
            <==> forall i :: from <= i < |fields| && Tracked(fields, i) ==> i in log
    decreases |fields| - from
  {
    if from < |fields| { RequiredMetTest(fields, log, from + 1); }
  }

  /** Decoding into slots that are already initialised. */
  function DecodeNoInit(fields: seq<Field>, bs: seq<byte>, slots: seq<Slot>): (r: Parse<seq<Slot>>)
    requires |slots| == SlotCount(fields)
    ensures r.Ok? ==> |r.rest| <= |bs| && |r.v| == |slots|
    decreases |bs|, 7
  {
    match DecodeFields(fields, bs, State(slots, [], false))
    case Fail => Fail
    case Ok(st, rest) => if RequiredMetFrom(fields, st.log, 0) then Ok(st.slots, rest) else Fail
  }

  /** Decoding into a struct: defaults first. */
  function Decode(fields: seq<Field>, bs: seq<byte>, dest: seq<Slot>): (r: Parse<seq<Slot>>)
    requires |dest| == SlotCount(fields)
    ensures r.Ok? ==> |r.rest| <= |bs| && |r.v| == |dest|
  {
    DecodeNoInit(fields, bs, Defaults(fields, dest))
  }

  /** A length-prefixed message: the rest starts right after prefix and length, however it ended. */
  function DecodeDelimited(fields: seq<Field>, bs: seq<byte>, dest: seq<Slot>): (r: Parse<seq<Slot>>)
    requires |dest| == SlotCount(fields)
    ensures r.Ok? ==> |r.rest| < |bs| && |r.v| == |dest|
  {
    match TakeDelimited(bs)
    case Fail => Fail
    case Ok(body, rest) =>
      match Decode(fields, body, dest)
      case Fail => Fail
      case Ok(slots, _) => Ok(slots, rest)
  }
}
