/**
 * Remote-call payloads: a length-prefixed header with the method name and a layout index, then the
 * length-prefixed arguments, which the service's parser for that layout takes apart again.
 */
module Framing {
  import opened Bits
  import opened Options
  import opened Schema
  import opened Varint
  import opened Encoding
  import opened Decoding
  import opened Canon
  import opened RoundTrip
  import opened Identity
  import opened Encoder
  import opened Decoder

  const PB_0 := 0
  const PB_1 := 1
  const PB_2 := 2
  const PB_12 := 3
  const PB_112 := 4
  const PB_113 := 5
  const PB_111 := 6
  const PB_1111 := 7
  const PB_1112 := 8
  const PB_MAX := 9

  const MAX_IPC_METHOD_NAME_LENGTH := 31
  const METHOD_NAME_SIZE := 32

  // ---- The descriptors of mblue.pb.c

  function IntField(tag: nat): Field { Field(tag, LVarint, Required, Static, 0, 0, 4, 0, None) }
  function BytesField(tag: nat): Field { Field(tag, LBytes, Required, Callback, 0, 0, 8, 0, None) }

  const HEADER_FIELDS: seq<Field> :=
    [Field(1, LString, Required, Static, 0, 0, METHOD_NAME_SIZE, 0, None), IntField(2)]

  /** n int32 fields with tags 1 to n, then a bytes callback if there is data. */
  function ArgumentFields(n: nat, data: bool): seq<Field> {
    seq(n, i requires 0 <= i < n => IntField(i + 1)) + (if data then [BytesField(n + 1)] else [])
  }

  /** How many integers a layout carries, and whether bytes follow; None where nothing is encoded. */
  function Layout(index: nat): Option<(nat, bool)> {
    if index == PB_1 then Some((1, false))
    else if index == PB_2 then Some((0, true))
    else if index == PB_12 then Some((1, true))
    else if index == PB_112 then Some((2, true))
    else if index == PB_111 then Some((3, false))
    else if index == PB_1111 then Some((4, false))
    else if index == PB_1112 then Some((3, true))
    else None
  }

  /** The arguments of a remote call. */
  datatype Args = Args(ints: seq<int>, data: Option<seq<byte>>)

  /** The arguments have the layout's shape: that many int32 values, and bytes where it has bytes. */
  predicate Fits(args: Args, index: nat) {
    index < PB_MAX && index != PB_113 &&
    match Layout(index)
    case None => args == Args([], None)
    case Some((n, data)) =>
      |args.ints| == n && (args.data.Some? <==> data) && forall i :: 0 <= i < n ==> SignedFits(args.ints[i], 4)
  }

  /** The struct that holds them. */
  function ArgSlots(args: Args): seq<Slot> {
    seq(|args.ints|, i requires 0 <= i < |args.ints| => One(false, Int(args.ints[i])))
    + (if args.data.Some? then [Hook(args.data)] else [])
  }

  function HeaderSlots(name: seq<byte>, index: nat): seq<Slot> {
    [One(false, Text(name)), One(false, Int(index))]
  }

  // ---- These messages meet the conditions of the round trip

  lemma {:induction false} OwnSlots(fields: seq<Field>, i: nat)
    requires i < |fields| && forall j :: 0 <= j < |fields| ==> !fields[j].htype.Oneof?
    ensures SlotOf(fields, i) == i
  {
    if i > 0 { OwnSlots(fields, i - 1); }
  }

  lemma SlotPerField(fields: seq<Field>)
    requires forall j :: 0 <= j < |fields| ==> !fields[j].htype.Oneof?
    ensures SlotCount(fields) == |fields|
  {
    if fields != [] { OwnSlots(fields, |fields| - 1); }
  }

  lemma ArgumentFieldsFit(n: nat, data: bool)
    requires n <= 4
    ensures var fields := ArgumentFields(n, data);
            && WellFormed(fields) && SlotCount(fields) == |fields| == n + (if data then 1 else 0)
            && forall i :: 0 <= i < |fields| ==> SlotOf(fields, i) == i
  {
    var fields := ArgumentFields(n, data);
    forall i | 0 <= i < |fields| ensures WellFormedField(fields[i]) && fields[i].tag == i + 1 {
    }
    SlotPerField(fields);
    forall i | 0 <= i < |fields| ensures SlotOf(fields, i) == i { OwnSlots(fields, i); }
  }

  /** Memory in which every field is required: scalars anywhere, the callback bound. */
  ghost predicate Ready(n: nat, data: bool, dest: seq<Slot>) {
    |dest| == n + (if data then 1 else 0) && (data ==> dest[n].Hook? && dest[n].bundle.Some?)
  }

  lemma {:induction false} DefaultsOfArguments(n: nat, data: bool, dest: seq<Slot>, m: nat, i: nat)
    requires n <= 4 && Ready(n, data, dest) && m <= |dest| && i < |dest|
    ensures |ArgumentFields(n, data)| == SlotCount(ArgumentFields(n, data)) == |dest|
    ensures DefaultsUpTo(ArgumentFields(n, data), m, dest)[i] == if i < m && i < n then One(false, Int(0)) else dest[i]
    decreases m
  {
    ArgumentFieldsFit(n, data);
    if m > 0 {
      DefaultsOfArguments(n, data, dest, m - 1, i);
      var fields := ArgumentFields(n, data);
      assert fields[m - 1] == if m - 1 < n then IntField(m) else BytesField(m);
      IntDefault(m, DefaultsUpTo(fields, m - 1, dest)[m - 1]);
      BytesDefault(m, DefaultsUpTo(fields, m - 1, dest)[m - 1]);
      hide WellFormed, SlotOf, SlotCount, DefaultSlot, IntField, BytesField, ArgumentFields;
    }
  }

  lemma IntDefault(tag: nat, was: Slot)
    ensures DefaultSlot(IntField(tag), was) == One(false, Int(0))
  {
  }

  lemma BytesDefault(tag: nat, was: Slot)
    ensures DefaultSlot(BytesField(tag), was) == was
  {
  }

  /** The arguments as the encoder takes them: the shape and ranges of a layout. */
  ghost predicate Shaped(args: Args, n: nat, data: bool) {
    n <= 4 && |args.ints| == n && (args.data.Some? <==> data) && forall i :: 0 <= i < n ==> SignedFits(args.ints[i], 4)
  }

  lemma ArgumentAt(args: Args, n: nat, data: bool, dest: seq<Slot>, i: nat)
    requires Shaped(args, n, data) && Ready(n, data, dest) && i < |dest|
    ensures var fields, msg := ArgumentFields(n, data), ArgSlots(args);
            && |msg| == |fields| == |dest| == SlotCount(fields)
            && CanonicalField(fields, i, msg, Defaults(fields, dest))
            && DecodableSlot(fields[i], msg[i]) && Written(fields[i], msg[i])
  {
    var fields, msg := ArgumentFields(n, data), ArgSlots(args);
    ArgumentFieldsFit(n, data);
    DefaultsOfArguments(n, data, dest, |dest|, i);
    hide DefaultsUpTo, SlotOf, WellFormed, SlotCount;
    assert fields[i] == if i < n then IntField(i + 1) else BytesField(i + 1);
    if i < n {
      IntArgument(i + 1, args.ints[i]);
    } else {
      BytesArgument(i + 1, args.data, dest[i]);
    }
  }

  lemma IntArgument(tag: nat, v: int)
    requires SignedFits(v, 4)
    ensures CanonicalSlot(IntField(tag), One(false, Int(v)), One(false, Int(0)))
    ensures DecodableSlot(IntField(tag), One(false, Int(v))) && Written(IntField(tag), One(false, Int(v)))
  {
  }

  lemma BytesArgument(tag: nat, data: Option<seq<byte>>, dest: Slot)
    requires data.Some? && dest.Hook? && dest.bundle.Some?
    ensures CanonicalSlot(BytesField(tag), Hook(data), dest)
    ensures DecodableSlot(BytesField(tag), Hook(data)) && Written(BytesField(tag), Hook(data))
  {
  }

  /** Int32 arguments and bound bytes decode, and carry no absent parts. */
  lemma ArgumentsAreCanonical(args: Args, n: nat, data: bool, dest: seq<Slot>)
    requires Shaped(args, n, data) && Ready(n, data, dest)
    ensures var fields, msg := ArgumentFields(n, data), ArgSlots(args);
            && |msg| == |dest| == SlotCount(fields) && WellFormed(fields)
            && Canonical(fields, msg, Defaults(fields, dest)) && Decodable(fields, 0, msg)
  {
    hide CanonicalField, DecodableSlot, Written, WellFormedField, DefaultsUpTo, Selected;
    var fields, msg := ArgumentFields(n, data), ArgSlots(args);
    ArgumentFieldsFit(n, data);
    forall i | 0 <= i < |fields|
      ensures CanonicalField(fields, i, msg, Defaults(fields, dest))
      ensures DecodableSlot(fields[i], msg[i]) && Written(fields[i], msg[i])
    {
      ArgumentAt(args, n, data, dest, i);
    }
    AllDecodable(fields, msg, 0);
  }

  lemma {:induction false} AllDecodable(fields: seq<Field>, msg: seq<Slot>, from: nat)
    requires |msg| == |fields| == SlotCount(fields) && from <= |fields|
    requires forall i :: 0 <= i < |fields| ==> SlotOf(fields, i) == i
    requires forall i :: 0 <= i < |fields| ==> DecodableSlot(fields[i], msg[i]) && Written(fields[i], msg[i])
    ensures Decodable(fields, from, msg)
    decreases |fields| - from
  {
    if from < |fields| { AllDecodable(fields, msg, from + 1); }
  }

  lemma {:induction false} AllEncodable(fields: seq<Field>, msg: seq<Slot>, n: nat)
    requires |msg| == |fields| == SlotCount(fields) && n <= |fields|
    requires forall i :: 0 <= i < |fields| ==> SlotOf(fields, i) == i
    requires forall i :: 0 <= i < |fields| ==> EncodeField(fields[i], msg[i]).Some?
    ensures EncodeUpTo(fields, n, msg).Some?
  {
    if n > 0 { AllEncodable(fields, msg, n - 1); }
  }

  /** The arguments always encode, unless the bytes exceed a size_t. */
  lemma ArgumentsEncode(args: Args, n: nat, data: bool)
    requires Shaped(args, n, data) && (data ==> |args.data.value| < U32)
    ensures |ArgSlots(args)| == SlotCount(ArgumentFields(n, data))
    ensures Encode(ArgumentFields(n, data), ArgSlots(args)).Some?
  {
    var fields, msg := ArgumentFields(n, data), ArgSlots(args);
    ArgumentFieldsFit(n, data);
    forall i | 0 <= i < |fields| ensures EncodeField(fields[i], msg[i]).Some? {
      assert fields[i] == if i < n then IntField(i + 1) else BytesField(i + 1);
      assert msg[i] == if i < n then One(false, Int(args.ints[i])) else Hook(args.data);
    }
    AllEncodable(fields, msg, |fields|);
  }

  // ---- The header

  lemma HeaderFieldsFit()
    ensures WellFormed(HEADER_FIELDS) && SlotCount(HEADER_FIELDS) == 2
    ensures SlotOf(HEADER_FIELDS, 0) == 0 && SlotOf(HEADER_FIELDS, 1) == 1
  {
    SlotPerField(HEADER_FIELDS);
    OwnSlots(HEADER_FIELDS, 1);
    assert WellFormedField(HEADER_FIELDS[0]) && WellFormedField(HEADER_FIELDS[1]);
  }

  /** A method name that strncpy terminates inside the header's buffer. */
  predicate MethodName(name: seq<byte>) { 0 !in name && |name| < MAX_IPC_METHOD_NAME_LENGTH }

  function HeaderBytes(name: seq<byte>, index: nat): seq<byte> {
    FieldTag(HEADER_FIELDS[0]) + Delimited(name) + (FieldTag(HEADER_FIELDS[1]) + VarintBytes(index))
  }

  lemma HeaderEncodes(name: seq<byte>, index: nat)
    requires MethodName(name) && index < PB_MAX
    ensures SlotCount(HEADER_FIELDS) == 2
    ensures Encode(HEADER_FIELDS, HeaderSlots(name, index)) == Some(HeaderBytes(name, index))
    ensures |HeaderBytes(name, index)| == |name| + 4
  {
    HeaderFieldsFit();
    var msg := HeaderSlots(name, index);
    var e0 := EncodeField(HEADER_FIELDS[0], msg[0]);
    var e1 := EncodeField(HEADER_FIELDS[1], msg[1]);
    assert e0 == Some(FieldTag(HEADER_FIELDS[0]) + Delimited(name));
    assert e1 == Some(FieldTag(HEADER_FIELDS[1]) + VarintBytes(index));
    assert EncodeUpTo(HEADER_FIELDS, 0, msg) == Some([]);
    assert EncodeUpTo(HEADER_FIELDS, 1, msg) == Some([] + e0.value);
    assert [] + e0.value == e0.value;
  }

  lemma HeaderIsCanonical(name: seq<byte>, index: nat)
    requires MethodName(name) && index < PB_MAX
    ensures SlotCount(HEADER_FIELDS) == 2
    ensures var msg := HeaderSlots(name, index);
            && Canonical(HEADER_FIELDS, msg, Defaults(HEADER_FIELDS, ZeroMemory(HEADER_FIELDS)))
            && Decodable(HEADER_FIELDS, 0, msg)
  {
    HeaderFieldsFit();
    var msg := HeaderSlots(name, index);
    HeaderDefaults();
    var base := Defaults(HEADER_FIELDS, ZeroMemory(HEADER_FIELDS));
    assert CanonicalSlot(HEADER_FIELDS[0], msg[0], base[0]);
    assert CanonicalSlot(HEADER_FIELDS[1], msg[1], base[1]);
    assert CanonicalField(HEADER_FIELDS, 0, msg, base) && CanonicalField(HEADER_FIELDS, 1, msg, base);
    AllDecodable(HEADER_FIELDS, msg, 0);
  }

  lemma HeaderDefaults()
    ensures Defaults(HEADER_FIELDS, ZeroMemory(HEADER_FIELDS)) == [One(false, Text([])), One(false, Int(0))]
  {
    HeaderFieldsFit();
    var zero := ZeroMemory(HEADER_FIELDS);
    assert DefaultsUpTo(HEADER_FIELDS, 0, zero) == zero;
    assert DefaultSlot(HEADER_FIELDS[0], zero[0]) == One(false, Text([]));
    var first := DefaultsUpTo(HEADER_FIELDS, 1, zero);
    assert first == zero[0 := One(false, Text([]))];
    assert DefaultSlot(HEADER_FIELDS[1], first[1]) == One(false, Int(0));
    assert DefaultsUpTo(HEADER_FIELDS, 2, zero) == first[1 := One(false, Int(0))];
  }

  // ---- The payload

  function ArgumentBytes(index: nat, args: Args): Option<seq<byte>> {
    match Layout(index)
    case None => Some([])
    case Some((n, data)) =>
      if |ArgSlots(args)| != SlotCount(ArgumentFields(n, data)) then None
      else Encode(ArgumentFields(n, data), ArgSlots(args))
  }

  /** The payload of a call: header, then arguments if the layout has any. */
  function Payload(name: seq<byte>, index: nat, args: Args): seq<byte>
    requires ArgumentBytes(index, args).Some?
  {
    Delimited(HeaderBytes(name, index))
    + (if Layout(index).Some? then Delimited(ArgumentBytes(index, args).value) else [])
  }

  /** The bytes of the arguments, and of a header around them, fit a size_t. */
  ghost predicate Sized(index: nat, args: Args) {
    && (args.data.Some? ==> |args.data.value| < U32)
    && (ArgumentBytes(index, args).Some? ==> |ArgumentBytes(index, args).value| + 64 < U32)
  }

  lemma ArgumentBytesExist(index: nat, args: Args)
    requires Fits(args, index) && Sized(index, args)
    ensures ArgumentBytes(index, args).Some?
  {
    var layout := Layout(index);
    if layout.Some? {
      ArgumentsEncode(args, layout.value.0, layout.value.1);
    }
  }

  /** Integers and bytes taken out of a decoded struct. */
  function ReadArgs(n: nat, data: bool, slots: seq<Slot>): Args
    requires |slots| == n + (if data then 1 else 0)
  {
    Args(seq(n, i requires 0 <= i < n => var v := ValueOf(slots[i]); if v.Int? then v.i else 0),
         if data && slots[n].Hook? then slots[n].bundle else None)
  }

  /** The struct a parser decodes into: the callback bound to an empty bundle. */
  function ParserSlots(n: nat, data: bool): seq<Slot> {
    seq(n, _ => Hook(None)) + (if data then [Hook(Some([]))] else [])
  }

  /** What the service makes of a payload: the layout index and the arguments, or nothing. */
  function Parse(memory: seq<byte>): Option<(nat, Args)> {
    if SlotCount(HEADER_FIELDS) != 2 then None
    else match DecodeDelimited(HEADER_FIELDS, memory, ZeroMemory(HEADER_FIELDS))
      case Fail => None
      case Ok(header, rest) =>
        var v := ValueOf(header[1]);
        var index := if v.Int? then v.i % 0x1_0000 else 0;
        match Layout(index)
        case None => if index == PB_0 then Some((index, Args([], None))) else None
        case Some((n, data)) =>
          var fields := ArgumentFields(n, data);
          if SlotCount(fields) != |ParserSlots(n, data)| then None
          else match DecodeDelimited(fields, rest, ParserSlots(n, data))
            case Fail => None
            case Ok(slots, _) => Some((index, ReadArgs(n, data, slots)))
  }

  lemma DelimitedRoundTrip(fields: seq<Field>, msg: seq<Slot>, dest: seq<Slot>, rest: seq<byte>)
    requires WellFormed(fields) && |msg| == |dest| == SlotCount(fields)
    requires Encode(fields, msg).Some? && |Encode(fields, msg).value| < U32
    requires Decodable(fields, 0, msg) && Canonical(fields, msg, Defaults(fields, dest))
    ensures DecodeDelimited(fields, Delimited(Encode(fields, msg).value) + rest, dest) == Ok(msg, rest)
  {
    DelimitedInverts(Encode(fields, msg).value, rest);
    RoundTripIdentity(fields, msg, dest);
  }

  lemma HeaderRoundTrip(name: seq<byte>, index: nat, rest: seq<byte>)
    requires MethodName(name) && index < PB_MAX
    ensures SlotCount(HEADER_FIELDS) == 2
    ensures DecodeDelimited(HEADER_FIELDS, Delimited(HeaderBytes(name, index)) + rest, ZeroMemory(HEADER_FIELDS))
            == Ok(HeaderSlots(name, index), rest)
  {
    HeaderFieldsFit();
    HeaderEncodes(name, index);
    HeaderIsCanonical(name, index);
    DelimitedRoundTrip(HEADER_FIELDS, HeaderSlots(name, index), ZeroMemory(HEADER_FIELDS), rest);
  }

  lemma ArgumentsRoundTrip(args: Args, n: nat, data: bool, rest: seq<byte>)
    requires Shaped(args, n, data) && (data ==> |args.data.value| < U32)
    requires |ArgSlots(args)| == SlotCount(ArgumentFields(n, data))
    requires var e := Encode(ArgumentFields(n, data), ArgSlots(args)); e.Some? && |e.value| < U32
    ensures |ParserSlots(n, data)| == SlotCount(ArgumentFields(n, data))
    ensures DecodeDelimited(ArgumentFields(n, data),
                            Delimited(Encode(ArgumentFields(n, data), ArgSlots(args)).value) + rest,
                            ParserSlots(n, data)) == Ok(ArgSlots(args), rest)
    ensures ReadArgs(n, data, ArgSlots(args)) == args
  {
    ArgumentFieldsFit(n, data);
    ArgumentsAreCanonical(args, n, data, ParserSlots(n, data));
    DelimitedRoundTrip(ArgumentFields(n, data), ArgSlots(args), ParserSlots(n, data), rest);
    assert ReadArgs(n, data, ArgSlots(args)).ints == args.ints;
  }

  /**
   * The framing round trip: whatever lies behind the payload in memory, the service gets the same
   * layout index, integers and bytes that the caller serialised.
   */
  lemma FramingRoundTrip(name: seq<byte>, index: nat, args: Args, tail: seq<byte>)
    requires MethodName(name) && Fits(args, index) && Sized(index, args) && ArgumentBytes(index, args).Some?
    ensures Parse(Payload(name, index, args) + tail) == Some((index, args))
  {
    hide Decoding.DecodeDelimited, SlotOf, HeaderBytes, Delimited;
    var header := Delimited(HeaderBytes(name, index));
    var layout := Layout(index);
    if layout.None? {
      assert Payload(name, index, args) + tail == header + tail;
      HeaderRoundTrip(name, index, tail);
    } else {
      var n, data := layout.value.0, layout.value.1;
      var body := Delimited(ArgumentBytes(index, args).value);
      assert Payload(name, index, args) + tail == header + (body + tail);
      HeaderRoundTrip(name, index, body + tail);
      ArgumentsRoundTrip(args, n, data, tail);
    }
  }

  // ---- The two ends as they run

  /** A varint below 2^28 takes at most four bytes; any size_t takes at most five. */
  lemma PrefixLength(n: nat)
    requires n < U32
    ensures |VarintBytes(n)| <= 5 && (n < 128 ==> |VarintBytes(n)| == 1)
  {
    Pow2Values();
    VarintLength(n, 5);
  }

  /**
   * The serialiser: sizes first, a buffer with four spare bytes for each length prefix, then both parts
   * into it. The buffer always suffices.
   */
  method SerializeIpc(name: seq<byte>, index: nat, args: Args) returns (buffer: array<byte>, used: nat)
    requires MethodName(name) && Fits(args, index) && Sized(index, args)
    ensures fresh(buffer) && used <= buffer.Length < U32
    ensures ArgumentBytes(index, args).Some? && buffer[..used] == Payload(name, index, args)
  {
    hide SlotOf, EncodeUpTo, WellFormedField, VarintBytes, HeaderBytes;
    ArgumentBytesExist(index, args);
    HeaderFieldsFit();
    HeaderEncodes(name, index);
    var header := HeaderSlots(name, index);
    var layout := Layout(index);
    var ok, headerSize := GetEncodedSize(HEADER_FIELDS, header);
    var dataSize := 0;
    if layout.Some? {
      ArgumentFieldsFit(layout.value.0, layout.value.1);
      ArgumentsEncode(args, layout.value.0, layout.value.1);
      ok, dataSize := GetEncodedSize(ArgumentFields(layout.value.0, layout.value.1), ArgSlots(args));
    }
    var bufferSize := headerSize + 4 + (if dataSize != 0 then dataSize + 4 else 0);
    buffer := new byte[bufferSize](_ => 0);
    var stream := new OStream.FromBuffer(buffer, 0, bufferSize);
    PrefixLength(headerSize);
    ok := EncodeSubmessage(stream, HEADER_FIELDS, header);
    assert ok && stream.log == Delimited(HeaderBytes(name, index));
    if layout.Some? {
      PrefixLength(dataSize);
      ok := EncodeSubmessage(stream, ArgumentFields(layout.value.0, layout.value.1), ArgSlots(args));
      assert ok;
    }
    used := stream.written;
    assert buffer[..used] == stream.log;
  }

  /** The service's handler up to the call: header, then the parser the index selects. */
  method ParseIpc(memory: seq<byte>) returns (result: Option<(nat, Args)>)
    ensures result == Parse(memory)
  {
    hide Decoding.DecodeDelimited, SlotOf, WellFormedField;
    HeaderFieldsFit();
    var stream := new IStream(memory, |memory|);
    assert stream.Window() == memory;
    var ok, header := DecodeDelimitedFrom(stream, HEADER_FIELDS, ZeroMemory(HEADER_FIELDS));
    if !ok {
      return None;
    }
    var v := ValueOf(header[1]);
    var index := if v.Int? then v.i % 0x1_0000 else 0;
    var layout := Layout(index);
    if layout.None? {
      return if index == PB_0 then Some((index, Args([], None))) else None;
    }
    var n, data := layout.value.0, layout.value.1;
    ArgumentFieldsFit(n, data);
    var slots;
    ok, slots := DecodeDelimitedFrom(stream, ArgumentFields(n, data), ParserSlots(n, data));
    if !ok {
      return None;
    }
    return Some((index, ReadArgs(n, data, slots)));
  }
}
