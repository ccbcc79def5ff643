/** Payloads as a peer that knows only the published wire format and the protocol file reads them. */
module FramingWire {
  import opened Bits
  import opened Options
  import opened Schema
  import opened Varint
  import opened Encoding
  import opened Presence
  import opened Wire
  import opened WireProofs
  import opened Framing

  /** The argument messages of the protocol file: how many int32 fields, and whether a bytes field follows. */
  predicate Carries(index: nat, ints: nat, data: bool) {
    match index
    case 1 => ints == 1 && !data
    case 2 => ints == 0 && data
    case 3 => ints == 1 && data
    case 4 => ints == 2 && data
    case 6 => ints == 3 && !data
    case 7 => ints == 4 && !data
    case 8 => ints == 3 && data
    case _ => false
  }

  /** Fields 1, 2, ... hold the integers as sign-extended varints; the bytes come after them. */
  function ArgumentRecords(args: Args): (rs: seq<Rec>)
    requires forall i :: 0 <= i < |args.ints| ==> -0x8000_0000 <= args.ints[i] < 0x8000_0000
  {
    seq(|args.ints|, i requires 0 <= i < |args.ints| =>
      Rec(i + 1, 0, Num(if args.ints[i] < 0 then args.ints[i] + 0x1_0000_0000_0000_0000 else args.ints[i])))
    + (if args.data.Some? then [Rec(|args.ints| + 1, 2, Bytes(args.data.value))] else [])
  }

  lemma IntReads(tag: nat, i: int)
    requires SignedFits(i, 4)
    ensures EncodeField(IntField(tag), One(false, Int(i))).Some?
    ensures ReadAll(EncodeField(IntField(tag), One(false, Int(i))).value)
            == Some([Rec(tag, 0, Num(if i < 0 then i + 0x1_0000_0000_0000_0000 else i))])
  {
    hide ReadAll, FieldTag;
    var f := IntField(tag);
    assert EncodeField(f, One(false, Int(i))) == EncodeTagged(f, Int(i));
    assert EncodeValue(f, Int(i)) == EncodeScalar(f, Int(i));
    var r := NumberMeans(f, Int(i));
  }

  lemma DataReads(tag: nat, b: seq<byte>)
    requires |b| < U32
    ensures EncodeField(BytesField(tag), Hook(Some(b))).Some?
    ensures ReadAll(EncodeField(BytesField(tag), Hook(Some(b))).value) == Some([Rec(tag, 2, Bytes(b))])
  {
    hide ReadAll, FieldTag, Delimited;
    BytesMean(BytesField(tag), b);
  }

  lemma ArgumentReads(args: Args, n: nat, data: bool, i: nat)
    requires Shaped(args, n, data) && (data ==> |args.data.value| < U32) && i < |ArgumentFields(n, data)|
    ensures |ArgSlots(args)| == |ArgumentRecords(args)| == |ArgumentFields(n, data)|
    ensures var e := EncodeField(ArgumentFields(n, data)[i], ArgSlots(args)[i]);
            e.Some? && ReadAll(e.value) == Some([ArgumentRecords(args)[i]])
  {
    hide EncodeField, ReadAll, IntField, BytesField;
    var f := ArgumentFields(n, data)[i];
    if i < n {
      assert f == IntField(i + 1);
      IntReads(i + 1, args.ints[i]);
    } else {
      assert f == BytesField(i + 1);
      DataReads(i + 1, args.data.value);
    }
  }

  lemma ArgumentCounts(args: Args, n: nat, data: bool)
    requires Shaped(args, n, data)
    ensures |ArgSlots(args)| == SlotCount(ArgumentFields(n, data)) == |ArgumentRecords(args)| == |ArgumentFields(n, data)|
    ensures forall i :: 0 <= i < |ArgumentFields(n, data)| ==> SlotOf(ArgumentFields(n, data), i) == i
  {
    ArgumentFieldsFit(n, data);
  }

  lemma {:induction false} ArgumentsRead(args: Args, n: nat, data: bool, m: nat)
    requires Shaped(args, n, data) && (data ==> |args.data.value| < U32) && m <= |ArgumentFields(n, data)|
    ensures |ArgSlots(args)| == SlotCount(ArgumentFields(n, data)) == |ArgumentRecords(args)| == |ArgumentFields(n, data)|
    ensures var e := EncodeUpTo(ArgumentFields(n, data), m, ArgSlots(args));
            e.Some? && ReadAll(e.value) == Some(ArgumentRecords(args)[..m])
    decreases m
  {
    hide ReadAll, SlotOf, SlotCount, ArgumentFields, ArgSlots, ArgumentRecords, EncodeField;
    var fields, msg, rs := ArgumentFields(n, data), ArgSlots(args), ArgumentRecords(args);
    ArgumentCounts(args, n, data);
    if m == 0 {
      EmptyReads();
      assert rs[..0] == [];
    } else {
      ArgumentsRead(args, n, data, m - 1);
      ArgumentReads(args, n, data, m - 1);
      ReadAllConcat(EncodeUpTo(fields, m - 1, msg).value, EncodeField(fields[m - 1], msg[m - 1]).value);
      assert rs[..m] == rs[..m - 1] + [rs[m - 1]];
    }
  }

  lemma HeaderReads(name: seq<byte>, index: nat)
    requires MethodName(name) && index < PB_MAX
    ensures ReadAll(HeaderBytes(name, index)) == Some([Rec(1, 2, Bytes(name)), Rec(2, 0, Num(index))])
  {
    hide ReadAll, FieldTag, Delimited, VarintBytes;
    BytesMean(HEADER_FIELDS[0], name);
    assert EncodeScalar(HEADER_FIELDS[1], Int(index)) == Some(VarintBytes(index));
    var r := NumberMeans(HEADER_FIELDS[1], Int(index));
    ReadAllConcat(FieldTag(HEADER_FIELDS[0]) + Delimited(name), FieldTag(HEADER_FIELDS[1]) + VarintBytes(index));
    assert r == Rec(2, 0, Num(index));
    assert [Rec(1, 2, Bytes(name))] + [r] == [Rec(1, 2, Bytes(name)), r];
  }

  lemma BodyReads(index: nat, args: Args)
    requires Fits(args, index) && Sized(index, args) && Layout(index).Some? && ArgumentBytes(index, args).Some?
    ensures ReadAll(ArgumentBytes(index, args).value) == Some(ArgumentRecords(args))
  {
    hide ReadAll, SlotOf, SlotCount, ArgumentRecords, ArgSlots, EncodeUpTo;
    var n, data := Layout(index).value.0, Layout(index).value.1;
    hide ArgumentFields;
    ArgumentsRead(args, n, data, |ArgumentFields(n, data)|);
    assert ArgumentRecords(args)[..|ArgumentFields(n, data)|] == ArgumentRecords(args);
  }

  /**
   * A payload is a length and the header (name in field 1, layout index in field 2), then, unless the layout is
   * 0, a length and the arguments in their fields; nothing else.
   */
  lemma PayloadIsPublished(name: seq<byte>, index: nat, args: Args)
    requires MethodName(name) && Fits(args, index) && Sized(index, args) && ArgumentBytes(index, args).Some?
    ensures index == 0 || Carries(index, |args.ints|, args.data.Some?)
    ensures var header := ReadItem(2, Payload(name, index, args));
            && header.Ok? && ReadAll(header.v.b) == Some([Rec(1, 2, Bytes(name)), Rec(2, 0, Num(index))])
            && if index == 0 then header.rest == [] && args == Args([], None)
               else
                 var body := ReadItem(2, header.rest);
                 body.Ok? && body.rest == [] && ReadAll(body.v.b) == Some(ArgumentRecords(args))
  {
    hide ReadAll, ReadItem, HeaderBytes, Delimited, SlotOf, ArgumentRecords, ArgumentBytes;
    var head := HeaderBytes(name, index);
    HeaderReads(name, index);
    if index == 0 {
      BytesRead(head, []);
    } else {
      var body := ArgumentBytes(index, args).value;
      BodyReads(index, args);
      BytesRead(head, Delimited(body));
      BytesRead(body, []);
      assert Delimited(body) + [] == Delimited(body);
    }
  }

  // ---- Literal payloads

  lemma IntBytes(tag: nat, i: nat)
    requires 1 <= tag < 16 && i < 128
    ensures EncodeField(IntField(tag), One(false, Int(i))) == Some([8 * tag, i])
  {
    var f := IntField(tag);
    assert FieldTag(f) == [8 * tag];
    assert EncodeScalar(f, Int(i)) == Some([i]);
    assert EncodeField(f, One(false, Int(i))) == EncodeTagged(f, Int(i)) == Some([8 * tag] + [i]);
    assert [8 * tag] + [i] == [8 * tag, i];
  }

  lemma DataBytes(tag: nat, b: seq<byte>)
    requires 1 <= tag < 15 && |b| < 128
    ensures EncodeField(BytesField(tag), Hook(Some(b))) == Some([8 * tag + 2, |b|] + b)
  {
    assert FieldTag(BytesField(tag)) == [8 * tag + 2];
    assert [8 * tag + 2] + ([|b|] + b) == [8 * tag + 2, |b|] + b;
  }

  /** The header of a short name, with every byte: key, length, name, key, index. */
  lemma HeaderLiteral(name: seq<byte>, index: nat)
    requires |name| < 31 && index < PB_MAX
    ensures Delimited(HeaderBytes(name, index)) == [|name| + 4, 0x0A, |name|] + name + [0x10, index]
  {
    assert FieldTag(HEADER_FIELDS[0]) == [10] && FieldTag(HEADER_FIELDS[1]) == [16];
    assert HeaderBytes(name, index) == [10, |name|] + name + [16, index];
    assert [|name| + 4] + ([10, |name|] + name + [16, index]) == [|name| + 4, 10, |name|] + name + [16, index];
  }

  /** The call a(5) in the layout of one integer. */
  lemma OneIntegerPayload()
    ensures ArgumentBytes(PB_1, Args([5], None)).Some?
    ensures Payload([97], PB_1, Args([5], None)) == [0x05, 0x0A, 0x01, 0x61, 0x10, 0x01, 0x02, 0x08, 0x05]
  {
    hide SlotOf, SlotCount, HeaderBytes, EncodeField;
    var args := Args([5], None);
    var fields, msg := ArgumentFields(1, false), ArgSlots(args);
    ArgumentFieldsFit(1, false);
    assert fields == [IntField(1)] && msg == [One(false, Int(5))];
    IntBytes(1, 5);
    assert EncodeUpTo(fields, 0, msg) == Some([]);
    assert EncodeUpTo(fields, 1, msg) == Some([] + [8, 5]);
    HeaderLiteral([97], 1);
    assert Delimited([8, 5]) == [2, 8, 5];
  }

  lemma IntegerAndBytes()
    ensures SlotCount(ArgumentFields(1, true)) == |ArgSlots(Args([5], Some([120, 121])))|
    ensures Encode(ArgumentFields(1, true), ArgSlots(Args([5], Some([120, 121])))) == Some([8, 5, 18, 2, 120, 121])
  {
    hide SlotOf, SlotCount, EncodeField, Delimited;
    var fields, msg := ArgumentFields(1, true), ArgSlots(Args([5], Some([120, 121])));
    ArgumentFieldsFit(1, true);
    assert fields == [IntField(1), BytesField(2)] && msg == [One(false, Int(5)), Hook(Some([120, 121]))];
    IntBytes(1, 5);
    DataBytes(2, [120, 121]);
    hide IntField, BytesField;
    assert EncodeUpTo(fields, 1, msg) == Some([] + [8, 5]) by { assert EncodeUpTo(fields, 0, msg) == Some([]); }
    assert EncodeUpTo(fields, 2, msg) == Some([] + [8, 5] + ([18, 2] + [120, 121]));
    assert [] + [8, 5] + ([18, 2] + [120, 121]) == [8, 5, 18, 2, 120, 121];
  }

  /** The call a(5, "xy") in the layout of one integer and bytes. */
  lemma IntegerAndBytesPayload()
    ensures ArgumentBytes(PB_12, Args([5], Some([120, 121]))).Some?
    ensures Payload([97], PB_12, Args([5], Some([120, 121])))
            == [0x05, 0x0A, 0x01, 0x61, 0x10, 0x03, 0x06, 0x08, 0x05, 0x12, 0x02, 0x78, 0x79]
  {
    hide SlotOf, SlotCount, HeaderBytes, Encode;
    IntegerAndBytes();
    HeaderLiteral([97], 3);
    assert Delimited([8, 5, 18, 2, 120, 121]) == [6, 8, 5, 18, 2, 120, 121];
  }
}
