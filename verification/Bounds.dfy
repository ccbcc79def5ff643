/** What the decoder leaves in a struct fits the struct, whatever bytes it is given. */
module Bounds {
  import opened Bits
  import opened Options
  import opened Schema
  import opened Varint
  import opened Encoding
  import opened Decoding
  import opened Canon

  /** A value fits the memory of one item: integers their width, bytes and text their buffer. */
  ghost predicate FitsValue(f: Field, v: Value)
    decreases f, 0
  {
    match f.ltype
    case LVarint => v.Int? && SignedFits(v.i, f.dataSize)
    case LUvarint => v.Int? && UnsignedFits(v.i, f.dataSize)
    case LSvarint => v.Int? && SignedFits(v.i, f.dataSize)
    case LFixed32 => v.Int? && 0 <= v.i < U32
    case LFixed64 => v.Int? && 0 <= v.i < U64
    case LBytes => v.Blob? && |v.b| + 1 <= f.dataSize
    case LString => v.Text? && 0 !in v.s && |v.s| + 1 <= f.dataSize
    case LFixedBytes => v.Blob? && |v.b| == f.dataSize
    case LSubmessage(sub) => v.Msg? && |v.slots| == SlotCount(sub) && FitsMessage(sub, v.slots)
  }

  /** A slot fits: arrays stay within their capacity, and the selected member of a union fits. */
  ghost predicate FitsSlot(f: Field, s: Slot)
    decreases f, 1
  {
    f.atype.Static? ==>
      match f.htype
      case Repeated => |ItemsOf(s)| <= f.arraySize && forall j :: 0 <= j < |ItemsOf(s)| ==> FitsValue(f, ItemsOf(s)[j])
      case Oneof => s.Union? && s.which == f.tag ==> FitsValue(f, s.u)
      case _ => s.One? && FitsValue(f, s.v)
  }

  ghost predicate FitsAt(fields: seq<Field>, slots: seq<Slot>, i: nat)
    requires |slots| == SlotCount(fields) && i < |fields|
    decreases fields, 0
  {
    SlotInRange(fields, i, i);
    FitsSlot(fields[i], slots[SlotOf(fields, i)])
  }

  ghost predicate FitsMessage(fields: seq<Field>, slots: seq<Slot>)
    requires |slots| == SlotCount(fields)
    decreases fields, 1
  {
    forall i :: 0 <= i < |fields| ==> FitsAt(fields, slots, i)
  }

  /** A descriptor whose declared defaults, and zeros where there is none, fit their fields. */
  ghost predicate SoundField(f: Field)
    decreases f
  {
    if f.ltype.LSubmessage? then SoundFields(f.ltype.fields)
    else f.atype.Static? ==> FitsValue(f, if f.dflt.Some? then f.dflt.value else ZeroValue(f))
  }

  ghost predicate SoundFields(fields: seq<Field>)
    decreases fields
  {
    WellFormed(fields) && forall i :: 0 <= i < |fields| ==> SoundField(fields[i])
  }

  // ---- Initialising

  lemma {:induction false} DefaultFits(f: Field, was: Slot)
    requires WellFormedField(f) && SoundField(f)
    ensures FitsSlot(f, DefaultSlot(f, was))
    decreases f, 1
  {
    if f.atype.Static? && (f.htype.Required? || f.htype.Optional?) {
      if f.ltype.LSubmessage? { DefaultsFit(f.ltype.fields, Inner(ValueOf(was), f.ltype.fields)); }
    } else if f.htype.Oneof? {
      assert DefaultSlot(f, was) == Union(0, Int(0));
    }
  }

  /** Writing the slot of field n, so that n fits, keeps every other field that fitted. */
  lemma StoreFits(fields: seq<Field>, slots: seq<Slot>, n: nat, s: Slot, i: nat)
    requires WellFormed(fields) && |slots| == SlotCount(fields) && n < |fields| && i < |fields|
    requires SlotOf(fields, n) < |slots| && FitsSlot(fields[n], s)
    requires i != n ==> FitsAt(fields, slots, i)
    requires fields[n].htype.Oneof? && fields[n].atype.Static? ==> s.Union? && (s.which == 0 || s.which == fields[n].tag)
    ensures FitsAt(fields, slots[SlotOf(fields, n) := s], i)
  {
    SlotInRange(fields, i, i);
    assert WellFormedField(fields[i]) && WellFormedField(fields[n]);
    if i != n && SlotOf(fields, i) == SlotOf(fields, n) {
      SharedSlotIsOneof(fields, if i < n then i else n, if i < n then n else i);
      assert fields[i].tag != fields[n].tag;
    }
  }

  lemma {:induction false} DefaultsUpToFit(fields: seq<Field>, n: nat, was: seq<Slot>, i: nat)
    requires SoundFields(fields) && n <= |fields| && |was| == SlotCount(fields) && i < n
    ensures FitsAt(fields, DefaultsUpTo(fields, n, was), i)
    decreases fields, 0, n
  {
    hide FitsSlot, FitsAt, WellFormedField, SoundField, DefaultSlot;
    var done := DefaultsUpTo(fields, n - 1, was);
    SlotInRange(fields, n - 1, n - 1);
    var k := SlotOf(fields, n - 1);
    assert WellFormedField(fields[n - 1]) && SoundField(fields[n - 1]);
    DefaultFits(fields[n - 1], done[k]);
    UnionDefault(fields[n - 1], done[k]);
    if i < n - 1 { DefaultsUpToFit(fields, n - 1, was, i); }
    StoreFits(fields, done, n - 1, DefaultSlot(fields[n - 1], done[k]), i);
  }

  lemma UnionDefault(f: Field, was: Slot)
    ensures f.htype.Oneof? && f.atype.Static? ==> DefaultSlot(f, was) == Union(0, Int(0))
  {
  }

  lemma {:induction false} DefaultsFit(fields: seq<Field>, was: seq<Slot>)
    requires SoundFields(fields) && |was| == SlotCount(fields)
    ensures FitsMessage(fields, Defaults(fields, was))
    decreases fields, 1
  {
    forall i | 0 <= i < |fields| ensures FitsAt(fields, Defaults(fields, was), i) {
      DefaultsUpToFit(fields, |fields|, was, i);
    }
  }

  // ---- Reading one item

  lemma {:induction false} BelowLimit(bs: seq<byte>)
    ensures FromLittleEndian(bs) < Pow256(|bs|)
  {
    if bs != [] { BelowLimit(bs[1..]); }
  }

  lemma WordFits(bs: seq<byte>)
    ensures |bs| == 4 ==> FromLittleEndian(bs) < U32
    ensures |bs| == 8 ==> FromLittleEndian(bs) < U64
  {
    hide FromLittleEndian;
    BelowLimit(bs);
    Words();
  }

  lemma ScalarFits(f: Field, bs: seq<byte>)
    ensures DecodeScalar(f, bs).Ok? ==> FitsValue(f, DecodeScalar(f, bs).v)
  {
    hide Varint64, Varint32, UnZigZag, Signed, FromLittleEndian;
    if f.ltype.LFixed32? && |bs| >= 4 { WordFits(bs[..4]); }
    if f.ltype.LFixed64? && |bs| >= 8 { WordFits(bs[..8]); }
  }

  lemma {:induction false} PackedFits(f: Field, bs: seq<byte>, items: seq<Value>)
    requires |items| <= f.arraySize && forall j :: 0 <= j < |items| ==> FitsValue(f, items[j])
    ensures var r := DecodePacked(f, bs, items);
            r.Some? ==> |r.value| <= f.arraySize && forall j :: 0 <= j < |r.value| ==> FitsValue(f, r.value[j])
    decreases |bs|
  {
    hide FitsValue, DecodeScalar;
    if bs != [] && |items| < f.arraySize {
      ScalarFits(f, bs);
      var r := DecodeScalar(f, bs);
      if r.Ok? { PackedFits(f, r.rest, items + [r.v]); }
    }
  }

  // ---- Reading fields and messages

  lemma {:induction false} ValueFits(f: Field, bs: seq<byte>, start: Value)
    requires WellFormedField(f) && SoundField(f) && (f.ltype.LSubmessage? ==> FitsValue(f, start))
    ensures DecodeValue(f, bs, start).Ok? ==> FitsValue(f, DecodeValue(f, bs, start).v)
    decreases |bs|, 1
  {
    if f.ltype.LSubmessage? {
      var body := TakeDelimited(bs);
      if body.Ok? { NoInitFits(f.ltype.fields, body.v, Inner(start, f.ltype.fields)); }
    } else {
      ScalarFits(f, bs);
    }
  }

  lemma StartFits(f: Field, s: Slot)
    requires WellFormedField(f) && SoundField(f) && f.ltype.LSubmessage? && f.atype.Static? && FitsSlot(f, s)
    ensures FitsValue(f, StartValue(f, if f.htype.Repeated? then Int(0) else ValueOf(s)))
  {
    DefaultsFit(f.ltype.fields, ZeroMemory(f.ltype.fields));
  }

  lemma {:induction false} RepeatedFits(f: Field, wireType: nat, bs: seq<byte>, s: Slot)
    requires WellFormedField(f) && SoundField(f) && f.atype.Static? && f.htype.Repeated? && FitsSlot(f, s)
    ensures DecodeRepeated(f, wireType, bs, s).Ok? ==> FitsSlot(f, DecodeRepeated(f, wireType, bs, s).v)
    decreases |bs|, 2
  {
    hide FitsValue, DecodeScalar;
    if wireType == WT_STRING && f.ltype.Packable() {
      var body := TakeDelimited(bs);
      if body.Ok? { PackedFits(f, body.v, ItemsOf(s)); }
    } else if |ItemsOf(s)| < f.arraySize {
      if f.ltype.LSubmessage? { StartFits(f, s); }
      ValueFits(f, bs, StartValue(f, Int(0)));
    }
  }

  lemma {:induction false} FieldFits(f: Field, wireType: nat, bs: seq<byte>, s: Slot)
    requires WellFormedField(f) && SoundField(f) && FitsSlot(f, s)
    ensures var r := DecodeField(f, wireType, bs, s);
            r.Ok? ==> FitsSlot(f, r.v) && (f.htype.Oneof? && f.atype.Static? ==> r.v.Union? && r.v.which == f.tag)
    decreases |bs|, 3
  {
    hide FitsValue, DecodeRepeated, DecodeHook;
    if f.atype.Static? {
      if f.htype.Repeated? {
        RepeatedFits(f, wireType, bs, s);
      } else {
        if f.ltype.LSubmessage? { StartFits(f, s); }
        ValueFits(f, bs, StartValue(f, ValueOf(s)));
      }
    }
  }

  lemma {:induction false} KnownFits(fields: seq<Field>, n: nat, wireType: nat, bs: seq<byte>, st: State)
    requires SoundFields(fields) && n < |fields| && |st.slots| == SlotCount(fields) && FitsMessage(fields, st.slots)
    ensures Known(fields, n, wireType, bs, st).Ok? ==> FitsMessage(fields, Known(fields, n, wireType, bs, st).v.slots)
    decreases |bs|, 4
  {
    hide FitsSlot, WellFormedField, SoundField, DecodeField;
    SlotInRange(fields, n, n);
    var s := st.slots[SlotOf(fields, n)];
    assert WellFormedField(fields[n]) && SoundField(fields[n]) && FitsAt(fields, st.slots, n);
    FieldFits(fields[n], wireType, bs, s);
    var r := DecodeField(fields[n], wireType, bs, s);
    if r.Ok? {
      var slots := st.slots[SlotOf(fields, n) := r.v];
      forall i | 0 <= i < |fields| ensures FitsAt(fields, slots, i) {
        assert FitsAt(fields, st.slots, i);
        StoreFits(fields, st.slots, n, r.v, i);
      }
    }
  }

  lemma {:induction false} FieldsFit(fields: seq<Field>, bs: seq<byte>, st: State)
    requires SoundFields(fields) && |st.slots| == SlotCount(fields) && FitsMessage(fields, st.slots)
    ensures DecodeFields(fields, bs, st).Ok? ==> FitsMessage(fields, DecodeFields(fields, bs, st).v.slots)
    decreases |bs|, 6
  {
    hide FitsMessage, SoundFields, Known, SkipField, Varint32;
    if bs != [] {
      var key := Varint32(bs);
      if key.Ok? && key.v != 0 {
        var i := FindTag(fields, key.v / 8, 0);
        if i.Some? { KnownFits(fields, i.value, key.v % 8, key.rest, st); }
        var r := Record(fields, key.v, key.rest, st);
        if r.Ok? { FieldsFit(fields, r.rest, r.v); }
      }
    }
  }

  lemma {:induction false} NoInitFits(fields: seq<Field>, bs: seq<byte>, slots: seq<Slot>)
    requires SoundFields(fields) && |slots| == SlotCount(fields) && FitsMessage(fields, slots)
    ensures DecodeNoInit(fields, bs, slots).Ok? ==> FitsMessage(fields, DecodeNoInit(fields, bs, slots).v)
    decreases |bs|, 7
  {
    FieldsFit(fields, bs, State(slots, [], false));
  }

  /**
   * Whatever the bytes and whatever the memory held: a message that decodes fits its struct, at every depth.
   * No integer exceeds its width, no array its capacity, no string its buffer.
   */
  lemma DecodedFits(fields: seq<Field>, bs: seq<byte>, dest: seq<Slot>)
    requires SoundFields(fields) && |dest| == SlotCount(fields)
    ensures Decode(fields, bs, dest).Ok? ==> FitsMessage(fields, Decode(fields, bs, dest).v)
  {
    DefaultsFit(fields, dest);
    NoInitFits(fields, bs, Defaults(fields, dest));
  }
}
