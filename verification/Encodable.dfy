/** Exactly which messages the encoder accepts. */
module Encodable {
  import opened Bits
  import opened Options
  import opened Schema
  import opened Varint
  import opened Encoding
  import opened Presence
  import opened Bounds

  /** A value the encoder takes: one that fits its field, except that text may fill its buffer without a terminator. */
  ghost predicate Takes(f: Field, v: Value)
    decreases f, 0
  {
    match f.ltype
    case LString => v.Text? && 0 !in v.s && |v.s| <= f.dataSize
    case LFixed32 => v.Int? && 0 <= v.i < 0x1_0000_0000
    case LFixed64 => v.Int? && 0 <= v.i < 0x1_0000_0000_0000_0000
    case LSubmessage(sub) =>
      v.Msg? && |v.slots| == SlotCount(sub) && TakesMessage(sub, v.slots) && |Body(sub, v.slots)| < 0x1_0000_0000
    case _ => FitsValue(f, v)
  }

  /** What the encoder writes for a submessage, if it writes something. */
  ghost function Body(fields: seq<Field>, slots: seq<Slot>): seq<byte>
    requires |slots| == SlotCount(fields)
  {
    var e := Encode(fields, slots);
    if e.Some? then e.value else []
  }

  /** A slot: of the right kind, and what is there is taken; an array within its capacity. */
  ghost predicate TakesSlot(f: Field, s: Slot)
    decreases f, 1
  {
    if f.atype.Callback? then s.Hook? && (s.bundle.Some? ==> |s.bundle.value| < 0x1_0000_0000)
    else match f.htype
      case Repeated => s.Many? && |s.items| <= f.arraySize && forall j :: 0 <= j < |s.items| ==> Takes(f, s.items[j])
      case Oneof => s.Union? && (s.which == f.tag ==> Takes(f, s.u))
      case _ => s.One? && (Says(f, s) ==> Takes(f, s.v))
  }

  ghost predicate TakesAt(fields: seq<Field>, slots: seq<Slot>, i: nat)
    requires |slots| == SlotCount(fields) && i < |fields|
    decreases fields, 0
  {
    SlotInRange(fields, i, i);
    TakesSlot(fields[i], slots[SlotOf(fields, i)])
  }

  ghost predicate TakesMessage(fields: seq<Field>, slots: seq<Slot>)
    requires |slots| == SlotCount(fields)
    decreases fields, 1
  {
    forall i :: 0 <= i < |fields| ==> TakesAt(fields, slots, i)
  }

  lemma ScalarTaken(f: Field, v: Value)
    requires !f.ltype.LSubmessage?
    ensures EncodeScalar(f, v).Some? <==> Takes(f, v)
  {
  }

  lemma {:induction false} ValueTaken(f: Field, v: Value)
    requires WellFormedField(f)
    ensures EncodeValue(f, v).Some? <==> Takes(f, v)
    decreases f, 0
  {
    if f.ltype.LSubmessage? {
      var sub := f.ltype.fields;
      if v.Msg? && |v.slots| == SlotCount(sub) { MessageTaken(sub, v.slots); }
    } else {
      ScalarTaken(f, v);
    }
  }

  /** A number takes at most ten bytes. */
  lemma NumberLength(f: Field, v: Value)
    requires f.ltype.Packable() && EncodeScalar(f, v).Some?
    ensures |EncodeScalar(f, v).value| <= 10
  {
    match f.ltype {
      case LVarint => VarintAtMostTen(ToU64(v.i));
      case LUvarint => VarintAtMostTen(v.i);
      case LSvarint => ZigZagInverse(v.i); VarintAtMostTen(ZigZag(v.i));
      case _ =>
    }
  }

  lemma {:induction false} PackedTaken(f: Field, items: seq<Value>, n: nat)
    requires f.ltype.Packable() && n <= |items|
    ensures EncodePacked(f, items, n).Some? <==> forall j :: 0 <= j < n ==> Takes(f, items[j])
    ensures EncodePacked(f, items, n).Some? ==> |EncodePacked(f, items, n).value| <= 10 * n
  {
    hide Takes, EncodeScalar;
    if n > 0 {
      PackedTaken(f, items, n - 1);
      ScalarTaken(f, items[n - 1]);
      if EncodeScalar(f, items[n - 1]).Some? { NumberLength(f, items[n - 1]); }
    }
  }

  lemma {:induction false} ItemsTaken(f: Field, items: seq<Value>, n: nat)
    requires WellFormedField(f) && n <= |items|
    ensures EncodeItems(f, items, n).Some? <==> forall j :: 0 <= j < n ==> Takes(f, items[j])
    decreases f, 1, n
  {
    hide Takes, EncodeValue;
    if n > 0 {
      ItemsTaken(f, items, n - 1);
      ValueTaken(f, items[n - 1]);
    }
  }

  lemma {:induction false} ArrayTaken(f: Field, items: seq<Value>)
    requires WellFormedField(f)
    ensures EncodeArray(f, items).Some? <==> |items| <= f.arraySize && forall j :: 0 <= j < |items| ==> Takes(f, items[j])
    decreases f, 2
  {
    hide Takes, EncodePacked, EncodeItems;
    if |items| <= f.arraySize {
      if f.ltype.Packable() { PackedTaken(f, items, |items|); } else { ItemsTaken(f, items, |items|); }
    }
  }

  lemma {:induction false} SlotTaken(f: Field, s: Slot)
    requires WellFormedField(f)
    ensures EncodeField(f, s).Some? <==> TakesSlot(f, s)
    decreases f, 3
  {
    hide Takes, EncodeArray, EncodeValue, Zero, IsZero;
    SaysIsPresent(f, s);
    if f.atype.Static? {
      if f.htype.Repeated? {
        if s.Many? { ArrayTaken(f, s.items); }
      } else {
        ValueTaken(f, ValueOf(s));
      }
    }
  }

  lemma {:induction false} FieldTaken(fields: seq<Field>, i: nat, slots: seq<Slot>)
    requires WellFormed(fields) && i < |fields| && |slots| == SlotCount(fields)
    ensures EncodeUpTo(fields, i + 1, slots).Some? <==> EncodeUpTo(fields, i, slots).Some? && TakesAt(fields, slots, i)
    decreases fields, 0
  {
    hide TakesSlot, EncodeField, WellFormedField;
    SlotInRange(fields, i, i);
    assert WellFormedField(fields[i]);
    SlotTaken(fields[i], slots[SlotOf(fields, i)]);
  }

  lemma {:induction false} AllTaken(fields: seq<Field>, n: nat, slots: seq<Slot>, i: nat)
    requires WellFormed(fields) && i < n <= |fields| && |slots| == SlotCount(fields) && EncodeUpTo(fields, n, slots).Some?
    ensures TakesAt(fields, slots, i)
    decreases fields, 1, n
  {
    hide TakesAt, EncodeUpTo;
    FieldTaken(fields, n - 1, slots);
    if i < n - 1 { AllTaken(fields, n - 1, slots, i); }
  }

  lemma {:induction false} EncodesTaken(fields: seq<Field>, n: nat, slots: seq<Slot>)
    requires WellFormed(fields) && n <= |fields| && |slots| == SlotCount(fields) && TakesMessage(fields, slots)
    ensures EncodeUpTo(fields, n, slots).Some?
    decreases fields, 1, n
  {
    hide TakesSlot;
    if n > 0 {
      EncodesTaken(fields, n - 1, slots);
      assert TakesAt(fields, slots, n - 1);
      FieldTaken(fields, n - 1, slots);
    }
  }

  /** The encoder succeeds exactly on messages whose slots it takes, at every depth. */
  lemma {:induction false} MessageTaken(fields: seq<Field>, slots: seq<Slot>)
    requires WellFormed(fields) && |slots| == SlotCount(fields)
    ensures Encode(fields, slots).Some? <==> TakesMessage(fields, slots)
    decreases fields, 2
  {
    hide TakesSlot, EncodeUpTo;
    if Encode(fields, slots).Some? {
      forall i | 0 <= i < |fields| ensures TakesAt(fields, slots, i) { AllTaken(fields, |fields|, slots, i); }
    }
    if TakesMessage(fields, slots) { EncodesTaken(fields, |fields|, slots); }
  }
}
