/** When a field is there, by what its slot holds alone, and that the encoder goes by it. */
module Presence {
  import opened Options
  import opened Schema
  import opened Encoding

  /** Numbers, as opposed to bytes, text and messages. */
  predicate Numeric(t: LType) { t.LVarint? || t.LUvarint? || t.LSvarint? || t.LFixed32? || t.LFixed64? }

  /** The zero value of a proto3 field, by what its slot holds. */
  predicate Zero(f: Field, s: Slot)
    decreases f, 0
  {
    match f.htype
    case Required => false
    case Repeated => !s.Many? || s.items == []
    case Oneof => s.Union? && s.which == 0
    case Optional =>
      if f.sizeOffset != 0 then s.One? && !s.has
      else if f.atype.Callback? then s.Hook? && s.bundle.None?
      else if f.ltype.LFixedBytes? then f.dataSize == 0
      else if f.ltype.LSubmessage? then
        var sub, inner := f.ltype.fields, Inner(ValueOf(s), f.ltype.fields);
        forall i :: 0 <= i < |sub| ==> (SlotInRange(sub, i, i); Zero(sub[i], inner[SlotOf(sub, i)]))
      else
        match ValueOf(s)
        case Int(i) => Numeric(f.ltype) && i == 0
        case Blob(b) => f.ltype.LBytes? && b == []
        case Text(t) => f.ltype.LString? && t == []
        case Msg(_) => false
  }

  /** The slot says that the single field is there: always, by its has-flag, by its value, or by the union's selector. */
  predicate Says(f: Field, s: Slot) {
    match f.htype
    case Required => true
    case Optional => if f.sizeOffset != 0 then s.One? && s.has else !Zero(f, s)
    case Oneof => s.Union? && s.which == f.tag
    case Repeated => false
  }

  /** The encoder's zero test is the zero value of the slot. */
  lemma {:induction false} ZeroTest(f: Field, s: Slot)
    ensures IsZero(f, s) <==> Zero(f, s)
    decreases f, 0
  {
    if f.htype.Optional? && f.sizeOffset == 0 && f.atype.Static? && f.ltype.LSubmessage? {
      AllZeroTest(f.ltype.fields, 0, Inner(ValueOf(s), f.ltype.fields));
    }
  }

  lemma {:induction false} AllZeroTest(fields: seq<Field>, from: nat, slots: seq<Slot>)
    requires from <= |fields| && |slots| == SlotCount(fields)
    ensures AllZero(fields, from, slots)
            <==> forall i :: from <= i < |fields| ==> (SlotInRange(fields, i, i); Zero(fields[i], slots[SlotOf(fields, i)]))
    decreases fields, |fields| - from
  {
    if from < |fields| {
      SlotInRange(fields, from, from);
      ZeroTest(fields[from], slots[SlotOf(fields, from)]);
      AllZeroTest(fields, from + 1, slots);
    }
  }

  /** A single field is written exactly if its slot says that it is there. */
  lemma SaysIsPresent(f: Field, s: Slot)
    ensures Present(f, s) <==> Says(f, s)
  {
    ZeroTest(f, s);
    hide Zero, IsZero;
  }

  /** A field leaves no bytes exactly if its slot says that nothing is there. */
  lemma EncodedIffSaid(f: Field, s: Slot)
    requires f.atype.Static? && !f.htype.Repeated? && EncodeField(f, s).Some?
    ensures EncodeField(f, s).value != [] <==> Says(f, s)
    ensures f.htype.Required? ==> EncodeField(f, s).value != []
    ensures f.htype.Optional? && f.sizeOffset != 0 ==> (EncodeField(f, s).value != [] <==> s.One? && s.has)
    ensures f.htype.Optional? && f.sizeOffset == 0 ==> (EncodeField(f, s).value != [] <==> !Zero(f, s))
    ensures f.htype.Oneof? ==> (EncodeField(f, s).value != [] <==> s.Union? && s.which == f.tag)
  {
    SaysIsPresent(f, s);
    hide Zero, IsZero, EncodeValue, FieldTag;
  }
}
