/** The round trip as an identity on messages whose absent parts are at their defaults. */
module Identity {
  import opened Bits
  import opened Options
  import opened Schema
  import opened Encoding
  import opened Decoding
  import opened Presence
  import opened Canon
  import opened RoundTrip

  /** Decoding into any struct memory what was encoded, with the exact condition for success. */
  lemma DecodeInvertsEncode(fields: seq<Field>, msg: seq<Slot>, dest: seq<Slot>)
    requires WellFormed(fields) && |msg| == |dest| == SlotCount(fields)
    requires Encode(fields, msg).Some?
    ensures Decode(fields, Encode(fields, msg).value, dest)
            == if Decodable(fields, 0, msg)
               then Ok(Overlay(fields, |fields|, msg, Defaults(fields, dest)), [])
               else Fail
  {
    DefaultsFresh(fields, dest);
    MessageRoundTrip(fields, msg, Defaults(fields, dest));
  }

  // ---- Canonical messages

  ghost predicate CanonicalValue(f: Field, v: Value, start: Value)
    decreases f, 0
  {
    f.ltype.LSubmessage? ==>
      var sub := f.ltype.fields;
      v.Msg? && |v.slots| == SlotCount(sub) && Canonical(sub, v.slots, Inner(start, sub))
  }

  /** One slot: what is absent equals the default in base, what is present is canonical inside. */
  ghost predicate CanonicalSlot(f: Field, s: Slot, base: Slot)
    decreases f, 1
  {
    if f.atype.Callback? then
      s.Hook? && base.Hook? && (if s.bundle.Some? then base.bundle.Some? else base.bundle.None?)
    else match f.htype
      case Repeated =>
        s.Many? && base == Many([])
        && forall j :: 0 <= j < |s.items| ==> CanonicalValue(f, s.items[j], StartValue(f, Int(0)))
      case Oneof =>
        s.Union? && (s.which == f.tag ==> CanonicalValue(f, s.u, StartValue(f, ValueOf(base))))
      case Required =>
        s.One? && base.One? && !base.has && !s.has && CanonicalValue(f, s.v, StartValue(f, base.v))
      case Optional =>
        && s.One? && base.One? && !base.has && (s.has ==> f.sizeOffset != 0)
        && (if (if f.sizeOffset != 0 then s.has else !Zero(f, s))
            then CanonicalValue(f, s.v, StartValue(f, base.v))
            else s.v == base.v)
  }

  /** Some field that lives in slot k is written. */
  ghost predicate Selected(fields: seq<Field>, n: nat, msg: seq<Slot>, k: nat)
    requires n <= |fields| && |msg| == SlotCount(fields) && k < |msg|
  {
    exists j :: 0 <= j < n && SlotOf(fields, j) == k && Written(fields[j], msg[k])
  }

  ghost predicate CanonicalField(fields: seq<Field>, i: nat, msg: seq<Slot>, base: seq<Slot>)
    requires i < |fields| && |msg| == |base| == SlotCount(fields)
    decreases fields, 0
  {
    SlotInRange(fields, i, i);
    var k := SlotOf(fields, i);
    CanonicalSlot(fields[i], msg[k], base[k])
  }

  /** msg is canonical over base: absent fields, and unions without a selected member, equal base. */
  ghost predicate Canonical(fields: seq<Field>, msg: seq<Slot>, base: seq<Slot>)
    requires |msg| == |base| == SlotCount(fields)
    decreases fields, 1
  {
    && (forall i :: 0 <= i < |fields| ==> CanonicalField(fields, i, msg, base))
    && (forall k :: 0 <= k < |msg| && msg[k].Union? && !Selected(fields, |fields|, msg, k) ==> msg[k] == base[k])
  }

  lemma {:induction false} CanonicalValueStays(f: Field, v: Value, start: Value)
    requires WellFormedField(f) && CanonicalValue(f, v, start)
    ensures CanonValue(f, v, start) == v
    decreases f, 0
  {
    if f.ltype.LSubmessage? {
      OverlayIsIdentity(f.ltype.fields, v.slots, Inner(start, f.ltype.fields));
    }
  }

  lemma {:induction false} CanonicalItemsStay(f: Field, items: seq<Value>, n: nat)
    requires WellFormedField(f) && n <= |items|
    requires forall j :: 0 <= j < |items| ==> CanonicalValue(f, items[j], StartValue(f, Int(0)))
    ensures CanonItems(f, items, n) == items[..n]
    decreases f, 1, n
  {
    if n > 0 {
      CanonicalItemsStay(f, items, n - 1);
      CanonicalValueStays(f, items[n - 1], StartValue(f, Int(0)));
      assert items[..n] == items[..n - 1] + [items[n - 1]];
    }
  }

  lemma {:induction false} CanonicalSlotStays(f: Field, s: Slot, base: Slot)
    requires WellFormedField(f) && CanonicalSlot(f, s, base) && Written(f, s)
    ensures CanonSlot(f, s, base) == s
    decreases f, 2
  {
    if f.atype.Callback? {
    } else if f.htype.Repeated? {
      CanonicalItemsStay(f, s.items, |s.items|);
      assert s.items[..|s.items|] == s.items;
    } else {
      CanonicalValueStays(f, ValueOf(s), StartValue(f, ValueOf(base)));
    }
  }

  /** Members of one union differ in tag, so at most one of them is written. */
  lemma OneMemberWritten(fields: seq<Field>, msg: seq<Slot>, i: nat, j: nat)
    requires DistinctTags(fields) && |msg| == SlotCount(fields)
    requires i < j < |fields| && SlotOf(fields, i) == SlotOf(fields, j) && SlotOf(fields, i) < |msg|
    requires fields[i].atype.Static? && fields[j].atype.Static?
    ensures !(Written(fields[i], msg[SlotOf(fields, i)]) && Written(fields[j], msg[SlotOf(fields, i)]))
  {
    SharedSlotIsOneof(fields, i, j);
  }

  /** No field before i that shares its slot is written, if field i is. */
  lemma NotSelectedBefore(fields: seq<Field>, msg: seq<Slot>, i: nat, k: nat)
    requires WellFormed(fields) && i < |fields| && |msg| == SlotCount(fields) && k < |msg|
    requires SlotOf(fields, i) == k && Written(fields[i], msg[k])
    ensures !Selected(fields, i, msg, k)
  {
    if Selected(fields, i, msg, k) {
      var j :| 0 <= j < i && SlotOf(fields, j) == k && Written(fields[j], msg[k]);
      SharedSlotIsOneof(fields, j, i);
      assert WellFormedField(fields[i]) && WellFormedField(fields[j]);
      OneMemberWritten(fields, msg, j, i);
      assert false;
    }
  }

  lemma SelectedStep(fields: seq<Field>, n: nat, msg: seq<Slot>, k: nat)
    requires n < |fields| && |msg| == SlotCount(fields) && k < |msg|
    ensures Selected(fields, n + 1, msg, k)
            <==> Selected(fields, n, msg, k) || (SlotOf(fields, n) == k && Written(fields[n], msg[k]))
  {
  }

  /** After n fields, a slot holds msg's value if one of those fields wrote it, else base's. */
  lemma {:induction false} OverlayPointwise(fields: seq<Field>, n: nat, msg: seq<Slot>, base: seq<Slot>, k: nat)
    requires WellFormed(fields) && n <= |fields| && |msg| == |base| == SlotCount(fields) && k < |msg|
    requires forall i :: 0 <= i < n ==> CanonicalField(fields, i, msg, base)
    ensures Overlay(fields, n, msg, base)[k] == if Selected(fields, n, msg, k) then msg[k] else base[k]
    decreases fields, 0, n
  {
    hide Selected, CanonicalSlot, CanonSlot, Written, WellFormedField;
    if n == 0 {
      NoneSelected(fields, msg, k);
    } else {
      OverlayPointwise(fields, n - 1, msg, base, k);
      SelectedStep(fields, n - 1, msg, k);
      SlotInRange(fields, n - 1, n - 1);
      if SlotOf(fields, n - 1) == k && Written(fields[n - 1], msg[k]) {
        assert CanonicalField(fields, n - 1, msg, base);
        NotSelectedBefore(fields, msg, n - 1, k);
        CanonicalSlotStays(fields[n - 1], msg[k], base[k]);
      }
    }
  }

  lemma NoneSelected(fields: seq<Field>, msg: seq<Slot>, k: nat)
    requires |msg| == SlotCount(fields) && k < |msg|
    ensures !Selected(fields, 0, msg, k)
  {
  }

  /** Outside unions, a slot that is not written equals the default. */
  lemma AbsentIsDefault(f: Field, s: Slot, base: Slot)
    requires CanonicalSlot(f, s, base) && !Written(f, s)
    ensures s.Union? || s == base
  {
  }

  /** Writing a canonical message over its base reproduces the message. */
  lemma {:induction false} OverlayIsIdentity(fields: seq<Field>, msg: seq<Slot>, base: seq<Slot>)
    requires WellFormed(fields) && |msg| == |base| == SlotCount(fields) && Canonical(fields, msg, base)
    ensures Overlay(fields, |fields|, msg, base) == msg
    decreases fields, 1
  {
    hide CanonicalSlot, CanonSlot, Written, WellFormedField, Overlay;
    var n := |fields|;
    forall k | 0 <= k < |msg| ensures Overlay(fields, n, msg, base)[k] == msg[k] {
      OverlayPointwise(fields, n, msg, base, k);
      if !Selected(fields, n, msg, k) {
        var i := SlotHasField(fields, n, k);
        assert CanonicalField(fields, i, msg, base);
        AbsentIsDefault(fields[i], msg[k], base[k]);
      }
    }
  }

  /**
   * The round trip: a message whose absent parts are at the destination's defaults comes back from
   * the wire unchanged, whatever the destination held before.
   */
  lemma RoundTripIdentity(fields: seq<Field>, msg: seq<Slot>, dest: seq<Slot>)
    requires WellFormed(fields) && |msg| == |dest| == SlotCount(fields)
    requires Encode(fields, msg).Some?
    requires Decodable(fields, 0, msg) && Canonical(fields, msg, Defaults(fields, dest))
    ensures Decode(fields, Encode(fields, msg).value, dest) == Ok(msg, [])
  {
    DecodeInvertsEncode(fields, msg, dest);
    OverlayIsIdentity(fields, msg, Defaults(fields, dest));
  }

  // ---- One field through the wire, whatever else the message holds

  /** Outside unions, a slot holds what its field makes of it, or the base if the field is not there. */
  lemma {:induction false} OverlayAt(fields: seq<Field>, n: nat, msg: seq<Slot>, base: seq<Slot>, i: nat)
    requires i < n <= |fields| && |msg| == |base| == SlotCount(fields) && !fields[i].htype.Oneof?
    ensures SlotOf(fields, i) < |base|
    ensures var k := SlotOf(fields, i);
            Overlay(fields, n, msg, base)[k]
            == if Written(fields[i], msg[k]) then CanonSlot(fields[i], msg[k], base[k]) else base[k]
    decreases n
  {
    hide Written, CanonSlot;
    SlotInRange(fields, i, i);
    SlotInRange(fields, n - 1, n - 1);
    if i == n - 1 {
      OverlayUntouched(fields, i, msg, base, i);
    } else {
      OverlayAt(fields, n - 1, msg, base, i);
      if SlotOf(fields, i) == SlotOf(fields, n - 1) { SharedSlotIsOneof(fields, i, n - 1); }
    }
  }

  /**
   * A single field, through the wire and into any struct memory. What is there comes back, with its has-flag
   * if it has one; what is absent comes back as its default, with the has-flag off.
   */
  lemma SingleSurvives(fields: seq<Field>, msg: seq<Slot>, dest: seq<Slot>, i: nat)
    requires WellFormed(fields) && |msg| == |dest| == SlotCount(fields)
    requires Encode(fields, msg).Some? && Decodable(fields, 0, msg)
    requires i < |fields| && fields[i].atype.Static? && (fields[i].htype.Required? || fields[i].htype.Optional?)
    ensures SlotOf(fields, i) < |msg|
    ensures var f, k, r := fields[i], SlotOf(fields, i), Decode(fields, Encode(fields, msg).value, dest);
            && r.Ok? && r.v[k].One?
            && (f.htype.Optional? && f.sizeOffset != 0 ==> r.v[k].has == (msg[k].One? && msg[k].has))
            && (f.htype.Required? || f.sizeOffset == 0 ==> !r.v[k].has)
            && (Says(f, msg[k]) && !f.ltype.LSubmessage? ==> r.v[k].v == ValueOf(msg[k]))
            && (!Says(f, msg[k]) ==> InitialValue(f, r.v[k].v, ValueOf(dest[k])))
  {
    hide Decode, Encode, Overlay, Defaults, Zero, WellFormed;
    var base := Defaults(fields, dest);
    DecodeInvertsEncode(fields, msg, dest);
    OverlayAt(fields, |fields|, msg, base, i);
    DefaultsAt(fields, dest, i);
  }

  /** An array through the wire: as many items, and numbers, bytes and text as they were. */
  lemma ArraySurvives(fields: seq<Field>, msg: seq<Slot>, dest: seq<Slot>, i: nat)
    requires WellFormed(fields) && |msg| == |dest| == SlotCount(fields)
    requires Encode(fields, msg).Some? && Decodable(fields, 0, msg)
    requires i < |fields| && fields[i].atype.Static? && fields[i].htype.Repeated?
    ensures SlotOf(fields, i) < |msg|
    ensures var k, r := SlotOf(fields, i), Decode(fields, Encode(fields, msg).value, dest);
            && r.Ok? && r.v[k].Many? && |r.v[k].items| == |ItemsOf(msg[k])|
            && (!fields[i].ltype.LSubmessage? ==> r.v[k].items == ItemsOf(msg[k]))
  {
    hide Decode, Encode, Overlay, Defaults, WellFormed;
    var base := Defaults(fields, dest);
    DecodeInvertsEncode(fields, msg, dest);
    OverlayAt(fields, |fields|, msg, base, i);
    DefaultsAt(fields, dest, i);
    var items := ItemsOf(msg[SlotOf(fields, i)]);
    if !fields[i].ltype.LSubmessage? {
      CanonItemsOfScalars(fields[i], items, |items|);
      assert items[..|items|] == items;
    }
  }

  /** Different canonical messages have different wire forms. */
  lemma EncodeInjective(fields: seq<Field>, m1: seq<Slot>, m2: seq<Slot>, dest: seq<Slot>)
    requires WellFormed(fields) && |m1| == |m2| == |dest| == SlotCount(fields)
    requires Encode(fields, m1).Some?
    requires Decodable(fields, 0, m1) && Canonical(fields, m1, Defaults(fields, dest))
    requires Decodable(fields, 0, m2) && Canonical(fields, m2, Defaults(fields, dest))
    requires Encode(fields, m2) == Encode(fields, m1)
    ensures m1 == m2
  {
    RoundTripIdentity(fields, m1, dest);
    RoundTripIdentity(fields, m2, dest);
  }
}
