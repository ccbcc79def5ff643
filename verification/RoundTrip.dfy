/**
 * Decoding undoes encoding. For every well-formed descriptor and every message the encoder accepts,
 * the decoder either gives the message back or fails, and it fails exactly when a string that was
 * written fills its buffer without a terminator or a tracked required callback was never bound.
 */
module RoundTrip {
  import opened Bits
  import opened Options
  import opened Schema
  import opened Varint
  import opened Encoding
  import opened Decoding
  import opened Presence
  import opened Canon

  // ---- Scalars

  lemma {:induction false} LittleEndianInverts(w: nat, n: nat)
    requires w < Shl(1, 8 * n)
    ensures FromLittleEndian(LittleEndian(w, n)) == w
  {
    if n > 0 {
      assert Shl(1, 8 * n) == 256 * Shl(1, 8 * (n - 1)) by {
        var m := 8 * (n - 1);
        ShlSeven(1, m);
        assert 8 * n == (m + 7) + 1;
      }
      LittleEndianInverts(w / 256, n - 1);
      assert LittleEndian(w, n)[1..] == LittleEndian(w / 256, n - 1);
    }
  }

  lemma FixedInverts(w: nat, n: nat, rest: seq<byte>)
    requires w < Shl(1, 8 * n)
    ensures DecodeFixed(n, LittleEndian(w, n) + rest) == Ok(Int(w), rest)
  {
    var bs := LittleEndian(w, n) + rest;
    assert bs[..n] == LittleEndian(w, n) && bs[n..] == rest;
    LittleEndianInverts(w, n);
  }

  lemma {:induction false} CStringOfText(s: seq<byte>)
    requires 0 !in s
    ensures CString(s) == s
  {
    if s != [] {
      CStringOfText(s[1..]);
    }
  }

  lemma DelimitedInverts(b: seq<byte>, rest: seq<byte>)
    requires |b| < U32
    ensures TakeDelimited(Delimited(b) + rest) == Ok(b, rest)
    ensures Varint32(Delimited(b) + rest) == Ok(|b|, b + rest)
  {
    assert Delimited(b) + rest == VarintBytes(|b|) + (b + rest);
    Varint32Inverts(|b|, b + rest);
    assert (b + rest)[..|b|] == b && (b + rest)[|b|..] == rest;
  }

  lemma BlobInverts(f: Field, v: Value, rest: seq<byte>)
    requires WellFormedField(f) && (f.ltype.LBytes? || f.ltype.LString? || f.ltype.LFixedBytes?)
    requires EncodeScalar(f, v).Some?
    ensures DecodeBlob(f, EncodeScalar(f, v).value + rest) == if TerminatedValue(f, v) then Ok(v, rest) else Fail
  {
    var b := if v.Text? then v.s else v.b;
    DelimitedInverts(b, rest);
    assert (b + rest)[..|b|] == b && (b + rest)[|b|..] == rest;
    if f.ltype.LString? {
      CStringOfText(b);
    } else if f.ltype.LFixedBytes? && |b| == 0 {
      assert b == seq(f.dataSize, _ => 0);
    }
  }

  lemma SignedInverts(i: int, size: nat)
    requires SignedFits(i, size)
    ensures Signed(ToU64(i), if size == 8 then 8 else 4) == i
  {
    if size < 8 && i < 0 {
      assert (i + U64) % U32 == i + U32;
    }
  }

  lemma IntInverts(f: Field, v: Value, rest: seq<byte>)
    requires f.ltype.LVarint? || f.ltype.LUvarint? || f.ltype.LSvarint?
    requires EncodeScalar(f, v).Some?
    ensures DecodeInt(f, EncodeScalar(f, v).value + rest) == Ok(v, rest)
  {
    if f.ltype.LVarint? {
      SignedInverts(v.i, f.dataSize);
      Varint64Inverts(ToU64(v.i), rest);
    } else if f.ltype.LUvarint? {
      Varint64Inverts(v.i, rest);
    } else {
      ZigZagInverse(v.i);
      Varint64Inverts(ZigZag(v.i), rest);
    }
  }

  lemma Shl32And64()
    ensures Shl(1, 32) == U32 && Shl(1, 64) == U64
  {
    Pow2Values();
    ShlOne(32);
    ShlOne(64);
  }

  /** An item on the wire reads back as itself, except a string that fills its buffer. */
  lemma ScalarRoundTrip(f: Field, v: Value, rest: seq<byte>)
    requires WellFormedField(f) && !f.ltype.LSubmessage?
    requires EncodeScalar(f, v).Some?
    ensures DecodeScalar(f, EncodeScalar(f, v).value + rest) == if TerminatedValue(f, v) then Ok(v, rest) else Fail
  {
    if f.ltype.LFixed32? {
      Shl32And64();
      FixedInverts(v.i, 4, rest);
    } else if f.ltype.LFixed64? {
      Shl32And64();
      FixedInverts(v.i, 8, rest);
    } else if f.ltype.Packable() {
      IntInverts(f, v, rest);
    } else {
      BlobInverts(f, v, rest);
    }
  }

  // ---- Packed arrays

  lemma ScalarNotEmpty(f: Field, v: Value)
    requires EncodeScalar(f, v).Some?
    ensures |EncodeScalar(f, v).value| >= 1
  {
  }

  lemma {:induction false} PackedRoundTrip(f: Field, items: seq<Value>, n: nat, tail: seq<byte>)
    requires WellFormedField(f) && f.ltype.Packable() && n <= |items| <= f.arraySize
    requires EncodePacked(f, items, n).Some?
    ensures DecodePacked(f, EncodePacked(f, items, n).value + tail, []) == DecodePacked(f, tail, items[..n])
    decreases n
  {
    var done := EncodePacked(f, items, n);
    if n == 0 {
      assert done.value + tail == tail;
    } else {
      hide EncodeScalar, DecodeScalar;
      var item := EncodeScalar(f, items[n - 1]).value;
      var before := EncodePacked(f, items, n - 1).value;
      assert done.value + tail == before + (item + tail);
      PackedRoundTrip(f, items, n - 1, item + tail);
      ScalarRoundTrip(f, items[n - 1], tail);
      ScalarNotEmpty(f, items[n - 1]);
      assert items[..n] == items[..n - 1] + [items[n - 1]];
    }
  }

  lemma PackedRoundTripAll(f: Field, items: seq<Value>)
    requires WellFormedField(f) && f.ltype.Packable() && |items| <= f.arraySize
    requires EncodePacked(f, items, |items|).Some?
    ensures DecodePacked(f, EncodePacked(f, items, |items|).value, []) == Some(items)
  {
    var body := EncodePacked(f, items, |items|).value;
    PackedRoundTrip(f, items, |items|, []);
    assert body + [] == body && items[..|items|] == items;
  }

  lemma {:induction false} CanonItemsOfScalars(f: Field, items: seq<Value>, n: nat)
    requires n <= |items| && !f.ltype.LSubmessage?
    ensures CanonItems(f, items, n) == items[..n]
  {
    if n > 0 {
      CanonItemsOfScalars(f, items, n - 1);
      assert items[..n] == items[..n - 1] + [items[n - 1]];
    }
  }

  // ---- One field

  /** Reading a tag the encoder wrote for field i leads to field i. */
  lemma TagLeadsHome(fields: seq<Field>, i: nat, wireType: nat, more: seq<byte>, st: State)
    requires WellFormed(fields) && i < |fields| && wireType < 8
    requires |st.slots| == SlotCount(fields)
    ensures var r := Known(fields, i, wireType, more, st);
            DecodeFields(fields, TagBytes(wireType, fields[i].tag) + more, st)
            == if r.Ok? then DecodeFields(fields, r.rest, r.v) else Fail
  {
    var key := 8 * fields[i].tag + wireType;
    assert WellFormedField(fields[i]);
    Varint32Inverts(key, more);
    FindsItself(fields, i);
    assert key / 8 == fields[i].tag && key % 8 == wireType;
  }

  /** The state after field i has been read into slot s. */
  function After(fields: seq<Field>, i: nat, st: State, s: Slot): (r: State)
    requires i < |fields| && |st.slots| == SlotCount(fields)
    ensures |r.slots| == |st.slots|
  {
    SlotInRange(fields, i, i);
    st.(slots := st.slots[SlotOf(fields, i) := s], log := st.log + [i])
  }

  lemma {:induction false} ValueRoundTrip(f: Field, v: Value, start: Value, rest: seq<byte>)
    requires WellFormedField(f) && FreshValue(f, start)
    requires EncodeValue(f, v).Some?
    ensures DecodeValue(f, EncodeValue(f, v).value + rest, start)
            == if TerminatedValue(f, v) then Ok(CanonValue(f, v, start), rest) else Fail
    decreases f, 0
  {
    if f.ltype.LSubmessage? {
      var sub := f.ltype.fields;
      var body := Encode(sub, v.slots).value;
      DelimitedInverts(body, rest);
      MessageRoundTrip(sub, v.slots, Inner(start, sub));
    } else {
      ScalarRoundTrip(f, v, rest);
    }
  }

  lemma StartFresh(f: Field, was: Value)
    requires FreshValue(f, was) || f.htype.Repeated? || f.htype.Oneof?
    ensures FreshValue(f, StartValue(f, was))
  {
    if f.ltype.LSubmessage? {
      DefaultsFresh(f.ltype.fields, ZeroMemory(f.ltype.fields));
    }
  }

  /** A required, optional or union field that is written. */
  lemma {:induction false} SingleRoundTrip(fields: seq<Field>, i: nat, v: Value, st: State, more: seq<byte>)
    requires WellFormed(fields) && i < |fields| && |st.slots| == SlotCount(fields)
    requires fields[i].atype.Static? && !fields[i].htype.Repeated?
    requires EncodeTagged(fields[i], v).Some?
    requires SlotOf(fields, i) < |st.slots| && FreshSlot(fields[i], st.slots[SlotOf(fields, i)])
    ensures var f := fields[i];
            var base := st.slots[SlotOf(fields, i)];
            var w := CanonValue(f, v, StartValue(f, ValueOf(base)));
            var has := (f.htype.Optional? && f.sizeOffset != 0) || (base.One? && base.has);
            DecodeFields(fields, EncodeTagged(f, v).value + more, st)
            == if TerminatedValue(f, v)
               then DecodeFields(fields, more, After(fields, i, st, if f.htype.Oneof? then Union(f.tag, w) else One(has, w)))
               else Fail
    decreases fields[i], 1
  {
    var f := fields[i];
    assert WellFormedField(f);
    var body := EncodeValue(f, v).value;
    var base := st.slots[SlotOf(fields, i)];
    assert EncodeTagged(f, v).value + more == FieldTag(f) + (body + more);
    TagLeadsHome(fields, i, WireType(f.ltype), body + more, st);
    StartFresh(f, ValueOf(base));
    ValueRoundTrip(f, v, StartValue(f, ValueOf(base)), more);
  }

  /** The state after n entries of the array field i have been read one by one. */
  function AfterItems(fields: seq<Field>, i: nat, items: seq<Value>, n: nat, st: State): (r: State)
    requires i < |fields| && |st.slots| == SlotCount(fields) && n <= |items|
    ensures |r.slots| == |st.slots|
  {
    SlotInRange(fields, i, i);
    if n == 0 then st
    else st.(slots := st.slots[SlotOf(fields, i) := Many(CanonItems(fields[i], items, n))],
             log := st.log + seq(n, _ => i))
  }

  lemma {:induction false} ItemsRoundTrip(fields: seq<Field>, i: nat, items: seq<Value>, n: nat, st: State, more: seq<byte>)
    requires WellFormed(fields) && i < |fields| && |st.slots| == SlotCount(fields)
    requires fields[i].atype.Static? && fields[i].htype.Repeated? && !fields[i].ltype.Packable()
    requires n <= |items| <= fields[i].arraySize
    requires EncodeItems(fields[i], items, n).Some?
    requires SlotOf(fields, i) < |st.slots| && ItemsOf(st.slots[SlotOf(fields, i)]) == []
    ensures DecodeFields(fields, EncodeItems(fields[i], items, n).value + more, st)
            == if TerminatedItemsUpTo(fields[i], items, n)
               then DecodeFields(fields, more, AfterItems(fields, i, items, n, st)) else Fail
    decreases fields[i], 1, n
  {
    var f := fields[i];
    var bs := EncodeItems(f, items, n).value;
    if n == 0 {
      assert bs + more == more;
    } else {
      var before := EncodeItems(f, items, n - 1).value;
      var tagged := EncodeTagged(f, items[n - 1]).value;
      assert bs + more == before + (tagged + more);
      ItemsRoundTrip(fields, i, items, n - 1, st, tagged + more);
      if TerminatedItemsUpTo(f, items, n - 1) {
        ItemRoundTrip(fields, i, items, n, st, more);
      }
    }
  }

  /** Entry n - 1 of an array, read after the n - 1 before it. */
  lemma {:induction false} ItemRoundTrip(fields: seq<Field>, i: nat, items: seq<Value>, n: nat, st: State, more: seq<byte>)
    requires WellFormed(fields) && i < |fields| && |st.slots| == SlotCount(fields)
    requires fields[i].atype.Static? && fields[i].htype.Repeated? && !fields[i].ltype.Packable()
    requires 1 <= n <= |items| <= fields[i].arraySize
    requires EncodeTagged(fields[i], items[n - 1]).Some?
    requires SlotOf(fields, i) < |st.slots| && ItemsOf(st.slots[SlotOf(fields, i)]) == []
    ensures DecodeFields(fields, EncodeTagged(fields[i], items[n - 1]).value + more, AfterItems(fields, i, items, n - 1, st))
            == if TerminatedValue(fields[i], items[n - 1])
               then DecodeFields(fields, more, AfterItems(fields, i, items, n, st)) else Fail
    decreases fields[i], 1, 0
  {
    hide DecodeFields, DecodeValue, VarintBytes, TakeDelimited, DecodePacked, EncodeValue, SlotCount, SlotOf;
    var f := fields[i];
    var v := items[n - 1];
    assert WellFormedField(f);
    var body := EncodeValue(f, v).value;
    var st1 := AfterItems(fields, i, items, n - 1, st);
    var k := SlotOf(fields, i);
    assert EncodeTagged(f, v).value + more == FieldTag(f) + (body + more);
    TagLeadsHome(fields, i, WireType(f.ltype), body + more, st1);
    StartFresh(f, Int(0));
    ValueRoundTrip(f, v, StartValue(f, Int(0)), more);
    assert ItemsOf(st1.slots[k]) == CanonItems(f, items, n - 1);
    var r := DecodeValue(f, body + more, StartValue(f, Int(0)));
    assert DecodeRepeated(f, WireType(f.ltype), body + more, st1.slots[k])
        == if r.Ok? then Ok(Many(CanonItems(f, items, n - 1) + [r.v]), r.rest) else Fail;
    if TerminatedValue(f, v) {
      var st2 := AfterItems(fields, i, items, n, st);
      assert st1.slots[k := Many(CanonItems(f, items, n))] == st2.slots;
      assert st1.log + [i] == st2.log;
    }
  }

  /** The first n items are terminated. */
  predicate TerminatedItemsUpTo(f: Field, items: seq<Value>, n: nat)
    requires n <= |items|
    decreases n
  {
    n == 0 || (TerminatedItemsUpTo(f, items, n - 1) && TerminatedValue(f, items[n - 1]))
  }

  lemma {:induction false} TerminatedUpToAll(f: Field, items: seq<Value>, n: nat)
    requires n <= |items|
    ensures TerminatedItems(f, items, 0) <==> TerminatedItemsUpTo(f, items, n) && TerminatedItems(f, items, n)
  {
    if n > 0 { TerminatedUpToAll(f, items, n - 1); }
  }

  lemma ScalarItemsTerminated(f: Field, items: seq<Value>, n: nat)
    requires n <= |items| && f.ltype.Packable()
    ensures TerminatedItemsUpTo(f, items, n)
  {
  }

  /** A packed array: one tag, one length, all the items. */
  lemma PackedFieldRoundTrip(fields: seq<Field>, i: nat, items: seq<Value>, st: State, more: seq<byte>)
    requires WellFormed(fields) && i < |fields| && |st.slots| == SlotCount(fields)
    requires fields[i].atype.Static? && fields[i].htype.Repeated? && fields[i].ltype.Packable() && items != []
    requires EncodeArray(fields[i], items).Some?
    requires SlotOf(fields, i) < |st.slots| && ItemsOf(st.slots[SlotOf(fields, i)]) == []
    ensures DecodeFields(fields, EncodeArray(fields[i], items).value + more, st)
            == DecodeFields(fields, more, After(fields, i, st, Many(items)))
  {
    hide DecodeFields, DecodeValue, VarintBytes, TakeDelimited, DecodePacked;
    var f := fields[i];
    assert WellFormedField(f);
    var body := EncodePacked(f, items, |items|).value;
    assert EncodeArray(f, items).value + more == TagBytes(WT_STRING, f.tag) + (Delimited(body) + more);
    TagLeadsHome(fields, i, WT_STRING, Delimited(body) + more, st);
    DelimitedInverts(body, more);
    PackedRoundTripAll(f, items);
    var base := st.slots[SlotOf(fields, i)];
    assert DecodeRepeated(f, WT_STRING, Delimited(body) + more, base) == Ok(Many(items), more);
    assert Known(fields, i, WT_STRING, Delimited(body) + more, st) == Ok(After(fields, i, st, Many(items)), more);
  }

  // ---- All fields

  /** What the loop logs for field i. */
  function FieldLog(f: Field, s: Slot, i: nat): seq<nat> {
    if !Written(f, s) then []
    else if f.atype.Static? && f.htype.Repeated? && !f.ltype.Packable() then seq(|ItemsOf(s)|, _ => i)
    else [i]
  }

  /** The state after field i of msg has been read, if it was written. */
  function AfterField(fields: seq<Field>, i: nat, s: Slot, st: State): (r: State)
    requires i < |fields| && |st.slots| == SlotCount(fields)
    ensures |r.slots| == |st.slots|
  {
    SlotInRange(fields, i, i);
    var k := SlotOf(fields, i);
    if Written(fields[i], s)
    then st.(slots := st.slots[k := CanonSlot(fields[i], s, st.slots[k])], log := st.log + FieldLog(fields[i], s, i))
    else st
  }

  lemma HookRoundTrip(fields: seq<Field>, i: nat, s: Slot, st: State, more: seq<byte>)
    requires WellFormed(fields) && i < |fields| && |st.slots| == SlotCount(fields)
    requires fields[i].atype.Callback?
    requires EncodeHook(fields[i], s).Some?
    ensures DecodeFields(fields, EncodeHook(fields[i], s).value + more, st)
            == DecodeFields(fields, more, AfterField(fields, i, s, st))
  {
    var f := fields[i];
    var k := SlotOf(fields, i);
    SlotInRange(fields, i, i);
    if s.bundle.None? {
      assert EncodeHook(f, s).value + more == more;
    } else {
      var b := s.bundle.value;
      assert EncodeHook(f, s).value + more == FieldTag(f) + (Delimited(b) + more);
      TagLeadsHome(fields, i, WireType(f.ltype), Delimited(b) + more, st);
      DelimitedInverts(b, more);
      HookReads(f, b, st.slots[k], more);
    }
  }

  lemma HookReads(f: Field, b: seq<byte>, base: Slot, more: seq<byte>)
    requires |b| < U32
    ensures DecodeHook(WT_STRING, Delimited(b) + more, base)
            == Ok(if base.Hook? && base.bundle.Some? then Hook(Some(b)) else base, more)
  {
    DelimitedInverts(b, more);
  }

  lemma RepeatedRoundTrip(fields: seq<Field>, i: nat, s: Slot, st: State, more: seq<byte>)
    requires WellFormed(fields) && i < |fields| && |st.slots| == SlotCount(fields)
    requires fields[i].atype.Static? && fields[i].htype.Repeated?
    requires EncodeField(fields[i], s).Some?
    requires SlotOf(fields, i) < |st.slots| && ItemsOf(st.slots[SlotOf(fields, i)]) == []
    ensures DecodeFields(fields, EncodeField(fields[i], s).value + more, st)
            == if DecodableSlot(fields[i], s) then DecodeFields(fields, more, AfterField(fields, i, s, st)) else Fail
    decreases fields[i], 2
  {
    var f := fields[i];
    var items := s.items;
    var n := |items|;
    TerminatedUpToAll(f, items, n);
    if n == 0 {
      assert EncodeField(f, s).value + more == more;
    } else if f.ltype.Packable() {
      PackedFieldRoundTrip(fields, i, items, st, more);
      ScalarItemsTerminated(f, items, n);
      CanonItemsOfScalars(f, items, n);
      assert items[..n] == items;
    } else {
      ItemsRoundTrip(fields, i, items, n, st, more);
    }
  }

  /** Any one field: the loop reads exactly its bytes and fills exactly its slot, or fails. */
  lemma {:induction false} FieldRoundTrip(fields: seq<Field>, i: nat, s: Slot, st: State, more: seq<byte>)
    requires WellFormed(fields) && i < |fields| && |st.slots| == SlotCount(fields)
    requires EncodeField(fields[i], s).Some?
    requires SlotOf(fields, i) < |st.slots| && FreshSlot(fields[i], st.slots[SlotOf(fields, i)])
    ensures DecodeFields(fields, EncodeField(fields[i], s).value + more, st)
            == if DecodableSlot(fields[i], s) then DecodeFields(fields, more, AfterField(fields, i, s, st)) else Fail
    decreases fields[i], 3
  {
    var f := fields[i];
    assert WellFormedField(f);
    if f.atype.Callback? {
      HookRoundTrip(fields, i, s, st, more);
    } else if f.htype.Repeated? {
      RepeatedRoundTrip(fields, i, s, st, more);
    } else if Says(f, s) {
      SaysIsPresent(f, s);
      SingleRoundTrip(fields, i, ValueOf(s), st, more);
    } else {
      SaysIsPresent(f, s);
      assert EncodeField(f, s).value + more == more;
    }
  }

  function LogUpTo(fields: seq<Field>, n: nat, msg: seq<Slot>): seq<nat>
    requires n <= |fields| && |msg| == SlotCount(fields)
  {
    if n == 0 then []
    else
      SlotInRange(fields, n - 1, n - 1);
      LogUpTo(fields, n - 1, msg) + FieldLog(fields[n - 1], msg[SlotOf(fields, n - 1)], n - 1)
  }

  /** The first n slots that are written decode. */
  predicate SlotsDecodable(fields: seq<Field>, n: nat, msg: seq<Slot>)
    requires n <= |fields| && |msg| == SlotCount(fields)
  {
    n == 0 ||
    (SlotInRange(fields, n - 1, n - 1);
     SlotsDecodable(fields, n - 1, msg) && DecodableSlot(fields[n - 1], msg[SlotOf(fields, n - 1)]))
  }

  /** A field outside a union finds its slot as initialised; a union member does not care. */
  lemma NextSlotFresh(fields: seq<Field>, n: nat, msg: seq<Slot>, base: seq<Slot>)
    requires n < |fields| && |msg| == |base| == SlotCount(fields) && Fresh(fields, base)
    ensures SlotOf(fields, n) < |base|
    ensures FreshSlot(fields[n], Overlay(fields, n, msg, base)[SlotOf(fields, n)])
  {
    SlotInRange(fields, n, n);
    assert FreshAt(fields, base, n);
    if !fields[n].htype.Oneof? {
      OverlayUntouched(fields, n, msg, base, n);
    }
  }

  lemma {:induction false} FieldsRoundTrip(fields: seq<Field>, n: nat, msg: seq<Slot>, base: seq<Slot>, more: seq<byte>)
    requires WellFormed(fields) && n <= |fields| && |msg| == |base| == SlotCount(fields) && Fresh(fields, base)
    requires EncodeUpTo(fields, n, msg).Some?
    ensures DecodeFields(fields, EncodeUpTo(fields, n, msg).value + more, State(base, [], false))
            == if SlotsDecodable(fields, n, msg)
               then DecodeFields(fields, more, State(Overlay(fields, n, msg, base), LogUpTo(fields, n, msg), false))
               else Fail
    decreases fields, 0, n
  {
    var bs := EncodeUpTo(fields, n, msg).value;
    if n == 0 {
      assert bs + more == more;
    } else {
      var k := SlotOf(fields, n - 1);
      SlotInRange(fields, n - 1, n - 1);
      var before := EncodeUpTo(fields, n - 1, msg).value;
      var next := EncodeField(fields[n - 1], msg[k]).value;
      assert bs + more == before + (next + more);
      FieldsRoundTrip(fields, n - 1, msg, base, next + more);
      if SlotsDecodable(fields, n - 1, msg) {
        NextSlotFresh(fields, n - 1, msg, base);
        var st := State(Overlay(fields, n - 1, msg, base), LogUpTo(fields, n - 1, msg), false);
        FieldRoundTrip(fields, n - 1, msg[k], st, more);
        assert AfterField(fields, n - 1, msg[k], st)
            == State(Overlay(fields, n, msg, base), LogUpTo(fields, n, msg), false);
      }
    }
  }

  // ---- The required-field check after the loop

  lemma {:induction false} LoggedIffWritten(fields: seq<Field>, n: nat, msg: seq<Slot>, i: nat)
    requires n <= |fields| && |msg| == SlotCount(fields) && i < |fields|
    ensures SlotOf(fields, i) < |msg|
    ensures i in LogUpTo(fields, n, msg) <==> i < n && Written(fields[i], msg[SlotOf(fields, i)])
    decreases n
  {
    hide SlotOf, SlotCount;
    SlotInRange(fields, i, i);
    if n > 0 {
      LoggedIffWritten(fields, n - 1, msg, i);
      SlotInRange(fields, n - 1, n - 1);
      var f, s := fields[n - 1], msg[SlotOf(fields, n - 1)];
      var log := FieldLog(f, s, n - 1);
      if Written(f, s) {
        assert log[0] == n - 1;
      }
    }
  }

  /** Decodable is: every slot decodes, and every tracked required field is written. */
  lemma {:induction false} DecodableSplits(fields: seq<Field>, from: nat, msg: seq<Slot>)
    requires from <= |fields| && |msg| == SlotCount(fields)
    ensures SlotsDecodable(fields, from, msg) && RequiredMetUpTo(fields, from, msg) && Decodable(fields, from, msg)
            <==> SlotsDecodable(fields, |fields|, msg) && RequiredMetUpTo(fields, |fields|, msg)
    decreases |fields| - from
  {
    if from < |fields| {
      DecodableSplits(fields, from + 1, msg);
    }
  }

  predicate RequiredMetUpTo(fields: seq<Field>, n: nat, msg: seq<Slot>)
    requires n <= |fields| && |msg| == SlotCount(fields)
  {
    n == 0 ||
    (SlotInRange(fields, n - 1, n - 1);
     RequiredMetUpTo(fields, n - 1, msg)
     && (Tracked(fields, n - 1) ==> Written(fields[n - 1], msg[SlotOf(fields, n - 1)])))
  }

  lemma {:induction false} CheckAfterLoop(fields: seq<Field>, from: nat, msg: seq<Slot>)
    requires from <= |fields| && |msg| == SlotCount(fields)
    ensures var log := LogUpTo(fields, |fields|, msg);
            RequiredMetUpTo(fields, from, msg) && RequiredMetFrom(fields, log, from)
            <==> RequiredMetUpTo(fields, |fields|, msg)
    decreases |fields| - from
  {
    if from < |fields| {
      LoggedIffWritten(fields, |fields|, msg, from);
      CheckAfterLoop(fields, from + 1, msg);
    }
  }

  /** Decoding what was encoded gives back the message over base, exactly when it is decodable. */
  lemma {:induction false} MessageRoundTrip(fields: seq<Field>, msg: seq<Slot>, base: seq<Slot>)
    requires WellFormed(fields) && |msg| == |base| == SlotCount(fields) && Fresh(fields, base)
    requires Encode(fields, msg).Some?
    ensures DecodeNoInit(fields, Encode(fields, msg).value, base)
            == if Decodable(fields, 0, msg) then Ok(Overlay(fields, |fields|, msg, base), []) else Fail
    decreases fields, 1
  {
    var bs := Encode(fields, msg).value;
    FieldsRoundTrip(fields, |fields|, msg, base, []);
    assert bs + [] == bs;
    DecodableSplits(fields, 0, msg);
    CheckAfterLoop(fields, 0, msg);
  }
}
