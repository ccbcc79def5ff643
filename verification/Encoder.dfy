/** The encoder as it runs: an output stream, or a stream that only counts, and the routines that write to it. */
module Encoder {
  import opened Bits
  import opened Options
  import opened Schema
  import opened Varint
  import opened Encoding
  import opened Iterator
  import opened Decoding

  class OStream {
    /** A sizing stream has no destination: it counts. */
    const sizing: bool
    const buf: array<byte>
    const origin: nat
    const maxSize: nat
    var state: nat
    var written: nat
    /** Everything written so far. */
    ghost var log: seq<byte>

    ghost predicate Valid()
      reads this, buf
    {
      && written == |log|
      && (sizing || (
            && written <= maxSize && origin + maxSize <= buf.Length
            && state == origin + written
            && forall i :: 0 <= i < written ==> buf[origin + i] == log[i]))
    }

    constructor Sizing()
      ensures Valid() && sizing && log == [] && fresh(buf)
    {
      sizing, origin, maxSize, state, written := true, 0, 0, 0, 0;
      buf := new byte[0];
      log := [];
    }

    constructor FromBuffer(buf: array<byte>, origin: nat, maxSize: nat)
      requires origin + maxSize <= buf.Length
      ensures Valid() && !sizing && log == []
      ensures this.buf == buf && this.origin == origin && this.maxSize == maxSize && state == origin
    {
      sizing, written := false, 0;
      this.buf, this.origin, this.maxSize, state := buf, origin, maxSize, origin;
      log := [];
    }

    /** There is room for n more bytes. */
    ghost predicate Room(n: nat)
      reads this
    {
      sizing || written + n <= maxSize
    }

    /** Nothing before the old cursor or beyond the end of the stream has changed. */
    twostate predicate Framed()
      reads this, buf
    {
      && old(state) <= state
      && (!sizing ==> forall i :: 0 <= i < buf.Length && (i < old(state) || origin + maxSize <= i) ==> buf[i] == old(buf[i]))
    }

    method Write(bs: seq<byte>) returns (ok: bool)
      requires Valid()
      modifies this, buf
      ensures Valid() && Framed()
      ensures ok == old(Room(|bs|))
      ensures ok ==> log == old(log) + bs
    {
      if !sizing {
        if written + |bs| > maxSize {
          return false;
        }
        var i := 0;
        while i < |bs|
          modifies buf
          invariant 0 <= i <= |bs|
          invariant forall j :: 0 <= j < i ==> buf[state + j] == bs[j]
          invariant forall j :: 0 <= j < buf.Length && !(state <= j < state + i) ==> buf[j] == old(buf[j])
        {
          buf[state + i] := bs[i];
          i := i + 1;
        }
        state := state + |bs|;
      }
      written := written + |bs|;
      log := log + bs;
      assert !sizing ==> forall i :: 0 <= i < written ==> buf[origin + i] == log[i] by {
        if !sizing {
          forall i | 0 <= i < written ensures buf[origin + i] == log[i] {
            if i < |old(log)| {
              assert old(buf[origin + i]) == old(log)[i];
            } else {
              assert buf[old(state) + (i - |old(log)|)] == bs[i - |old(log)|];
            }
          }
        }
      }
      return true;
    }

    /** Counting bytes without producing them. */
    method Count(n: nat, ghost bs: seq<byte>)
      requires Valid() && sizing && n == |bs|
      modifies this
      ensures Valid() && state == old(state) && log == old(log) + bs
    {
      written := written + n;
      log := log + bs;
    }
  }

  lemma VarintUnfolds(v: nat)
    ensures VarintBytes(v) == if v < 128 then [v] else [v % 128 + 128] + VarintBytes(v / 128)
  {
  }

  /** One more group in front of the rest. */
  lemma LongerByOne(done: seq<byte>, v: nat)
    ensures v >= 128 ==> done + VarintBytes(v) == done + [v % 128 + 128] + VarintBytes(v / 128)
    ensures v < 128 ==> done + VarintBytes(v) == done + [v]
    ensures |VarintBytes(v)| >= 1 && (v / 128 == 0 <==> v < 128) && v % 128 < 128 && (v < 128 ==> v % 128 == v)
  {
  }

  /** The varint loop: groups into a ten-byte buffer, then the continuation bit of the last one off. */
  method VarintBuffer(value: nat) returns (buffer: array<byte>, n: nat)
    requires 0x7F < value < U64
    ensures fresh(buffer) && n <= buffer.Length && buffer[..n] == VarintBytes(value)
  {
    hide VarintBytes;
    buffer := new byte[10](_ => 0);
    var v, i := value, 0;
    VarintAtMostTen(value);
    ghost var done: seq<byte> := [];
    while v != 0
      invariant 0 <= i == |done| <= 10 && (i == 0 ==> v == value) && buffer[..i] == done
      invariant v != 0 ==> VarintBytes(value) == done + VarintBytes(v)
      invariant v == 0 ==> i > 0 && done[i - 1] >= 128 && VarintBytes(value) == done[..i - 1] + [done[i - 1] - 128]
    {
      VarintUnfolds(v);
      LongerByOne(done, v);
      buffer[i] := v % 128 + 128;
      done := done + [buffer[i]];
      v := v / 128;
      i := i + 1;
    }
    buffer[i - 1] := buffer[i - 1] - 128;
    assert buffer[..i] == done[..i - 1] + [buffer[i - 1]];
    n := i;
  }

  method EncodeVarint(s: OStream, value: nat) returns (ok: bool)
    requires s.Valid() && value < U64
    modifies s, s.buf
    ensures s.Valid() && s.Framed()
    ensures ok == old(s.Room(|VarintBytes(value)|))
    ensures ok ==> s.log == old(s.log) + VarintBytes(value)
  {
    if value <= 0x7F {
      ok := s.Write([value]);
    } else {
      var buffer, n := VarintBuffer(value);
      ok := s.Write(buffer[..n]);
    }
  }

  method EncodeTag(s: OStream, wireType: nat, tag: nat) returns (ok: bool)
    requires s.Valid() && wireType < 8 && tag <= TAG_MAX
    modifies s, s.buf
    ensures s.Valid() && s.Framed()
    ensures ok == old(s.Room(|TagBytes(wireType, tag)|))
    ensures ok ==> s.log == old(s.log) + TagBytes(wireType, tag)
  {
    ok := EncodeVarint(s, 8 * tag + wireType);
  }

  /** A length prefix and the data. */
  method EncodeString(s: OStream, bs: seq<byte>) returns (ok: bool)
    requires s.Valid() && |bs| < U64
    modifies s, s.buf
    ensures s.Valid() && s.Framed()
    ensures ok == old(s.Room(|Delimited(bs)|))
    ensures ok ==> s.log == old(s.log) + Delimited(bs)
  {
    ok := EncodeVarint(s, |bs|);
    if ok {
      ok := s.Write(bs);
      assert old(s.log) + VarintBytes(|bs|) + bs == old(s.log) + Delimited(bs);
    }
  }

  /** The length of the string in a char buffer, or the whole buffer when no NUL ends it. */
  method StringLength(buffer: seq<byte>, maxSize: nat) returns (size: nat)
    requires maxSize <= |buffer|
    ensures size <= maxSize && buffer[..size] == CString(buffer[..maxSize])
    ensures size < maxSize ==> buffer[size] == 0
  {
    size := 0;
    while size < maxSize && buffer[size] != 0
      invariant 0 <= size <= maxSize
      invariant CString(buffer[..maxSize]) == buffer[..size] + CString(buffer[size..maxSize])
    {
      assert buffer[size..maxSize][1..] == buffer[size + 1..maxSize];
      assert buffer[..size + 1] == buffer[..size] + [buffer[size]];
      size := size + 1;
    }
  }

  /** A char buffer of the field's size holding s. */
  function CharBuffer(f: Field, s: seq<byte>): seq<byte>
    requires |s| <= f.dataSize
  {
    s + seq(f.dataSize - |s|, _ => 0)
  }

  lemma {:induction false} CStringOfBuffer(s: seq<byte>, n: nat)
    requires 0 !in s
    ensures CString(s + seq(n, _ => 0)) == s
    decreases |s|
  {
    var b := s + seq(n, _ => 0);
    if s != [] {
      assert b[1..] == s[1..] + seq(n, _ => 0);
      CStringOfBuffer(s[1..], n);
    }
  }

  /** One item that is not a submessage. */
  method EncodeScalarTo(s: OStream, f: Field, v: Value) returns (ok: bool)
    requires s.Valid() && WellFormedField(f)
    modifies s, s.buf
    ensures s.Valid() && s.Framed()
    ensures ok == (EncodeScalar(f, v).Some? && old(s.Room(|EncodeScalar(f, v).value|)))
    ensures ok ==> s.log == old(s.log) + EncodeScalar(f, v).value
  {
    hide VarintBytes, LittleEndian, Delimited;
    match (f.ltype, v) {
      case (LVarint, Int(i)) =>
        if !SignedFits(i, f.dataSize) { return false; }
        ok := EncodeVarint(s, ToU64(i));
      case (LUvarint, Int(i)) =>
        if !UnsignedFits(i, f.dataSize) { return false; }
        ok := EncodeVarint(s, i);
      case (LSvarint, Int(i)) =>
        if !SignedFits(i, f.dataSize) { return false; }
        ZigZagInverse(i);
        ok := EncodeVarint(s, ZigZag(i));
      case (LFixed32, Int(i)) =>
        if !UnsignedFits(i, 4) { return false; }
        ok := s.Write(LittleEndian(i, 4));
      case (LFixed64, Int(i)) =>
        if !UnsignedFits(i, 8) { return false; }
        ok := s.Write(LittleEndian(i, 8));
      case (LBytes, Blob(b)) =>
        if |b| + 1 > f.dataSize { return false; }
        ok := EncodeString(s, b);
      case (LString, Text(t)) =>
        if !HoldsText(f, t) { return false; }
        var buffer := CharBuffer(f, t);
        var n := StringLength(buffer, f.dataSize);
        CStringOfBuffer(t, f.dataSize - |t|);
        assert buffer[..f.dataSize] == buffer;
        ok := EncodeString(s, buffer[..n]);
      case (LFixedBytes, Blob(b)) =>
        if |b| != f.dataSize { return false; }
        ok := EncodeString(s, b);
      case _ =>
        return false;
    }
  }

  // ---- Prefixes of an encoding

  lemma {:induction false} EncodePrefix(fields: seq<Field>, m: nat, n: nat, msg: seq<Slot>)
    requires m <= n <= |fields| && |msg| == SlotCount(fields) && EncodeUpTo(fields, n, msg).Some?
    ensures EncodeUpTo(fields, m, msg).Some? && EncodeUpTo(fields, m, msg).value <= EncodeUpTo(fields, n, msg).value
    decreases n
  {
    if m < n { EncodePrefix(fields, m, n - 1, msg); }
  }

  lemma {:induction false} PackedPrefix(f: Field, items: seq<Value>, m: nat, n: nat)
    requires m <= n <= |items| && EncodePacked(f, items, n).Some?
    ensures EncodePacked(f, items, m).Some? && EncodePacked(f, items, m).value <= EncodePacked(f, items, n).value
    decreases n
  {
    if m < n { PackedPrefix(f, items, m, n - 1); }
  }

  lemma {:induction false} ItemsPrefix(f: Field, items: seq<Value>, m: nat, n: nat)
    requires m <= n <= |items| && EncodeItems(f, items, n).Some?
    ensures EncodeItems(f, items, m).Some? && EncodeItems(f, items, m).value <= EncodeItems(f, items, n).value
    decreases n
  {
    if m < n { ItemsPrefix(f, items, m, n - 1); }
  }

  /** Items of fixed width need no sizing pass. */
  lemma {:induction false} PackedFixedSize(f: Field, items: seq<Value>, n: nat)
    requires n <= |items| && EncodePacked(f, items, n).Some?
    ensures f.ltype.LFixed32? ==> |EncodePacked(f, items, n).value| == 4 * n
    ensures f.ltype.LFixed64? ==> |EncodePacked(f, items, n).value| == 8 * n
    decreases n
  {
    if n > 0 { PackedFixedSize(f, items, n - 1); }
  }

  // ---- Messages

  /**
   * Sizing first, then the length, then the same fields again into a stream of exactly that size.
   * The second pass always writes what the first one counted, so its size check never fires.
   */
  method EncodeSubmessage(s: OStream, fields: seq<Field>, msg: seq<Slot>) returns (ok: bool)
    requires s.Valid() && WellFormed(fields) && |msg| == SlotCount(fields)
    modifies s, s.buf
    ensures s.Valid() && s.Framed()
    ensures var e := Prefixed(Encode(fields, msg));
            ok == (e.Some? && old(s.Room(|e.value|))) && (ok ==> s.log == old(s.log) + e.value)
    decreases fields, 2
  {
    hide VarintBytes, Encode, WellFormedField, SlotCount;
    var sizer := new OStream.Sizing();
    ok := EncodeMessage(sizer, fields, msg);
    if !ok || sizer.written >= U32 {
      return false;
    }
    var size := sizer.written;
    ghost var body := Encode(fields, msg).value;
    ok := EncodeVarint(s, size);
    if !ok {
      return;
    }
    ghost var prefix := s.log;
    assert prefix + body == old(s.log) + Delimited(body);
    if s.sizing {
      s.Count(size, body);
      return true;
    }
    if s.written + size > s.maxSize {
      return false;
    }
    var sub := new OStream.FromBuffer(s.buf, s.state, size);
    label Inner:
    var status := EncodeMessage(sub, fields, msg);
    s.written := s.written + sub.written;
    s.state := sub.state;
    s.log := s.log + sub.log;
    assert sub.written == size;
    assert s.Valid() by {
      forall i | 0 <= i < s.written ensures s.buf[s.origin + i] == s.log[i] {
        if i < |prefix| {
          assert old@Inner(s.buf[s.origin + i]) == prefix[i];
        } else {
          assert sub.buf[sub.origin + (i - |prefix|)] == sub.log[i - |prefix|];
        }
      }
    }
    return status;
  }

  method EncodeValueTo(s: OStream, f: Field, v: Value) returns (ok: bool)
    requires s.Valid() && WellFormedField(f)
    modifies s, s.buf
    ensures s.Valid() && s.Framed()
    ensures var e := EncodeValue(f, v);
            ok == (e.Some? && old(s.Room(|e.value|))) && (ok ==> s.log == old(s.log) + e.value)
    decreases f, 0
  {
    if f.ltype.LSubmessage? {
      if !v.Msg? || |v.slots| != SlotCount(f.ltype.fields) {
        return false;
      }
      ok := EncodeSubmessage(s, f.ltype.fields, v.slots);
    } else {
      ok := EncodeScalarTo(s, f, v);
    }
  }

  method EncodeTaggedTo(s: OStream, f: Field, v: Value) returns (ok: bool)
    requires s.Valid() && WellFormedField(f)
    modifies s, s.buf
    ensures s.Valid() && s.Framed()
    ensures var e := EncodeTagged(f, v);
            ok == (e.Some? && old(s.Room(|e.value|))) && (ok ==> s.log == old(s.log) + e.value)
    decreases f, 1
  {
    ok := EncodeTag(s, WireType(f.ltype), f.tag);
    if ok {
      ok := EncodeValueTo(s, f, v);
      if ok {
        var body := EncodeValue(f, v).value;
        assert old(s.log) + FieldTag(f) + body == old(s.log) + (FieldTag(f) + body);
      }
    }
  }

  /** The items of a packed array, on either kind of stream. */
  method EncodePackedTo(s: OStream, f: Field, items: seq<Value>) returns (ok: bool)
    requires s.Valid() && WellFormedField(f)
    modifies s, s.buf
    ensures s.Valid() && s.Framed()
    ensures var e := EncodePacked(f, items, |items|);
            ok == (e.Some? && old(s.Room(|e.value|))) && (ok ==> s.log == old(s.log) + e.value)
  {
    hide EncodeScalar, WellFormedField;
    var i := 0;
    while i < |items|
      invariant 0 <= i <= |items|
      invariant s.Valid() && s.Framed()
      invariant EncodePacked(f, items, i).Some?
      invariant old(s.Room(|EncodePacked(f, items, i).value|))
      invariant s.log == old(s.log) + EncodePacked(f, items, i).value
    {
      ghost var e := EncodePacked(f, items, |items|);
      if e.Some? { PackedPrefix(f, items, i + 1, |items|); }
      ok := EncodeScalarTo(s, f, items[i]);
      if !ok {
        return false;
      }
      i := i + 1;
    }
    return true;
  }

  /** All items are 32- or 64-bit words, as the type of a fixed array guarantees. */
  predicate FixedItems(f: Field, items: seq<Value>) {
    EncodePacked(f, items, |items|).Some?
  }

  /** The size of a packed array: counted where the items vary in size. */
  method PackedSize(f: Field, items: seq<Value>) returns (ok: bool, size: nat)
    requires WellFormedField(f)
    ensures ok == EncodePacked(f, items, |items|).Some?
    ensures ok ==> size == |EncodePacked(f, items, |items|).value|
  {
    if f.ltype.LFixed32? || f.ltype.LFixed64? {
      ok := FixedItems(f, items);
      size := if f.ltype.LFixed32? then 4 * |items| else 8 * |items|;
      if ok { PackedFixedSize(f, items, |items|); }
    } else {
      var sizer := new OStream.Sizing();
      ok := EncodePackedTo(sizer, f, items);
      size := sizer.written;
    }
  }

  method EncodeItemsTo(s: OStream, f: Field, items: seq<Value>) returns (ok: bool)
    requires s.Valid() && WellFormedField(f)
    modifies s, s.buf
    ensures s.Valid() && s.Framed()
    ensures var e := EncodeItems(f, items, |items|);
            ok == (e.Some? && old(s.Room(|e.value|))) && (ok ==> s.log == old(s.log) + e.value)
    decreases f, 2
  {
    hide EncodeTagged, WellFormedField;
    var i := 0;
    while i < |items|
      invariant 0 <= i <= |items|
      invariant s.Valid() && s.Framed()
      invariant EncodeItems(f, items, i).Some?
      invariant old(s.Room(|EncodeItems(f, items, i).value|))
      invariant s.log == old(s.log) + EncodeItems(f, items, i).value
    {
      ghost var e := EncodeItems(f, items, |items|);
      if e.Some? { ItemsPrefix(f, items, i + 1, |items|); }
      ok := EncodeTaggedTo(s, f, items[i]);
      if !ok {
        return false;
      }
      i := i + 1;
    }
    return true;
  }

  /** Arrays are packed whenever the item type allows it. */
  method EncodeArrayTo(s: OStream, f: Field, items: seq<Value>) returns (ok: bool)
    requires s.Valid() && WellFormedField(f)
    modifies s, s.buf
    ensures s.Valid() && s.Framed()
    ensures var e := EncodeArray(f, items);
            ok == (e.Some? && old(s.Room(|e.value|))) && (ok ==> s.log == old(s.log) + e.value)
    decreases f, 3
  {
    if |items| == 0 {
      return true;
    }
    if |items| > f.arraySize {
      return false;
    }
    if !f.ltype.Packable() {
      ok := EncodeItemsTo(s, f, items);
      return;
    }
    ok := EncodeTag(s, WT_STRING, f.tag);
    if ok {
      ok := EncodePackedBody(s, f, items);
      if ok {
        var body := Prefixed(EncodePacked(f, items, |items|)).value;
        var tag := TagBytes(WT_STRING, f.tag);
        assert old(s.log) + tag + body == old(s.log) + (tag + body);
      }
    }
  }

  /** The length and the items of a packed array; a sizing stream just adds the length up. */
  method EncodePackedBody(s: OStream, f: Field, items: seq<Value>) returns (ok: bool)
    requires s.Valid() && WellFormedField(f)
    modifies s, s.buf
    ensures s.Valid() && s.Framed()
    ensures var e := Prefixed(EncodePacked(f, items, |items|));
            ok == (e.Some? && old(s.Room(|e.value|))) && (ok ==> s.log == old(s.log) + e.value)
  {
    var fits, size := PackedSize(f, items);
    if !fits || size >= U32 {
      return false;
    }
    ghost var body := EncodePacked(f, items, |items|).value;
    ok := EncodeVarint(s, size);
    if !ok {
      return;
    }
    assert s.log + body == old(s.log) + Delimited(body);
    if s.sizing {
      s.Count(size, body);
    } else {
      ok := EncodePackedTo(s, f, items);
    }
  }

  method EncodeFieldTo(s: OStream, f: Field, slot: Slot) returns (ok: bool)
    requires s.Valid() && WellFormedField(f)
    modifies s, s.buf
    ensures s.Valid() && s.Framed()
    ensures var e := EncodeField(f, slot);
            ok == (e.Some? && old(s.Room(|e.value|))) && (ok ==> s.log == old(s.log) + e.value)
    decreases f, 4
  {
    if f.atype.Callback? {
      ok := EncodeHookTo(s, f, slot);
    } else if f.htype.Repeated? {
      if !slot.Many? {
        return false;
      }
      ok := EncodeArrayTo(s, f, slot.items);
    } else if f.htype.Oneof? {
      if !slot.Union? {
        return false;
      }
      if slot.which == f.tag {
        ok := EncodeTaggedTo(s, f, slot.u);
      } else {
        ok := true;
      }
    } else {
      if !slot.One? {
        return false;
      }
      var has := if f.htype.Required? then true else if f.sizeOffset != 0 then slot.has else !IsZero(f, slot);
      if has {
        ok := EncodeTaggedTo(s, f, slot.v);
      } else {
        ok := true;
      }
    }
  }

  /** The bundle callback, if it is bound. */
  method EncodeHookTo(s: OStream, f: Field, slot: Slot) returns (ok: bool)
    requires s.Valid() && WellFormedField(f)
    modifies s, s.buf
    ensures s.Valid() && s.Framed()
    ensures var e := EncodeHook(f, slot);
            ok == (e.Some? && old(s.Room(|e.value|))) && (ok ==> s.log == old(s.log) + e.value)
  {
    if !slot.Hook? {
      return false;
    }
    if slot.bundle.None? {
      return true;
    }
    var b := slot.bundle.value;
    if |b| >= U32 {
      return false;
    }
    ok := EncodeTag(s, WireType(f.ltype), f.tag);
    if ok {
      ok := EncodeString(s, b);
      assert old(s.log) + FieldTag(f) + Delimited(b) == old(s.log) + (FieldTag(f) + Delimited(b));
    }
  }

  lemma NothingEncoded(fields: seq<Field>, msg: seq<Slot>)
    requires |msg| == SlotCount(fields)
    ensures EncodeUpTo(fields, 0, msg) == Some([])
  {
  }

  lemma OneMore(fields: seq<Field>, n: nat, msg: seq<Slot>)
    requires n < |fields| && |msg| == SlotCount(fields)
    ensures SlotOf(fields, n) < |msg|
    ensures var before, field := EncodeUpTo(fields, n, msg), EncodeField(fields[n], msg[SlotOf(fields, n)]);
            EncodeUpTo(fields, n + 1, msg)
            == if before.None? || field.None? then None else Some(before.value + field.value)
  {
    SlotInRange(fields, n, n);
  }

  /** All fields in descriptor order. */
  method EncodeMessage(s: OStream, fields: seq<Field>, msg: seq<Slot>) returns (ok: bool)
    requires s.Valid() && WellFormed(fields) && |msg| == SlotCount(fields)
    modifies s, s.buf
    ensures s.Valid() && s.Framed()
    ensures var e := Encode(fields, msg);
            ok == (e.Some? && old(s.Room(|e.value|))) && (ok ==> s.log == old(s.log) + e.value)
    decreases fields, 1
  {
    hide SlotOf, EncodeField, EncodeUpTo, DataAddress, SizeAddress, RequiredBefore, SlotCount, WellFormedField;
    NothingEncoded(fields, msg);
    var iter := new FieldIterator(fields, 0);
    if fields == [] {
      return true;
    }
    ghost var n := 0;
    var more := true;
    while more
      invariant 0 <= n <= |fields| && iter.Valid() && fresh(iter) && iter.fields == fields
      invariant if more then iter.pos == n < |fields| else n == |fields|
      invariant s.Valid() && s.Framed()
      invariant EncodeUpTo(fields, n, msg).Some?
      invariant old(s.Room(|EncodeUpTo(fields, n, msg).value|))
      invariant s.log == old(s.log) + EncodeUpTo(fields, n, msg).value
      decreases |fields| - n
    {
      OneMore(fields, n, msg);
      assert WellFormedField(fields[n]);
      ghost var e := Encode(fields, msg);
      if e.Some? { EncodePrefix(fields, n + 1, |fields|, msg); }
      ok := EncodeFieldTo(s, fields[iter.pos], msg[iter.slot]);
      if !ok {
        return false;
      }
      more := iter.Next();
      n := n + 1;
    }
    return true;
  }

  /** The sizing pass alone: exactly the number of bytes that would be written. */
  method GetEncodedSize(fields: seq<Field>, msg: seq<Slot>) returns (ok: bool, size: nat)
    requires WellFormed(fields) && |msg| == SlotCount(fields)
    ensures ok == Encode(fields, msg).Some?
    ensures ok ==> size == |Encode(fields, msg).value|
  {
    var s := new OStream.Sizing();
    ok := EncodeMessage(s, fields, msg);
    size := s.written;
  }
}
