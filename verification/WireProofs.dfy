/** The encoder writes the published wire format: a reader of records finds exactly the fields that are there. */
module WireProofs {
  import opened Bits
  import opened Options
  import opened Schema
  import opened Varint
  import opened Encoding
  import opened Decoding
  import opened Presence
  import opened Wire

  // ---- Numbers

  lemma {:induction false} VarintReads(v: nat, rest: seq<byte>)
    ensures ReadVarint(VarintBytes(v) + rest) == Ok(v, rest)
    decreases v
  {
    VarintHead(v);
    VarintSplit(v, rest);
    if v >= 128 { VarintReads(v / 128, rest); }
  }

  lemma {:induction false} WordReads(w: nat, n: nat, rest: seq<byte>)
    requires w < Pow256(n)
    ensures ReadWord(LittleEndian(w, n) + rest, n) == Ok(w, rest)
    decreases n
  {
    if n == 0 {
      assert LittleEndian(w, 0) + rest == rest;
    } else {
      var bs := LittleEndian(w, n) + rest;
      assert bs[0] == w % 256 && bs[1..] == LittleEndian(w / 256, n - 1) + rest;
      hide LittleEndian;
      WordReads(w / 256, n - 1, rest);
      assert w % 256 + 256 * (w / 256) == w;
    }
  }

  /** Keys with numerals: eight times the field number, plus 0, 1, 2 or 5. */
  lemma KeyReads(f: Field, rest: seq<byte>)
    ensures var wire := if Numeric(f.ltype) then NumericWire(f.ltype) else 2;
            ReadVarint(FieldTag(f) + rest) == Ok(8 * f.tag + wire, rest)
  {
    VarintReads(8 * f.tag + (if Numeric(f.ltype) then NumericWire(f.ltype) else 2), rest);
  }

  lemma PackedKeyReads(tag: nat, rest: seq<byte>)
    ensures ReadVarint(TagBytes(WT_STRING, tag) + rest) == Ok(8 * tag + 2, rest)
  {
    VarintReads(8 * tag + 2, rest);
  }

  lemma KeySplits(tag: nat, wire: nat)
    requires wire < 8
    ensures (8 * tag + wire) / 8 == tag && (8 * tag + wire) % 8 == wire
  {
  }

  lemma BytesRead(b: seq<byte>, rest: seq<byte>)
    ensures ReadItem(2, Delimited(b) + rest) == Ok(Bytes(b), rest)
  {
    assert Delimited(b) + rest == VarintBytes(|b|) + (b + rest);
    VarintReads(|b|, b + rest);
  }

  /** A number on the wire. */
  lemma NumberReads(f: Field, v: Value, rest: seq<byte>) returns (item: Item)
    requires Numeric(f.ltype) && EncodeScalar(f, v).Some?
    ensures ReadItem(NumericWire(f.ltype), EncodeScalar(f, v).value + rest) == Ok(item, rest)
    ensures v.Int? && NumericItem(f.ltype, v.i, item)
  {
    Words();
    if f.ltype.LFixed32? {
      WordReads(v.i, 4, rest);
      item := Word4(v.i);
    } else if f.ltype.LFixed64? {
      WordReads(v.i, 8, rest);
      item := Word8(v.i);
    } else {
      var n := if f.ltype.LVarint? then ToU64(v.i) else if f.ltype.LUvarint? then v.i else ZigZag(v.i);
      VarintReads(n, rest);
      item := Num(n);
    }
  }

  // ---- Reading looks no further than the record

  lemma {:induction false} VarintLocal(a: seq<byte>, b: seq<byte>)
    requires ReadVarint(a).Ok?
    ensures ReadVarint(a + b) == Ok(ReadVarint(a).v, ReadVarint(a).rest + b)
    decreases |a|
  {
    assert (a + b)[1..] == a[1..] + b;
    if a[0] >= 128 { VarintLocal(a[1..], b); }
  }

  lemma {:induction false} WordLocal(a: seq<byte>, n: nat, b: seq<byte>)
    requires ReadWord(a, n).Ok?
    ensures ReadWord(a + b, n) == Ok(ReadWord(a, n).v, ReadWord(a, n).rest + b)
    decreases n
  {
    if n > 0 {
      assert (a + b)[1..] == a[1..] + b;
      WordLocal(a[1..], n - 1, b);
    }
  }

  lemma ItemLocal(wire: nat, a: seq<byte>, b: seq<byte>)
    requires ReadItem(wire, a).Ok?
    ensures ReadItem(wire, a + b) == Ok(ReadItem(wire, a).v, ReadItem(wire, a).rest + b)
  {
    hide ReadVarint, ReadWord;
    if wire == 0 {
      VarintLocal(a, b);
    } else if wire == 1 {
      WordLocal(a, 8, b);
    } else if wire == 5 {
      WordLocal(a, 4, b);
    } else {
      VarintLocal(a, b);
      var n, rest := ReadVarint(a).v, ReadVarint(a).rest;
      assert (rest + b)[..n] == rest[..n] && (rest + b)[n..] == rest[n..] + b;
    }
  }

  lemma RecLocal(a: seq<byte>, b: seq<byte>)
    requires ReadRec(a).Ok?
    ensures ReadRec(a + b) == Ok(ReadRec(a).v, ReadRec(a).rest + b)
  {
    hide ReadVarint, ReadItem;
    VarintLocal(a, b);
    ItemLocal(ReadVarint(a).v % 8, ReadVarint(a).rest, b);
  }

  lemma {:induction false} ReadAllConcat(a: seq<byte>, b: seq<byte>)
    requires ReadAll(a).Some? && ReadAll(b).Some?
    ensures ReadAll(a + b) == Some(ReadAll(a).value + ReadAll(b).value)
    decreases |a|
  {
    hide ReadRec;
    if a == [] {
      assert a + b == b && ReadAll(a).value + ReadAll(b).value == ReadAll(b).value;
    } else {
      var r := ReadRec(a);
      RecLocal(a, b);
      RecShrinks(a);
      ReadAllConcat(r.rest, b);
      var more := ReadAll(r.rest).value;
      assert ReadAll(a).value == [r.v] + more;
      assert ReadAll(a + b) == Some([r.v] + (more + ReadAll(b).value));
      assert [r.v] + (more + ReadAll(b).value) == [r.v] + more + ReadAll(b).value;
    }
  }

  lemma {:induction false} ReadItemsConcat(wire: nat, a: seq<byte>, b: seq<byte>)
    requires ReadItems(wire, a).Some? && ReadItems(wire, b).Some?
    ensures ReadItems(wire, a + b) == Some(ReadItems(wire, a).value + ReadItems(wire, b).value)
    decreases |a|
  {
    hide ReadItem;
    if a == [] {
      assert a + b == b && ReadItems(wire, a).value + ReadItems(wire, b).value == ReadItems(wire, b).value;
    } else {
      ItemLocal(wire, a, b);
      var r := ReadItem(wire, a);
      ReadItemsConcat(wire, r.rest, b);
      var more := ReadItems(wire, r.rest).value;
      assert ReadItems(wire, a).value == [r.v] + more;
      assert ReadItems(wire, a + b) == Some([r.v] + (more + ReadItems(wire, b).value));
      assert [r.v] + (more + ReadItems(wire, b).value) == [r.v] + more + ReadItems(wire, b).value;
    }
  }

  /** A key and an item are one record. */
  lemma OneRecord(key: seq<byte>, body: seq<byte>, number: nat, wire: nat, item: Item)
    requires wire < 8 && key != [] && ReadVarint(key + body) == Ok(8 * number + wire, body)
    requires ReadItem(wire, body) == Ok(item, [])
    ensures ReadAll(key + body) == Some([Rec(number, wire, item)])
  {
    hide ReadVarint, ReadItem, ReadAll;
    KeySplits(number, wire);
    assert ReadRec(key + body) == Ok(Rec(number, wire, item), []);
    hide ReadRec;
    NothingElse(key + body, Rec(number, wire, item));
  }

  lemma NothingElse(bs: seq<byte>, r: Rec)
    requires bs != [] && ReadRec(bs) == Ok(r, [])
    ensures ReadAll(bs) == Some([r])
  {
    hide ReadRec;
    assert ReadAll([]) == Some([]);
    assert [r] + [] == [r];
  }

  // ---- Fields and messages

  /** A number behind its key is one record. */
  lemma NumberMeans(f: Field, v: Value) returns (r: Rec)
    requires Numeric(f.ltype) && EncodeScalar(f, v).Some?
    ensures ReadAll(FieldTag(f) + EncodeScalar(f, v).value) == Some([r]) && Means(f, v, r)
  {
    hide ReadVarint, ReadItem, ReadAll, EncodeScalar, FieldTag;
    var body := EncodeScalar(f, v).value;
    KeyReads(f, body);
    var item := NumberReads(f, v, []);
    assert body + [] == body;
    r := Rec(f.tag, NumericWire(f.ltype), item);
    OneRecord(FieldTag(f), body, f.tag, r.wire, item);
  }

  /** Bytes behind their key and length are one record. */
  lemma BytesMean(f: Field, b: seq<byte>)
    requires !Numeric(f.ltype)
    ensures ReadAll(FieldTag(f) + Delimited(b)) == Some([Rec(f.tag, 2, Bytes(b))])
  {
    hide ReadVarint, ReadItem, ReadAll, FieldTag, Delimited;
    KeyReads(f, Delimited(b));
    BytesRead(b, []);
    assert Delimited(b) + [] == Delimited(b);
    OneRecord(FieldTag(f), Delimited(b), f.tag, 2, Bytes(b));
  }

  lemma {:induction false} TaggedMeans(f: Field, v: Value) returns (r: Rec)
    requires WellFormedField(f) && EncodeTagged(f, v).Some?
    ensures ReadAll(EncodeTagged(f, v).value) == Some([r]) && Means(f, v, r)
    decreases f, 1
  {
    hide ReadAll, FieldTag, Delimited;
    if Numeric(f.ltype) {
      hide EncodeScalar;
      r := NumberMeans(f, v);
    } else if f.ltype.LSubmessage? {
      var sub := f.ltype.fields;
      var body := EncodeUpTo(sub, |sub|, v.slots).value;
      var rs := MessageReads(sub, |sub|, v.slots);
      hide EncodeUpTo;
      r := Rec(f.tag, 2, Bytes(body));
      BytesMean(f, body);
    } else {
      var b := if v.Blob? then v.b else v.s;
      r := Rec(f.tag, 2, Bytes(b));
      BytesMean(f, b);
    }
  }

  lemma {:induction false} PackedReads(f: Field, items: seq<Value>, n: nat) returns (parts: seq<Item>)
    requires Numeric(f.ltype) && n <= |items| && EncodePacked(f, items, n).Some?
    ensures ReadItems(NumericWire(f.ltype), EncodePacked(f, items, n).value) == Some(parts) && |parts| == n
    ensures forall j :: 0 <= j < n ==> items[j].Int? && NumericItem(f.ltype, items[j].i, parts[j])
    decreases n
  {
    hide ReadItem, EncodeScalar, NumericItem, NumericWire, Numeric;
    var wire := NumericWire(f.ltype);
    if n == 0 {
      parts := [];
    } else {
      hide ReadItems;
      var a, bs := EncodePacked(f, items, n - 1).value, EncodeScalar(f, items[n - 1]).value;
      assert EncodePacked(f, items, n).value == a + bs;
      hide EncodePacked;
      var before := PackedReads(f, items, n - 1);
      var item := NumberReads(f, items[n - 1], []);
      assert bs + [] == bs;
      NotEmpty(f, items[n - 1]);
      OneItem(wire, bs, item);
      ReadItemsConcat(wire, a, bs);
      parts := before + [item];
      forall j | 0 <= j < n ensures items[j].Int? && NumericItem(f.ltype, items[j].i, parts[j]) {
        assert parts[j] == if j < n - 1 then before[j] else item;
      }
    }
  }

  lemma NotEmpty(f: Field, v: Value)
    requires Numeric(f.ltype) && EncodeScalar(f, v).Some?
    ensures EncodeScalar(f, v).value != []
  {
    var item := NumberReads(f, v, []);
  }

  lemma OneItem(wire: nat, bs: seq<byte>, item: Item)
    requires ReadItem(wire, bs) == Ok(item, []) && bs != []
    ensures ReadItems(wire, bs) == Some([item])
  {
    hide ReadItem;
    assert ReadItems(wire, []) == Some([]);
    assert [item] + [] == [item];
  }

  lemma EmptyReads()
    ensures ReadAll([]) == Some([])
  {
  }

  lemma {:induction false} ItemsMean(f: Field, items: seq<Value>, n: nat) returns (rs: seq<Rec>)
    requires WellFormedField(f) && n <= |items| && EncodeItems(f, items, n).Some?
    ensures ReadAll(EncodeItems(f, items, n).value) == Some(rs) && |rs| == n
    ensures forall j :: 0 <= j < n ==> Means(f, items[j], rs[j])
    decreases f, 2, n
  {
    hide ReadAll, Means, EncodeTagged, WellFormedField;
    if n == 0 {
      EmptyReads();
      rs := [];
    } else {
      var a, b := EncodeItems(f, items, n - 1).value, EncodeTagged(f, items[n - 1]).value;
      assert EncodeItems(f, items, n).value == a + b;
      hide EncodeItems;
      var before := ItemsMean(f, items, n - 1);
      var r := TaggedMeans(f, items[n - 1]);
      ReadAllConcat(a, b);
      rs := before + [r];
      forall j | 0 <= j < n ensures Means(f, items[j], rs[j]) {
        assert rs[j] == if j < n - 1 then before[j] else r;
      }
    }
  }

  /** One field: the records a reader finds are those its slot stands for. */
  lemma {:induction false} FieldReads(f: Field, s: Slot) returns (rs: seq<Rec>)
    requires WellFormedField(f) && EncodeField(f, s).Some?
    ensures ReadAll(EncodeField(f, s).value) == Some(rs) && FieldMeans(f, s, rs)
    decreases f, 3
  {
    SaysIsPresent(f, s);
    hide Says, Present;
    if f.atype.Callback? {
      rs := HookReads(f, s);
    } else if f.htype.Repeated? {
      if s.items == [] {
        rs := [];
      } else if Numeric(f.ltype) {
        rs := PackedFieldReads(f, s.items);
      } else {
        rs := ItemsMean(f, s.items, |s.items|);
      }
    } else if Present(f, s) {
      var r := TaggedMeans(f, ValueOf(s));
      rs := [r];
    } else {
      rs := [];
    }
  }

  lemma HookReads(f: Field, s: Slot) returns (rs: seq<Rec>)
    requires WellFormedField(f) && f.atype.Callback? && EncodeField(f, s).Some?
    ensures ReadAll(EncodeField(f, s).value) == Some(rs) && FieldMeans(f, s, rs)
  {
    if s.bundle.None? {
      rs := [];
    } else {
      hide ReadAll, FieldTag, Delimited;
      var b := s.bundle.value;
      rs := [Rec(f.tag, 2, Bytes(b))];
      BytesMean(f, b);
    }
  }

  lemma PackedRecord(tag: nat, b: seq<byte>)
    ensures ReadAll(TagBytes(WT_STRING, tag) + Delimited(b)) == Some([Rec(tag, 2, Bytes(b))])
  {
    hide ReadVarint, ReadItem, ReadAll, TagBytes, Delimited;
    PackedKeyReads(tag, Delimited(b));
    BytesRead(b, []);
    assert Delimited(b) + [] == Delimited(b);
    OneRecord(TagBytes(WT_STRING, tag), Delimited(b), tag, 2, Bytes(b));
  }

  lemma PackedFieldReads(f: Field, items: seq<Value>) returns (rs: seq<Rec>)
    requires Numeric(f.ltype) && items != [] && EncodeArray(f, items).Some?
    ensures ReadAll(EncodeArray(f, items).value) == Some(rs) && |rs| == 1 && PackedMeans(f, items, rs[0])
  {
    hide ReadAll, ReadItems, TagBytes, Delimited, EncodePacked, NumericItem;
    var body := EncodePacked(f, items, |items|).value;
    var parts := PackedReads(f, items, |items|);
    PackedRecord(f.tag, body);
    rs := [Rec(f.tag, 2, Bytes(body))];
  }

  lemma {:induction false} MessageReads(fields: seq<Field>, n: nat, msg: seq<Slot>) returns (rs: seq<Rec>)
    requires n <= |fields| && |msg| == SlotCount(fields) && WellFormed(fields) && EncodeUpTo(fields, n, msg).Some?
    ensures ReadAll(EncodeUpTo(fields, n, msg).value) == Some(rs) && MessageMeans(fields, n, msg, rs)
    decreases fields, n
  {
    if n == 0 {
      rs := [];
    } else {
      hide ReadAll, FieldMeans, EncodeField, WellFormedField;
      SlotInRange(fields, n - 1, n - 1);
      var s := msg[SlotOf(fields, n - 1)];
      assert WellFormedField(fields[n - 1]);
      var before := MessageReads(fields, n - 1, msg);
      var own := FieldReads(fields[n - 1], s);
      ReadAllConcat(EncodeUpTo(fields, n - 1, msg).value, EncodeField(fields[n - 1], s).value);
      rs := before + own;
      assert rs[..|before|] == before && rs[|before|..] == own;
    }
  }

  /**
   * A reader of the published format, which knows nothing of the encoder, splits an encoded message into
   * records, and these are exactly the fields that are there, in descriptor order, with their values.
   */
  lemma WireIsPublished(fields: seq<Field>, msg: seq<Slot>)
    requires WellFormed(fields) && |msg| == SlotCount(fields) && Encode(fields, msg).Some?
    ensures ReadAll(Encode(fields, msg).value).Some?
    ensures MessageMeans(fields, |fields|, msg, ReadAll(Encode(fields, msg).value).value)
  {
    var _ := MessageReads(fields, |fields|, msg);
  }
}
