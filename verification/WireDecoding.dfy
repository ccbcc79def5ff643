/** The decoder against the published wire format, on all bytes and not only on those of the encoder. */
module WireDecoding {
  import opened Bits
  import opened Options
  import opened Schema
  import opened Varint
  import opened Encoding
  import opened Decoding
  import opened Presence
  import opened Wire

  // ---- Varints

  lemma {:induction false} VarintLoopReads(bs: seq<byte>, k: nat, acc: nat)
    requires k <= 10 && (k <= 9 ==> acc < Pow2(7 * k))
    ensures var p, r := ReadVarint(bs), Varint64From(bs, 7 * k, acc);
            && (r.Ok? <==> p.Ok? && |bs| - |p.rest| <= 10 - k)
            && (r.Ok? ==> r.rest == p.rest && r.v == (acc + Shl(p.v, 7 * k)) % U64)
    decreases |bs|
  {
    hide BitOr, Shl, Pow2;
    VarintShrinks(bs);
    if bs != [] && k <= 9 {
      hide Varint64From;
      Step64(bs, k, acc);
      var c := bs[0] % 128;
      var acc' := acc + Shl(Kept64(c, k), 7 * k);
      assert 7 * (k + 1) == 7 * k + 7;
      if bs[0] < 128 {
        LastGroup(acc, c, k);
      } else {
        VarintLoopReads(bs[1..], k + 1, acc');
        VarintShrinks(bs[1..]);
        if ReadVarint(bs).Ok? && k < 9 { MoreGroups(c, ReadVarint(bs[1..]).v, 7 * k); }
      }
    }
  }

  lemma LastGroup(acc: nat, c: nat, k: nat)
    requires k <= 9 && c < 128 && acc < Pow2(7 * k)
    ensures (acc + Shl(c, 7 * k)) % U64 == acc + Shl(Kept64(c, k), 7 * k)
  {
    hide BitOr, Shl, Pow2;
    Or64(acc, c, k);
    if k == 9 {
      ShlTo63(c);
      ShlTo63(c % 2);
      assert acc + Shl(c, 63) == acc + Shl(c % 2, 63) + U64 * (c / 2);
    }
  }

  lemma MoreGroups(c: nat, v: nat, n: nat)
    requires c < 128
    ensures Shl(c + 128 * v, n) == Shl(c, n) + Shl(v, n + 7)
  {
    hide Shl;
    SplitGroup(c + 128 * v, n);
  }

  /** The 64-bit decoder takes exactly the varints of at most ten bytes, and keeps 64 bits of their value. */
  lemma VarintIsPublished(bs: seq<byte>)
    ensures var p, r := ReadVarint(bs), Varint64(bs);
            && (r.Ok? <==> p.Ok? && |bs| - |p.rest| <= 10)
            && (r.Ok? ==> r.rest == p.rest && r.v == p.v % U64)
  {
    VarintLoopReads(bs, 0, 0);
  }

  // ---- Fixed-size words

  lemma {:induction false} WordIsPublished(bs: seq<byte>, n: nat)
    ensures ReadWord(bs, n).Ok? <==> n <= |bs|
    ensures n <= |bs| ==> ReadWord(bs, n) == Ok(FromLittleEndian(bs[..n]), bs[n..])
    decreases n
  {
    if n > 0 && bs != [] {
      WordIsPublished(bs[1..], n - 1);
      if n <= |bs| {
        assert bs[..n][1..] == bs[1..][..n - 1] && bs[n..] == bs[1..][n - 1..];
      }
    }
  }

  // ---- Numbers

  /** 64 bits of a varint as a number of type t that is stored in size bytes. */
  ghost predicate Stands(t: LType, size: nat, w: nat, i: int) {
    match t
    case LUvarint => i == w
    case LSvarint => (i >= 0 && w == 2 * i) || (i < 0 && w == 2 * (-i) - 1)
    case LVarint =>
      if size == 8 then -0x8000_0000_0000_0000 <= i < 0x8000_0000_0000_0000 && (i - w) % 0x1_0000_0000_0000_0000 == 0
      else -0x8000_0000 <= i < 0x8000_0000 && (i - w) % 0x1_0000_0000 == 0
    case _ => false
  }

  /** The integers of a type that fit size bytes. */
  ghost predicate Holds(t: LType, size: nat, i: int) {
    var unsigned := t.LUvarint?;
    match size
    case 1 => if unsigned then 0 <= i < 0x100 else -0x80 <= i < 0x80
    case 2 => if unsigned then 0 <= i < 0x1_0000 else -0x8000 <= i < 0x8000
    case 4 => if unsigned then 0 <= i < 0x1_0000_0000 else -0x8000_0000 <= i < 0x8000_0000
    case 8 => if unsigned then 0 <= i < 0x1_0000_0000_0000_0000 else -0x8000_0000_0000_0000 <= i < 0x8000_0000_0000_0000
    case _ => false
  }

  lemma SignedStands(w: nat, size: nat)
    ensures Stands(LVarint, size, w, Signed(w, if size == 8 then 8 else 4))
  {
    if size == 8 { SignedOf8(w); } else { SignedOf4(w); }
    hide Signed;
  }

  lemma SignedOf8(w: nat)
    ensures Signed(w, 8) == w - U64 * (w / U64) || Signed(w, 8) == w - U64 * (w / U64 + 1)
    ensures 0 - U63 <= Signed(w, 8) < U63
  {
  }

  lemma SignedOf4(w: nat)
    ensures Signed(w, 4) == w - U32 * (w / U32) || Signed(w, 4) == w - U32 * (w / U32 + 1)
    ensures 0 - U31 <= Signed(w, 4) < U31
  {
  }

  lemma HoldsIsFits(t: LType, size: nat, i: int)
    ensures Holds(t, size, i) <==> if t.LUvarint? then UnsignedFits(i, size) else SignedFits(i, size)
  {
  }

  /**
   * Integers: read from any varint of at most ten bytes whose value fits the field, and from nothing else;
   * the value is the one the published encoding gives, and reading stops right behind it.
   */
  lemma IntIsPublished(f: Field, bs: seq<byte>)
    requires f.ltype.LVarint? || f.ltype.LUvarint? || f.ltype.LSvarint?
    ensures var p, r := ReadItem(0, bs), DecodeScalar(f, bs);
            && (r.Ok? ==> p.Ok? && r.rest == p.rest && |bs| - |p.rest| <= 10 && r.v.Int?
                          && Stands(f.ltype, f.dataSize, p.v.v % 0x1_0000_0000_0000_0000, r.v.i)
                          && Holds(f.ltype, f.dataSize, r.v.i))
            && (p.Ok? && |bs| - |p.rest| <= 10 && r.Fail? ==>
                  forall i :: Stands(f.ltype, f.dataSize, p.v.v % 0x1_0000_0000_0000_0000, i) ==> !Holds(f.ltype, f.dataSize, i))
  {
    hide ReadVarint, Varint64;
    VarintIsPublished(bs);
    var p := ReadVarint(bs);
    if p.Ok? && |bs| - |p.rest| <= 10 {
      var w := p.v % U64;
      SignedStands(w, f.dataSize);
      hide Signed;
      forall i ensures Holds(f.ltype, f.dataSize, i) <==> if f.ltype.LUvarint? then UnsignedFits(i, f.dataSize) else SignedFits(i, f.dataSize) {
        HoldsIsFits(f.ltype, f.dataSize, i);
      }
      hide Holds, UnsignedFits, SignedFits;
      forall i, j ensures Stands(f.ltype, f.dataSize, w, i) && Stands(f.ltype, f.dataSize, w, j) ==> i == j {
        StandsOnce(f.ltype, f.dataSize, w, i, j);
      }
      if f.ltype.LSvarint? { assert Stands(f.ltype, f.dataSize, w, UnZigZag(w)); }
      if f.ltype.LUvarint? { assert Stands(f.ltype, f.dataSize, w, w); }
      hide Stands;
    }
  }

  lemma StandsOnce(t: LType, size: nat, w: nat, i: int, j: int)
    ensures Stands(t, size, w, i) && Stands(t, size, w, j) ==> i == j
  {
    if t.LVarint? && Stands(t, size, w, i) && Stands(t, size, w, j) {
      var m := if size == 8 then 0x1_0000_0000_0000_0000 else 0x1_0000_0000;
      assert (i - w) - (j - w) == m * ((i - w) / m - (j - w) / m);
    }
  }

  /** Fixed-size numbers: four or eight bytes, the least significant first. */
  lemma FixedIsPublished(f: Field, bs: seq<byte>)
    requires f.ltype.LFixed32? || f.ltype.LFixed64?
    ensures var wire := if f.ltype.LFixed32? then 5 else 1;
            match ReadItem(wire, bs)
            case Fail => DecodeScalar(f, bs).Fail?
            case Ok(item, rest) => DecodeScalar(f, bs) == Ok(Int(if item.Word4? then item.x else item.w), rest)
  {
    WordIsPublished(bs, if f.ltype.LFixed32? then 4 else 8);
  }

  // ---- Lengths and skipping

  lemma {:induction false} PrefixLoopReads(bs: seq<byte>, k: nat, word: nat)
    requires 1 <= k <= 4 && word < Pow2(7 * k) && ReadVarint(bs).Ok? && |bs| - |ReadVarint(bs).rest| <= 5 - k
    requires word + Shl(ReadVarint(bs).v, 7 * k) < U32
    ensures Varint32From(bs, 7 * k, word) == Ok(word + Shl(ReadVarint(bs).v, 7 * k), ReadVarint(bs).rest)
    decreases |bs|
  {
    hide BitOr, Shl, Pow2, Varint32From;
    Step32(bs, k, word);
    var c := bs[0] % 128;
    assert 7 * (k + 1) == 7 * k + 7;
    if k == 4 { ShlTo28(c); }
    if bs[0] >= 128 {
      VarintShrinks(bs[1..]);
      MoreGroups(c, ReadVarint(bs[1..]).v, 7 * k);
      SumBelow(word, c, 7 * k);
      PrefixLoopReads(bs[1..], k + 1, word + Shl(c, 7 * k));
    }
  }

  /** The fast decoder reads every varint of at most five bytes that fits 32 bits. */
  lemma PrefixIsPublished(bs: seq<byte>)
    requires ReadVarint(bs).Ok? && |bs| - |ReadVarint(bs).rest| <= 5 && ReadVarint(bs).v < U32
    ensures Varint32(bs) == ReadVarint(bs)
  {
    if bs[0] >= 128 {
      var v := ReadVarint(bs[1..]).v;
      ShlSeven(v, 0);
      Pow2Seven(0);
      PrefixLoopReads(bs[1..], 1, bs[0] % 128);
    }
  }

  lemma {:induction false} VarintTaken(bs: seq<byte>)
    ensures TakeVarint(bs).Ok? <==> ReadVarint(bs).Ok?
    ensures TakeVarint(bs).Ok? ==> TakeVarint(bs).rest == ReadVarint(bs).rest
  {
    if bs != [] && bs[0] >= 128 { VarintTaken(bs[1..]); }
  }

  /** An unknown field is skipped to the end of its item; wire types 3, 4, 6 and 7 have none. */
  lemma SkipIsPublished(wire: nat, bs: seq<byte>)
    ensures wire != 2 ==>
      (match ReadItem(wire, bs) case Fail => SkipField(wire, bs).Fail? case Ok(_, rest) => SkipField(wire, bs).Ok? && SkipField(wire, bs).rest == rest)
    ensures wire == 2 && ReadVarint(bs).Ok? && |bs| - |ReadVarint(bs).rest| <= 5 && ReadVarint(bs).v < U32 ==>
      (match ReadItem(2, bs) case Fail => SkipField(2, bs).Fail? case Ok(item, rest) => SkipField(2, bs) == Ok(item.b, rest))
  {
    hide ReadVarint, ReadWord, Varint32, TakeVarint;
    VarintTaken(bs);
    WordIsPublished(bs, 4);
    WordIsPublished(bs, 8);
    if ReadVarint(bs).Ok? && |bs| - |ReadVarint(bs).rest| <= 5 && ReadVarint(bs).v < U32 { PrefixIsPublished(bs); }
  }

  // ---- Arrays

  /** A number of the wire, read into a field. */
  ghost predicate Reads(f: Field, item: Item, v: Value) {
    v.Int? &&
    match f.ltype
    case LFixed32 => item.Word4? && v.i == item.x
    case LFixed64 => item.Word8? && v.i == item.w
    case _ =>
      item.Num? && Holds(f.ltype, f.dataSize, v.i) && Stands(f.ltype, f.dataSize, item.v % 0x1_0000_0000_0000_0000, v.i)
  }

  lemma NumberIsPublished(f: Field, bs: seq<byte>)
    requires Numeric(f.ltype) && DecodeScalar(f, bs).Ok?
    ensures var p, r := ReadItem(NumericWire(f.ltype), bs), DecodeScalar(f, bs);
            p.Ok? && p.rest == r.rest && Reads(f, p.v, r.v)
  {
    hide DecodeScalar, ReadVarint, ReadWord;
    if f.ltype.LFixed32? || f.ltype.LFixed64? { FixedIsPublished(f, bs); } else { IntIsPublished(f, bs); }
  }

  /** A packed array adds its numbers, in order, to what the array holds. */
  lemma {:induction false} PackedIsPublished(f: Field, bs: seq<byte>, items: seq<Value>)
    requires Numeric(f.ltype)
    ensures var r, ps := DecodePacked(f, bs, items), ReadItems(NumericWire(f.ltype), bs);
            r.Some? ==>
              && items <= r.value && ps.Some? && |r.value| == |items| + |ps.value|
              && forall j :: 0 <= j < |ps.value| ==> Reads(f, ps.value[j], r.value[|items| + j])
    decreases |bs|
  {
    hide DecodeScalar, ReadItem, Reads;
    if bs != [] && DecodePacked(f, bs, items).Some? {
      NumberIsPublished(f, bs);
      var r := DecodeScalar(f, bs);
      PackedIsPublished(f, r.rest, items + [r.v]);
    }
  }

  /** An array of numbers is accepted packed or one by one; either way it grows by what the record holds. */
  lemma ArrayGrows(f: Field, wire: nat, bs: seq<byte>, s: Slot)
    requires Numeric(f.ltype) && f.htype.Repeated? && f.atype.Static? && DecodeField(f, wire, bs, s).Ok?
    ensures var r := DecodeField(f, wire, bs, s);
            && r.v.Many? && ItemsOf(s) <= r.v.items
            && if wire == 2 then
                 exists body, ps ::
                   && TakeDelimited(bs) == Ok(body, r.rest) && ReadItems(NumericWire(f.ltype), body) == Some(ps)
                   && |r.v.items| == |ItemsOf(s)| + |ps|
                   && forall j :: 0 <= j < |ps| ==> Reads(f, ps[j], r.v.items[|ItemsOf(s)| + j])
               else
                 var p := ReadItem(NumericWire(f.ltype), bs);
                 && p.Ok? && p.rest == r.rest && |r.v.items| == |ItemsOf(s)| + 1
                 && Reads(f, p.v, r.v.items[|ItemsOf(s)|])
  {
    hide DecodeScalar, ReadItem, ReadItems, Reads, TakeDelimited, DecodePacked;
    if wire == 2 {
      var body := TakeDelimited(bs);
      PackedIsPublished(f, body.v, ItemsOf(s));
    } else {
      assert DecodeValue(f, bs, StartValue(f, Int(0))) == DecodeScalar(f, bs);
      NumberIsPublished(f, bs);
    }
  }

  // ---- Callbacks

  /**
   * A bound callback gets the bytes of a record: the bytes behind the length, or the raw bytes of a number, of
   * which a varint may have ten. An unbound one leaves the record to be skipped.
   */
  lemma HookIsPublished(wire: nat, bs: seq<byte>, s: Slot)
    requires s.Hook? && wire != 2
    ensures var p, r := ReadItem(wire, bs), DecodeHook(wire, bs, s);
            && (s.bundle.None? ==> (r.Ok? <==> p.Ok?) && (r.Ok? ==> r.v == s && r.rest == p.rest))
            && (s.bundle.Some? ==>
                  && (r.Ok? <==> p.Ok? && (wire == 0 ==> |bs| - |p.rest| <= 10))
                  && (r.Ok? ==> r.rest == p.rest && r.v.Hook? && r.v.bundle.Some? && bs == r.v.bundle.value + r.rest))
  {
    hide ReadVarint, ReadWord, TakeVarint;
    VarintTaken(bs);
    WordIsPublished(bs, 4);
    WordIsPublished(bs, 8);
  }
}
