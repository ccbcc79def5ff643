/** Base-128 varints: the encoder, the 64-bit decoder and the fast 32-bit decoder. */
module Varint {
  import opened Bits

  /** The bytes of a varint: seven bits a byte, least significant first, top bit on all but the last. */
  function VarintBytes(v: nat): (bs: seq<byte>)
    ensures |bs| >= 1
  {
    if v < 128 then [v] else [v % 128 + 128] + VarintBytes(v / 128)
  }

  /** The 64-bit decoding loop, from bit position bitpos with acc read so far. */
  function Varint64From(bs: seq<byte>, bitpos: nat, acc: nat): (r: Parse<nat>)
    ensures r.Ok? ==> |r.rest| < |bs|
  {
    if bitpos >= 64 || bs == [] then Fail
    else
      var acc' := BitOr(acc, Shl(bs[0] % 128, bitpos) % U64);
      if bs[0] >= 128 then Varint64From(bs[1..], bitpos + 7, acc') else Ok(acc', bs[1..])
  }

  function Varint64(bs: seq<byte>): (r: Parse<nat>)
    ensures r.Ok? ==> |r.rest| < |bs|
  {
    Varint64From(bs, 0, 0)
  }

  /** One byte of the 32-bit loop: the word after it, or None on overflow. bitpos is an 8-bit counter. */
  function Accept32(b: byte, bitpos: nat, word: nat): (w: int)
    ensures w >= -1
  {
    if bitpos >= 32 then
      var signExtension := if bitpos < 63 then 0xFF else 0x01;
      if b % 128 != 0 && (word / U31 == 0 || b != signExtension) then -1 else word
    else BitOr(word, Shl(b % 128, bitpos) % U32)
  }

  function Varint32From(bs: seq<byte>, bitpos: nat, word: nat): (r: Parse<nat>)
    ensures r.Ok? ==> |r.rest| < |bs|
  {
    if bs == [] then Fail
    else
      var word' := Accept32(bs[0], bitpos, word);
      var bitpos' := (bitpos + 7) % U8;
      if word' < 0 then Fail
      else if bs[0] >= 128 then Varint32From(bs[1..], bitpos', word')
      else if bitpos' == 35 && bs[0] / 16 % 8 != 0 then Fail
      else Ok(word', bs[1..])
  }

  function Varint32(bs: seq<byte>): (r: Parse<nat>)
    ensures r.Ok? ==> |r.rest| < |bs|
  {
    if bs == [] then Fail
    else if bs[0] < 128 then Ok(bs[0], bs[1..])
    else Varint32From(bs[1..], 7, bs[0] % 128)
  }

  /** The map from signed to unsigned that keeps small magnitudes small. */
  function ZigZag(i: int): (z: nat)
  {
    if i < 0 then -2 * i - 1 else 2 * i
  }

  function UnZigZag(z: nat): (i: int)
  {
    if z % 2 == 1 then -(z / 2) - 1 else z / 2
  }

  lemma ZigZagInverse(i: int)
    ensures UnZigZag(ZigZag(i)) == i
    ensures 0 - U63 <= i < U63 <==> ZigZag(i) < U64
  {
  }

  lemma UnZigZagInverse(z: nat)
    ensures ZigZag(UnZigZag(z)) == z
  {
  }

  // ---- Length and shortness of the encoding

  /** The numbers that n seven-bit groups can hold. */
  function Groups(n: nat): nat { Pow2(7 * n) }

  lemma {:induction false} VarintLength(v: nat, n: nat)
    requires n >= 1
    ensures |VarintBytes(v)| <= n <==> v < Groups(n)
  {
    hide Pow2;
    Pow2Values();
    if n > 1 {
      Pow2Seven(7 * (n - 1));
      assert 7 * (n - 1) + 7 == 7 * n;
      if v >= 128 {
        VarintLength(v / 128, n - 1);
      } else {
        assert Groups(n) >= 128;
      }
    }
  }

  /** A uint64_t takes at most ten bytes. */
  lemma VarintAtMostTen(v: nat)
    requires v < U64
    ensures |VarintBytes(v)| <= 10
  {
    Pow2Values();
    Pow2Seven(63);
    VarintLength(v, 10);
  }

  // ---- What decoding accumulates. The k-th group sits at bit position 7 * k.

  /** How much of a seven-bit group survives the shift in a word of 64 bits. */
  function Kept64(c: nat, k: nat): nat { if k == 9 then c % 2 else c }

  /** The same in a word of 32 bits. */
  function Kept32(c: nat, k: nat): nat { if k == 4 then c % 16 else c }

  lemma ShlTo28(c: nat)
    ensures Shl(c, 7) == 0x80 * c && Shl(c, 14) == 0x4000 * c
    ensures Shl(c, 21) == 0x20_0000 * c && Shl(c, 28) == 0x1000_0000 * c
  {
    ShlSeven(c, 0); ShlSeven(c, 7); ShlSeven(c, 14); ShlSeven(c, 21);
  }

  lemma ShlTo63(c: nat)
    ensures Shl(c, 35) == 0x8_0000_0000 * c && Shl(c, 42) == 0x400_0000_0000 * c
    ensures Shl(c, 49) == 0x2_0000_0000_0000 * c && Shl(c, 56) == 0x100_0000_0000_0000 * c
    ensures Shl(c, 63) == U63 * c
  {
    ShlTo28(c);
    ShlSeven(c, 28); ShlSeven(c, 35); ShlSeven(c, 42); ShlSeven(c, 49); ShlSeven(c, 56);
  }

  lemma {:induction false} ShlUpTo(c: nat, k: nat, n: nat)
    requires k <= n
    ensures Shl(c, k) <= Shl(c, n)
  {
    if k < n { ShlUpTo(c, k, n - 1); }
  }

  lemma Trunc64(c: nat, k: nat)
    requires c < 128 && k <= 9
    ensures Shl(c, 7 * k) % U64 == Shl(Kept64(c, k), 7 * k)
  {
    hide Shl;
    ShlTo63(c);
    if k == 9 {
      ShlTo63(c % 2);
    } else {
      ShlUpTo(c, 7 * k, 56);
    }
  }

  lemma Trunc32(c: nat, k: nat)
    requires c < 128 && k <= 4
    ensures Shl(c, 7 * k) % U32 == Shl(Kept32(c, k), 7 * k)
  {
    hide Shl;
    ShlTo28(c);
    if k == 4 {
      ShlTo28(c % 16);
    } else {
      ShlUpTo(c, 7 * k, 21);
    }
  }

  /** A group above acc, together with acc, fills at most seven more bits. */
  lemma SumBelow(acc: nat, c: nat, bitpos: nat)
    requires c < 128 && acc < Pow2(bitpos)
    ensures acc + Shl(c, bitpos) < Pow2(bitpos + 7)
  {
    ShlLe(c, 127, bitpos);
    ShlAdd(127, 1, bitpos);
    ShlOne(bitpos);
    ShlOne(bitpos + 7);
    ShlSeven(1, bitpos);
  }

  lemma Pow2Below(k: nat, n: nat)
    requires k <= n
    ensures Pow2(k) <= Pow2(n)
  {
    if k < n { Pow2Monotone(k, n); }
  }

  lemma Or64(acc: nat, c: nat, k: nat)
    requires c < 128 && k <= 9 && acc < Pow2(7 * k)
    ensures BitOr(acc, Shl(c, 7 * k) % U64) == acc + Shl(Kept64(c, k), 7 * k)
    ensures acc + Shl(Kept64(c, k), 7 * k) < Pow2(7 * k + 7)
    ensures acc + Shl(Kept64(c, k), 7 * k) < U64
  {
    hide BitOr, Shl, Pow2;
    Trunc64(c, k);
    OrDisjoint(acc, Kept64(c, k), 7 * k);
    SumBelow(acc, Kept64(c, k), 7 * k);
    Pow2Values();
    if k == 9 {
      ShlTo63(c % 2);
    } else {
      Pow2Below(7 * k + 7, 63);
    }
  }

  lemma Or32(word: nat, c: nat, k: nat)
    requires c < 128 && k <= 4 && word < Pow2(7 * k)
    ensures BitOr(word, Shl(c, 7 * k) % U32) == word + Shl(Kept32(c, k), 7 * k)
    ensures word + Shl(Kept32(c, k), 7 * k) < U32
  {
    hide BitOr, Shl, Pow2;
    Trunc32(c, k);
    OrDisjoint(word, Kept32(c, k), 7 * k);
    Pow2Values();
    if k == 4 {
      ShlTo28(c % 16);
    } else {
      SumBelow(word, c, 7 * k);
      Pow2Below(7 * k + 7, 28);
    }
  }

  /** Splitting the low group off v, at bit position n. */
  lemma SplitGroup(v: nat, n: nat)
    ensures Shl(v, n) == Shl(v / 128, n + 7) + Shl(v % 128, n)
  {
    ShlSeven(v / 128, n);
    ShlAdd(128 * (v / 128), v % 128, n);
  }

  /** One step of the 64-bit loop, in terms of addition. */
  lemma Step64(bs: seq<byte>, k: nat, acc: nat)
    requires k <= 9 && acc < Pow2(7 * k) && bs != []
    ensures var acc' := acc + Shl(Kept64(bs[0] % 128, k), 7 * k);
            && acc' < Pow2(7 * k + 7) && acc' < U64
            && Varint64From(bs, 7 * k, acc)
               == if bs[0] >= 128 then Varint64From(bs[1..], 7 * k + 7, acc') else Ok(acc', bs[1..])
  {
    Or64(acc, bs[0] % 128, k);
  }

  /** One step of the 32-bit loop while groups still land in the word. */
  lemma Step32(bs: seq<byte>, k: nat, word: nat)
    requires k <= 4 && word < Pow2(7 * k) && bs != []
    ensures var word' := word + Shl(Kept32(bs[0] % 128, k), 7 * k);
            && word' < U32
            && Varint32From(bs, 7 * k, word)
               == if bs[0] >= 128 then Varint32From(bs[1..], 7 * k + 7, word')
                  else if k == 4 && bs[0] / 16 % 8 != 0 then Fail
                  else Ok(word', bs[1..])
  {
    Or32(word, bs[0] % 128, k);
    var word' := Accept32(bs[0], 7 * k, word);
    assert (7 * k + 7) % U8 == 7 * k + 7;
  }

  lemma GroupBits(v: nat)
    ensures (v % 128 + 128) % 128 == v % 128 && (v < 128 ==> v % 128 == v)
  {
  }

  lemma VarintHead(v: nat)
    ensures var bs := VarintBytes(v);
            && |bs| >= 1 && bs[0] % 128 == v % 128 && (bs[0] >= 128 <==> v >= 128)
            && bs[1..] == if v >= 128 then VarintBytes(v / 128) else []
  {
    GroupBits(v);
    if v >= 128 { assert VarintBytes(v)[1..] == VarintBytes(v / 128); }
  }

  lemma VarintSplit(v: nat, rest: seq<byte>)
    ensures var bs := VarintBytes(v) + rest;
            && bs[0] % 128 == v % 128
            && (bs[0] >= 128 <==> v >= 128)
            && bs[1..] == if v >= 128 then VarintBytes(v / 128) + rest else rest
  {
    hide VarintBytes;
    VarintHead(v);
    assert (VarintBytes(v) + rest)[1..] == VarintBytes(v)[1..] + rest;
  }

  // ---- Round trips

  lemma {:induction false} Varint64FromInverts(v: nat, rest: seq<byte>, k: nat, acc: nat)
    requires k <= 9 && acc < Pow2(7 * k) && Shl(v, 7 * k) < U64
    ensures Varint64From(VarintBytes(v) + rest, 7 * k, acc) == Ok(acc + Shl(v, 7 * k), rest)
    decreases v
  {
    hide BitOr, Shl, Pow2, Varint64From;
    assert k == 9 ==> v < 2 by { ShlTo63(v); }
    Step64(VarintBytes(v) + rest, k, acc);
    VarintSplit(v, rest);
    if v >= 128 {
      SplitGroup(v, 7 * k);
      assert 7 * (k + 1) == 7 * k + 7;
      Varint64FromInverts(v / 128, rest, k + 1, acc + Shl(v % 128, 7 * k));
    }
  }

  /** The 64-bit decoder inverts the encoder on every uint64_t, whatever follows. */
  lemma Varint64Inverts(v: nat, rest: seq<byte>)
    requires v < U64
    ensures Varint64(VarintBytes(v) + rest) == Ok(v, rest)
  {
    Varint64FromInverts(v, rest, 0, 0);
  }

  lemma {:induction false} Varint32FromInverts(v: nat, rest: seq<byte>, k: nat, word: nat)
    requires 1 <= k <= 4 && word < Pow2(7 * k) && Shl(v, 7 * k) < U32
    ensures Varint32From(VarintBytes(v) + rest, 7 * k, word) == Ok(word + Shl(v, 7 * k), rest)
    decreases v
  {
    hide BitOr, Shl, Pow2, Varint32From;
    assert k == 4 ==> v < 16 by { ShlTo28(v); }
    Step32(VarintBytes(v) + rest, k, word);
    VarintSplit(v, rest);
    if v >= 128 {
      SplitGroup(v, 7 * k);
      SumBelow(word, v % 128, 7 * k);
      assert 7 * (k + 1) == 7 * k + 7;
      Varint32FromInverts(v / 128, rest, k + 1, word + Shl(v % 128, 7 * k));
    }
  }

  /** The fast decoder inverts the encoder on every uint32_t, whatever follows. */
  lemma Varint32Inverts(v: nat, rest: seq<byte>)
    requires v < U32
    ensures Varint32(VarintBytes(v) + rest) == Ok(v, rest)
  {
    VarintSplit(v, rest);
    if v >= 128 {
      ShlSeven(v / 128, 0);
      Pow2Seven(0);
      Varint32FromInverts(v / 128, rest, 1, v % 128);
    }
  }

  // ---- The two decoders agree

  lemma AddMultiple(a: nat, m: nat)
    ensures (a + m * U32) % U32 == a % U32
  {
  }

  /** One more group keeps the 32-bit word equal to the low half of the 64-bit one. */
  lemma GroupAgreesLow(acc: nat, c: nat, k: nat)
    requires c < 128 && 1 <= k <= 4 && acc < Pow2(7 * k)
    ensures acc < U32
    ensures (acc + Shl(c, 7 * k)) % U32 == acc + Shl(Kept32(c, k), 7 * k)
  {
    hide Shl, Pow2;
    Pow2Values();
    if k < 4 {
      SumBelow(acc, c, 7 * k);
      Pow2Below(7 * k + 7, 28);
    } else {
      ShlTo28(c);
      ShlTo28(c % 16);
      AddMultiple(acc + Shl(c % 16, 28), c / 16);
    }
  }

  lemma GroupAgreesHigh(acc: nat, c: nat, k: nat)
    requires 5 <= k <= 9
    ensures (acc + Shl(c, 7 * k)) % U32 == acc % U32
  {
    hide Shl;
    ShlTo63(c);
    match k {
      case 5 => AddMultiple(acc, 0x8 * c);
      case 6 => AddMultiple(acc, 0x400 * c);
      case 7 => AddMultiple(acc, 0x2_0000 * c);
      case 8 => AddMultiple(acc, 0x100_0000 * c);
      case _ => AddMultiple(acc, U31 * c);
    }
  }

  /** What either loop has read after a byte that both accept. */
  lemma StepsAgree(b: byte, k: nat, acc: nat, word: nat)
    requires 1 <= k <= 9 && acc < Pow2(7 * k) && word == acc % U32
    ensures var word' := Accept32(b, 7 * k, word);
            word' >= 0 ==> word' == (acc + Shl(Kept64(b % 128, k), 7 * k)) % U32
  {
    hide BitOr, Shl, Pow2;
    if k <= 4 {
      GroupAgreesLow(acc, b % 128, k);
      Or32(word, b % 128, k);
    } else {
      GroupAgreesHigh(acc, Kept64(b % 128, k), k);
    }
  }

  lemma {:induction false} DecodersAgreeFrom(bs: seq<byte>, k: nat, acc: nat, word: nat)
    requires 1 <= k && (k <= 9 ==> acc < Pow2(7 * k) && word == acc % U32)
    ensures var r64 := Varint64From(bs, 7 * k, acc);
            var r32 := Varint32From(bs, 7 * k, word);
            r64.Ok? && r32.Ok? ==> r32.rest == r64.rest && r32.v == r64.v % U32
    decreases |bs|
  {
    hide BitOr, Shl, Pow2, Accept32;
    if k <= 9 && bs != [] {
      Step64(bs, k, acc);
      StepsAgree(bs[0], k, acc, word);
      var word' := Accept32(bs[0], 7 * k, word);
      assert (7 * k + 7) % U8 == 7 * k + 7 == 7 * (k + 1);
      if word' >= 0 && bs[0] >= 128 {
        DecodersAgreeFrom(bs[1..], k + 1, acc + Shl(Kept64(bs[0] % 128, k), 7 * k), word');
      }
    }
  }

  /**
   * Whenever both decoders accept the same bytes they consume the same number of them and agree
   * modulo 2^32. This covers the ten-byte sign-extended form of negative integers.
   */
  lemma DecodersAgree(bs: seq<byte>)
    requires Varint64(bs).Ok? && Varint32(bs).Ok?
    ensures Varint32(bs).rest == Varint64(bs).rest
    ensures Varint32(bs).v == Varint64(bs).v % U32
  {
    Step64(bs, 0, 0);
    if bs[0] >= 128 {
      DecodersAgreeFrom(bs[1..], 1, bs[0] % 128, bs[0] % 128);
    }
  }

  lemma {:induction false} Varint64FromBound(bs: seq<byte>, k: nat, acc: nat)
    requires k <= 9 ==> acc < Pow2(7 * k)
    ensures Varint64From(bs, 7 * k, acc).Ok? ==> Varint64From(bs, 7 * k, acc).v < U64
    decreases |bs|
  {
    if k <= 9 && bs != [] {
      Step64(bs, k, acc);
      if bs[0] >= 128 {
        assert 7 * (k + 1) == 7 * k + 7;
        Varint64FromBound(bs[1..], k + 1, acc + Shl(Kept64(bs[0] % 128, k), 7 * k));
      }
    }
  }

  /** What the 64-bit decoder reads is a uint64_t. */
  lemma Varint64Bound(bs: seq<byte>)
    ensures Varint64(bs).Ok? ==> Varint64(bs).v < U64
  {
    Varint64FromBound(bs, 0, 0);
  }

  /** n bytes, read from the k-th on, give a value of at most 7 * (k + n) bits. */
  lemma {:induction false} BitsConsumed(bs: seq<byte>, k: nat, acc: nat)
    requires k <= 9 ==> acc < Pow2(7 * k)
    ensures var r := Varint64From(bs, 7 * k, acc); r.Ok? ==> r.v < Groups(k + |bs| - |r.rest|)
    decreases |bs|
  {
    hide Pow2, Shl, BitOr;
    if k <= 9 && bs != [] {
      Step64(bs, k, acc);
      assert 7 * (k + 1) == 7 * k + 7;
      if bs[0] >= 128 {
        BitsConsumed(bs[1..], k + 1, acc + Shl(Kept64(bs[0] % 128, k), 7 * k));
      }
    }
  }

  /** Whatever bytes are accepted, the encoder's form of the value they mean is not longer. */
  lemma EncodingIsShortest(bs: seq<byte>)
    ensures Varint64(bs).Ok? ==> |VarintBytes(Varint64(bs).v)| <= |bs| - |Varint64(bs).rest|
  {
    var r := Varint64(bs);
    if r.Ok? {
      BitsConsumed(bs, 0, 0);
      VarintLength(r.v, |bs| - |r.rest|);
    }
  }

  // ---- Decoding looks no further than the varint

  lemma {:induction false} Varint64Local(bs: seq<byte>, more: seq<byte>, bitpos: nat, acc: nat)
    requires Varint64From(bs, bitpos, acc).Ok?
    ensures var r := Varint64From(bs, bitpos, acc);
            Varint64From(bs + more, bitpos, acc) == Ok(r.v, r.rest + more)
    decreases |bs|
  {
    assert (bs + more)[1..] == bs[1..] + more;
    if bs[0] >= 128 {
      Varint64Local(bs[1..], more, bitpos + 7, BitOr(acc, Shl(bs[0] % 128, bitpos) % U64));
    }
  }

  lemma {:induction false} Varint32FromLocal(bs: seq<byte>, more: seq<byte>, bitpos: nat, word: nat)
    requires Varint32From(bs, bitpos, word).Ok?
    ensures var r := Varint32From(bs, bitpos, word);
            Varint32From(bs + more, bitpos, word) == Ok(r.v, r.rest + more)
    decreases |bs|
  {
    assert (bs + more)[1..] == bs[1..] + more;
    if bs[0] >= 128 {
      Varint32FromLocal(bs[1..], more, (bitpos + 7) % U8, Accept32(bs[0], bitpos, word));
    }
  }

  lemma Varint32Local(bs: seq<byte>, more: seq<byte>)
    requires Varint32(bs).Ok?
    ensures Varint32(bs + more) == Ok(Varint32(bs).v, Varint32(bs).rest + more)
  {
    assert (bs + more)[1..] == bs[1..] + more;
    if bs[0] >= 128 {
      Varint32FromLocal(bs[1..], more, 7, bs[0] % 128);
    }
  }
}
