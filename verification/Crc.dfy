/** The table-driven CRC32C against the bit-at-a-time definition of its reflected polynomial. */
module Crc {

  // ---- The definition

  const POLYNOMIAL: bv32 := 0x82F63B78

  function Xor(a: bv32, b: bv32): bv32 { a ^ b }

  /** One bit: shift right, and subtract the polynomial when a one falls out. */
  function Shift(c: bv32): bv32 {
    if c & 1 == 1 then (c >> 1) ^ POLYNOMIAL else c >> 1
  }

  function Shift8(c: bv32): bv32 {
    Shift(Shift(Shift(Shift(Shift(Shift(Shift(Shift(c))))))))
  }

  /** The state after the bytes of data, eight bit steps for each. */
  function Feed(c: bv32, data: seq<bv8>): bv32
    decreases |data|
  {
    if data == [] then c else Feed(Shift8(Xor(c, data[0] as bv32)), data[1..])
  }

  function Crc32c(data: seq<bv8>): bv32 { Xor(Feed(0xFFFFFFFF, data), 0xFFFFFFFF) }

  // ---- The table

  const ROW_0: seq<bv32> := [
    0x00000000, 0xF26B8303, 0xE13B70F7, 0x1350F3F4, 0xC79A971F, 0x35F1141C, 0x26A1E7E8, 0xD4CA64EB,
    0x8AD958CF, 0x78B2DBCC, 0x6BE22838, 0x9989AB3B, 0x4D43CFD0, 0xBF284CD3, 0xAC78BF27, 0x5E133C24]
  const ROW_1: seq<bv32> := [
    0x105EC76F, 0xE235446C, 0xF165B798, 0x030E349B, 0xD7C45070, 0x25AFD373, 0x36FF2087, 0xC494A384,
    0x9A879FA0, 0x68EC1CA3, 0x7BBCEF57, 0x89D76C54, 0x5D1D08BF, 0xAF768BBC, 0xBC267848, 0x4E4DFB4B]
  const ROW_2: seq<bv32> := [
    0x20BD8EDE, 0xD2D60DDD, 0xC186FE29, 0x33ED7D2A, 0xE72719C1, 0x154C9AC2, 0x061C6936, 0xF477EA35,
    0xAA64D611, 0x580F5512, 0x4B5FA6E6, 0xB93425E5, 0x6DFE410E, 0x9F95C20D, 0x8CC531F9, 0x7EAEB2FA]
  const ROW_3: seq<bv32> := [
    0x30E349B1, 0xC288CAB2, 0xD1D83946, 0x23B3BA45, 0xF779DEAE, 0x05125DAD, 0x1642AE59, 0xE4292D5A,
    0xBA3A117E, 0x4851927D, 0x5B016189, 0xA96AE28A, 0x7DA08661, 0x8FCB0562, 0x9C9BF696, 0x6EF07595]
  const ROW_4: seq<bv32> := [
    0x417B1DBC, 0xB3109EBF, 0xA0406D4B, 0x522BEE48, 0x86E18AA3, 0x748A09A0, 0x67DAFA54, 0x95B17957,
    0xCBA24573, 0x39C9C670, 0x2A993584, 0xD8F2B687, 0x0C38D26C, 0xFE53516F, 0xED03A29B, 0x1F682198]
  const ROW_5: seq<bv32> := [
    0x5125DAD3, 0xA34E59D0, 0xB01EAA24, 0x42752927, 0x96BF4DCC, 0x64D4CECF, 0x77843D3B, 0x85EFBE38,
    0xDBFC821C, 0x2997011F, 0x3AC7F2EB, 0xC8AC71E8, 0x1C661503, 0xEE0D9600, 0xFD5D65F4, 0x0F36E6F7]
  const ROW_6: seq<bv32> := [
    0x61C69362, 0x93AD1061, 0x80FDE395, 0x72966096, 0xA65C047D, 0x5437877E, 0x4767748A, 0xB50CF789,
    0xEB1FCBAD, 0x197448AE, 0x0A24BB5A, 0xF84F3859, 0x2C855CB2, 0xDEEEDFB1, 0xCDBE2C45, 0x3FD5AF46]
  const ROW_7: seq<bv32> := [
    0x7198540D, 0x83F3D70E, 0x90A324FA, 0x62C8A7F9, 0xB602C312, 0x44694011, 0x5739B3E5, 0xA55230E6,
    0xFB410CC2, 0x092A8FC1, 0x1A7A7C35, 0xE811FF36, 0x3CDB9BDD, 0xCEB018DE, 0xDDE0EB2A, 0x2F8B6829]
  const ROW_8: seq<bv32> := [
    0x82F63B78, 0x709DB87B, 0x63CD4B8F, 0x91A6C88C, 0x456CAC67, 0xB7072F64, 0xA457DC90, 0x563C5F93,
    0x082F63B7, 0xFA44E0B4, 0xE9141340, 0x1B7F9043, 0xCFB5F4A8, 0x3DDE77AB, 0x2E8E845F, 0xDCE5075C]
  const ROW_9: seq<bv32> := [
    0x92A8FC17, 0x60C37F14, 0x73938CE0, 0x81F80FE3, 0x55326B08, 0xA759E80B, 0xB4091BFF, 0x466298FC,
    0x1871A4D8, 0xEA1A27DB, 0xF94AD42F, 0x0B21572C, 0xDFEB33C7, 0x2D80B0C4, 0x3ED04330, 0xCCBBC033]
  const ROW_A: seq<bv32> := [
    0xA24BB5A6, 0x502036A5, 0x4370C551, 0xB11B4652, 0x65D122B9, 0x97BAA1BA, 0x84EA524E, 0x7681D14D,
    0x2892ED69, 0xDAF96E6A, 0xC9A99D9E, 0x3BC21E9D, 0xEF087A76, 0x1D63F975, 0x0E330A81, 0xFC588982]
  const ROW_B: seq<bv32> := [
    0xB21572C9, 0x407EF1CA, 0x532E023E, 0xA145813D, 0x758FE5D6, 0x87E466D5, 0x94B49521, 0x66DF1622,
    0x38CC2A06, 0xCAA7A905, 0xD9F75AF1, 0x2B9CD9F2, 0xFF56BD19, 0x0D3D3E1A, 0x1E6DCDEE, 0xEC064EED]
  const ROW_C: seq<bv32> := [
    0xC38D26C4, 0x31E6A5C7, 0x22B65633, 0xD0DDD530, 0x0417B1DB, 0xF67C32D8, 0xE52CC12C, 0x1747422F,
    0x49547E0B, 0xBB3FFD08, 0xA86F0EFC, 0x5A048DFF, 0x8ECEE914, 0x7CA56A17, 0x6FF599E3, 0x9D9E1AE0]
  const ROW_D: seq<bv32> := [
    0xD3D3E1AB, 0x21B862A8, 0x32E8915C, 0xC083125F, 0x144976B4, 0xE622F5B7, 0xF5720643, 0x07198540,
    0x590AB964, 0xAB613A67, 0xB831C993, 0x4A5A4A90, 0x9E902E7B, 0x6CFBAD78, 0x7FAB5E8C, 0x8DC0DD8F]
  const ROW_E: seq<bv32> := [
    0xE330A81A, 0x115B2B19, 0x020BD8ED, 0xF0605BEE, 0x24AA3F05, 0xD6C1BC06, 0xC5914FF2, 0x37FACCF1,
    0x69E9F0D5, 0x9B8273D6, 0x88D28022, 0x7AB90321, 0xAE7367CA, 0x5C18E4C9, 0x4F48173D, 0xBD23943E]
  const ROW_F: seq<bv32> := [
    0xF36E6F75, 0x0105EC76, 0x12551F82, 0xE03E9C81, 0x34F4F86A, 0xC69F7B69, 0xD5CF889D, 0x27A40B9E,
    0x79B737BA, 0x8BDCB4B9, 0x988C474D, 0x6AE7C44E, 0xBE2DA0A5, 0x4C4623A6, 0x5F16D052, 0xAD7D5351]

  /** The table by rows of sixteen. */
  const TABLE: seq<seq<bv32>> := [
    ROW_0, ROW_1, ROW_2, ROW_3, ROW_4, ROW_5, ROW_6, ROW_7,
    ROW_8, ROW_9, ROW_A, ROW_B, ROW_C, ROW_D, ROW_E, ROW_F]

  function Entry(h: nat, l: nat): bv32
    requires h < 16 && l < 16
  {
    TABLE[h][l]
  }

  function HighNibble(x: bv32): (h: nat)
    requires x < 256
    ensures h < 16
  {
    (x >> 4) as int
  }

  function LowNibble(x: bv32): (l: nat)
    requires x < 256
    ensures l < 16
  {
    (x & 0xF) as int
  }

  /** The entry for a byte value. */
  function Lookup(x: bv32): bv32
    requires x < 256
  {
    Entry(HighNibble(x), LowNibble(x))
  }

  // ---- The step is linear

  lemma ShiftLinear(x: bv32, y: bv32)
    ensures Shift(Xor(x, y)) == Xor(Shift(x), Shift(y))
  {
    hide Shift;
    ShiftAdds(x, y, Xor(x, y));
  }

  lemma ShiftAdds(x: bv32, y: bv32, z: bv32)
    requires z == x ^ y
    ensures Shift(z) == Shift(x) ^ Shift(y)
  {
    if x & 1 == 1 {
      if y & 1 == 1 { assert z & 1 != 1; } else { assert z & 1 == 1; }
    } else {
      if y & 1 == 1 { assert z & 1 == 1; } else { assert z & 1 != 1; }
    }
  }

  lemma Shift8Linear(x: bv32, y: bv32)
    ensures Shift8(Xor(x, y)) == Xor(Shift8(x), Shift8(y))
  {
    hide Shift, Xor;
    ShiftLinear(x, y);
    var x1, y1 := Shift(x), Shift(y); ShiftLinear(x1, y1);
    var x2, y2 := Shift(x1), Shift(y1); ShiftLinear(x2, y2);
    var x3, y3 := Shift(x2), Shift(y2); ShiftLinear(x3, y3);
    var x4, y4 := Shift(x3), Shift(y3); ShiftLinear(x4, y4);
    var x5, y5 := Shift(x4), Shift(y4); ShiftLinear(x5, y5);
    var x6, y6 := Shift(x5), Shift(y5); ShiftLinear(x6, y6);
    var x7, y7 := Shift(x6), Shift(y6); ShiftLinear(x7, y7);
  }

  // ---- Every entry of the table

  function Low(l: nat): bv32
    requires l < 16
  {
    l as bv32
  }

  function High(h: nat): bv32
    requires h < 16
  {
    (h as bv32) << 4
  }

  lemma FirstRowStart(l: nat)
    requires l < 8
    ensures ROW_0[l] == Shift8(Low(l))
  {
  }

  lemma FirstRowEnd(l: nat)
    requires 8 <= l < 16
    ensures ROW_0[l] == Shift8(Low(l))
  {
  }

  /** The lower nibble's share of an entry: the first row. */
  lemma FirstRow(l: nat)
    requires l < 16
    ensures ROW_0[l] == Shift8(Low(l))
  {
    hide Shift8, Low;
    if l < 8 { FirstRowStart(l); } else { FirstRowEnd(l); }
  }

  lemma Row0(l: nat)
    requires l < 16
    ensures ROW_0[l] == Xor(Shift8(0x00), ROW_0[l])
  {
    assert ROW_0[0] == Shift8(0x00);
  }

  lemma Row1(l: nat)
    requires l < 16
    ensures ROW_1[l] == Xor(Shift8(0x10), ROW_0[l])
  {
    assert ROW_1[0] == Shift8(0x10);
  }

  lemma Row2(l: nat)
    requires l < 16
    ensures ROW_2[l] == Xor(Shift8(0x20), ROW_0[l])
  {
    assert ROW_2[0] == Shift8(0x20);
  }

  lemma Row3(l: nat)
    requires l < 16
    ensures ROW_3[l] == Xor(Shift8(0x30), ROW_0[l])
  {
    assert ROW_3[0] == Shift8(0x30);
  }

  lemma Row4(l: nat)
    requires l < 16
    ensures ROW_4[l] == Xor(Shift8(0x40), ROW_0[l])
  {
    assert ROW_4[0] == Shift8(0x40);
  }

  lemma Row5(l: nat)
    requires l < 16
    ensures ROW_5[l] == Xor(Shift8(0x50), ROW_0[l])
  {
    assert ROW_5[0] == Shift8(0x50);
  }

  lemma Row6(l: nat)
    requires l < 16
    ensures ROW_6[l] == Xor(Shift8(0x60), ROW_0[l])
  {
    assert ROW_6[0] == Shift8(0x60);
  }

  lemma Row7(l: nat)
    requires l < 16
    ensures ROW_7[l] == Xor(Shift8(0x70), ROW_0[l])
  {
    assert ROW_7[0] == Shift8(0x70);
  }

  lemma Row8(l: nat)
    requires l < 16
    ensures ROW_8[l] == Xor(Shift8(0x80), ROW_0[l])
  {
    assert ROW_8[0] == Shift8(0x80);
  }

  lemma Row9(l: nat)
    requires l < 16
    ensures ROW_9[l] == Xor(Shift8(0x90), ROW_0[l])
  {
    assert ROW_9[0] == Shift8(0x90);
  }

  lemma RowA(l: nat)
    requires l < 16
    ensures ROW_A[l] == Xor(Shift8(0xA0), ROW_0[l])
  {
    assert ROW_A[0] == Shift8(0xA0);
  }

  lemma RowB(l: nat)
    requires l < 16
    ensures ROW_B[l] == Xor(Shift8(0xB0), ROW_0[l])
  {
    assert ROW_B[0] == Shift8(0xB0);
  }

  lemma RowC(l: nat)
    requires l < 16
    ensures ROW_C[l] == Xor(Shift8(0xC0), ROW_0[l])
  {
    assert ROW_C[0] == Shift8(0xC0);
  }

  lemma RowD(l: nat)
    requires l < 16
    ensures ROW_D[l] == Xor(Shift8(0xD0), ROW_0[l])
  {
    assert ROW_D[0] == Shift8(0xD0);
  }

  lemma RowE(l: nat)
    requires l < 16
    ensures ROW_E[l] == Xor(Shift8(0xE0), ROW_0[l])
  {
    assert ROW_E[0] == Shift8(0xE0);
  }

  lemma RowF(l: nat)
    requires l < 16
    ensures ROW_F[l] == Xor(Shift8(0xF0), ROW_0[l])
  {
    assert ROW_F[0] == Shift8(0xF0);
  }

  /** A byte value is its two nibbles. */
  lemma Nibbles(x: bv32)
    requires x < 256
    ensures x == Xor(High(HighNibble(x)), Low(LowNibble(x)))
  {
  }

  lemma Rows0(h: nat, l: nat)
    requires 0 <= h < 4 && l < 16
    ensures Entry(h, l) == Xor(Shift8(High(h)), ROW_0[l])
  {
    hide Shift8, Xor;
    match h {
      case 0 => Row0(l);
      case 1 => Row1(l);
      case 2 => Row2(l);
      case 3 => Row3(l);
    }
  }

  lemma Rows4(h: nat, l: nat)
    requires 4 <= h < 8 && l < 16
    ensures Entry(h, l) == Xor(Shift8(High(h)), ROW_0[l])
  {
    hide Shift8, Xor;
    match h {
      case 4 => Row4(l);
      case 5 => Row5(l);
      case 6 => Row6(l);
      case 7 => Row7(l);
    }
  }

  lemma Rows8(h: nat, l: nat)
    requires 8 <= h < 12 && l < 16
    ensures Entry(h, l) == Xor(Shift8(High(h)), ROW_0[l])
  {
    hide Shift8, Xor;
    match h {
      case 8 => Row8(l);
      case 9 => Row9(l);
      case 10 => RowA(l);
      case 11 => RowB(l);
    }
  }

  lemma Rows12(h: nat, l: nat)
    requires 12 <= h < 16 && l < 16
    ensures Entry(h, l) == Xor(Shift8(High(h)), ROW_0[l])
  {
    hide Shift8, Xor;
    match h {
      case 12 => RowC(l);
      case 13 => RowD(l);
      case 14 => RowE(l);
      case 15 => RowF(l);
    }
  }

  /** Every entry of the table is what eight bit steps make of its index. */
  lemma TableAgrees(x: bv32)
    requires x < 256
    ensures Lookup(x) == Shift8(x)
  {
    hide Shift8, Xor, High, Low, HighNibble, LowNibble, Entry;
    Nibbles(x);
    var h, l := HighNibble(x), LowNibble(x);
    if h < 4 { Rows0(h, l); } else if h < 8 { Rows4(h, l); } else if h < 12 { Rows8(h, l); } else { Rows12(h, l); }
    FirstRow(l);
    Shift8Linear(High(h), Low(l));
  }

  function LowByte(x: bv32): (r: bv32)
    ensures r < 256
  {
    x & 0xFF
  }

  function Rest(x: bv32): bv32 { x & 0xFFFFFF00 }
  function DropByte(x: bv32): bv32 { x >> 8 }

  /** Eight steps on a word whose low byte is clear only shift it. */
  lemma Shift8High(x: bv32)
    ensures Shift8(Rest(x)) == DropByte(x)
  {
  }

  lemma LowAndRest(x: bv32)
    ensures x == Xor(LowByte(x), Rest(x))
  {
  }

  lemma ByteBelow(c: bv32, b: bv32)
    requires b < 256
    ensures DropByte(Xor(c, b)) == DropByte(c)
  {
  }

  /** One round of the table method. */
  function Round(c: bv32, b: bv32): bv32 {
    Xor(Lookup(LowByte(Xor(c, b))), DropByte(c))
  }

  /** One round of the table method is eight bit steps. */
  lemma RoundAgrees(c: bv32, b: bv32)
    requires b < 256
    ensures Round(c, b) == Shift8(Xor(c, b))
  {
    hide Shift8, Lookup, Xor, LowByte, Rest, DropByte;
    var x := Xor(c, b);
    ByteBelow(c, b);
    TableAgrees(LowByte(x));
    Shift8High(x);
    LowAndRest(x);
    Shift8Linear(LowByte(x), Rest(x));
  }

  method CalculateCrc32(buffer: array<bv8>, size: nat) returns (crc: bv32)
    requires size <= buffer.Length
    ensures crc == Crc32c(buffer[..size])
  {
    hide Round, Shift8, Xor;
    var value: bv32 := 0xFFFFFFFF;
    var i := 0;
    while i < size
      invariant 0 <= i <= size
      invariant Feed(value, buffer[i..size]) == Feed(0xFFFFFFFF, buffer[..size])
    {
      RoundAgrees(value, buffer[i] as bv32);
      assert buffer[i..size][1..] == buffer[i + 1..size];
      value := Round(value, buffer[i] as bv32);
      i := i + 1;
    }
    crc := Xor(value, 0xFFFFFFFF);
  }

  // ---- Burst errors

  lemma ShiftInjective(x: bv32, y: bv32)
    requires Shift(x) == Shift(y)
    ensures x == y
  {
  }

  lemma Shift8Injective(x: bv32, y: bv32)
    requires Shift8(x) == Shift8(y)
    ensures x == y
  {
    hide Shift;
    var x1, y1 := Shift(x), Shift(y);
    var x2, y2 := Shift(x1), Shift(y1);
    var x3, y3 := Shift(x2), Shift(y2);
    var x4, y4 := Shift(x3), Shift(y3);
    var x5, y5 := Shift(x4), Shift(y4);
    var x6, y6 := Shift(x5), Shift(y5);
    var x7, y7 := Shift(x6), Shift(y6);
    ShiftInjective(x7, y7); ShiftInjective(x6, y6); ShiftInjective(x5, y5); ShiftInjective(x4, y4);
    ShiftInjective(x3, y3); ShiftInjective(x2, y2); ShiftInjective(x1, y1); ShiftInjective(x, y);
  }

  lemma {:induction false} FeedConcat(c: bv32, a: seq<bv8>, b: seq<bv8>)
    ensures Feed(c, a + b) == Feed(Feed(c, a), b)
    decreases |a|
  {
    hide Shift8, Xor;
    if a == [] {
      assert a + b == b;
    } else {
      assert (a + b)[1..] == a[1..] + b;
      FeedConcat(Shift8(Xor(c, a[0] as bv32)), a[1..], b);
    }
  }

  lemma XorCancels(c: bv32, d: bv32, b: bv32)
    requires c != d
    ensures Xor(c, b) != Xor(d, b)
  {
  }

  /** Different states stay different, whatever the bytes. */
  lemma {:induction false} FeedInjective(c: bv32, d: bv32, data: seq<bv8>)
    requires c != d
    ensures Feed(c, data) != Feed(d, data)
    decreases |data|
  {
    hide Shift8, Xor;
    if data != [] {
      var x, y := Xor(c, data[0] as bv32), Xor(d, data[0] as bv32);
      XorCancels(c, d, data[0] as bv32);
      if Shift8(x) == Shift8(y) { Shift8Injective(x, y); }
      FeedInjective(Shift8(x), Shift8(y), data[1..]);
    }
  }

  /** The bytes of a and b xor-ed, first byte lowest. */
  function Difference(a: seq<bv8>, b: seq<bv8>): bv32
    requires |a| == |b| <= 4
  {
    if a == [] then 0
    else Under(Xor(a[0] as bv32, b[0] as bv32), Difference(a[1..], b[1..]))
  }

  /** e in the low byte, w above it. */
  function Under(e: bv32, w: bv32): bv32 { e ^ (w << 8) }

  function Limit(n: nat): bv32
    requires n <= 4
  {
    if n == 0 then 0 else if n == 1 then 0xFF else if n == 2 then 0xFFFF else if n == 3 then 0xFF_FFFF else 0xFFFF_FFFF
  }

  /** A difference of n bytes has 8n bits. */
  lemma {:induction false} DifferenceFits(a: seq<bv8>, b: seq<bv8>)
    requires |a| == |b| <= 4
    ensures Difference(a, b) <= Limit(|a|)
  {
    hide Xor, Under;
    if a != [] {
      DifferenceFits(a[1..], b[1..]);
      ByteXor(a[0], b[0]);
      UnderFits(Xor(a[0] as bv32, b[0] as bv32), Difference(a[1..], b[1..]), |a|);
    }
  }

  lemma ByteXor(a: bv8, b: bv8)
    ensures Xor(a as bv32, b as bv32) < 256
    ensures Xor(a as bv32, b as bv32) == 0 <==> a == b
  {
  }

  lemma UnderFits(e: bv32, w: bv32, n: nat)
    requires 0 < n <= 4 && e < 256 && w <= Limit(n - 1)
    ensures Under(e, w) <= Limit(n)
  {
  }

  /** Eight steps undo the move above a zero byte. */
  lemma StepsUndo(w: bv32)
    requires w <= 0xFF_FFFF
    ensures Shift8(Under(0, w)) == w
  {
  }

  lemma UnderZero(e: bv32, w: bv32)
    requires e < 256 && w <= 0xFF_FFFF
    ensures Under(e, w) == Xor(e, Under(0, w))
    ensures Under(e, w) == 0 <==> e == 0 && w == 0
  {
  }

  lemma XorShuffle(a: bv32, b: bv32, c: bv32)
    ensures Xor(Xor(a, b), c) == Xor(a, Xor(b, c)) && Xor(a, b) == Xor(b, a) && Xor(a, Xor(a, b)) == b
  {
  }

  lemma XorFour(c: bv32, a: bv32, d: bv32, b: bv32, u: bv32)
    requires Xor(Xor(c, a), Xor(d, b)) == u
    ensures Xor(c, d) == Xor(Xor(a, b), u)
  {
    hide Xor;
    calc {
      Xor(Xor(a, b), u);
      { XorShuffle(a, b, u); }
      Xor(a, Xor(b, u));
      { XorShuffle(Xor(c, a), d, b); XorShuffle(b, Xor(Xor(c, a), d), b); XorShuffle(b, Xor(Xor(c, a), d), a); }
      Xor(a, Xor(Xor(c, a), d));
      { XorShuffle(a, c, d); XorShuffle(c, a, d); XorShuffle(a, Xor(c, d), d); XorShuffle(c, d, a); }
      Xor(a, Xor(a, Xor(c, d)));
      { XorShuffle(a, Xor(c, d), d); }
      Xor(c, d);
    }
  }

  lemma XorSame(x: bv32, y: bv32)
    ensures Xor(x, y) == 0 <==> x == y
  {
  }

  /** Two runs over at most four bytes that end in the same state started as far apart as the bytes differ. */
  lemma {:induction false} FourBytes(c: bv32, d: bv32, a: seq<bv8>, b: seq<bv8>)
    requires |a| == |b| <= 4 && Feed(c, a) == Feed(d, b)
    ensures Xor(c, d) == Difference(a, b)
    decreases |a|
  {
    hide Shift8, Xor, Under;
    if a == [] {
      XorSame(c, d);
    } else {
      var a0, b0 := a[0] as bv32, b[0] as bv32;
      var x, y, w := Xor(c, a0), Xor(d, b0), Difference(a[1..], b[1..]);
      FourBytes(Shift8(x), Shift8(y), a[1..], b[1..]);
      Shift8Linear(x, y);
      DifferenceFits(a[1..], b[1..]);
      LimitGrows(|a| - 1);
      StepsUndo(w);
      Shift8Injective(Xor(x, y), Under(0, w));
      XorFour(c, a0, d, b0, Under(0, w));
      ByteXor(a[0], b[0]);
      UnderZero(Xor(a0, b0), w);
    }
  }

  lemma LimitGrows(n: nat)
    requires n <= 3
    ensures Limit(n) <= 0xFF_FFFF
  {
  }

  lemma {:induction false} NoDifference(a: seq<bv8>, b: seq<bv8>)
    requires |a| == |b| <= 4 && Difference(a, b) == 0
    ensures a == b
  {
    hide Xor, Under;
    if a != [] {
      ByteXor(a[0], b[0]);
      DifferenceFits(a[1..], b[1..]);
      LimitGrows(|a| - 1);
      UnderZero(Xor(a[0] as bv32, b[0] as bv32), Difference(a[1..], b[1..]));
      NoDifference(a[1..], b[1..]);
      assert a == [a[0]] + a[1..] && b == [b[0]] + b[1..];
    }
  }

  /** Two buffers that differ, but only inside one window of at most four bytes, have different checksums. */
  lemma BurstDetected(before: seq<bv8>, a: seq<bv8>, b: seq<bv8>, after: seq<bv8>)
    requires |a| == |b| <= 4 && a != b
    ensures Crc32c(before + a + after) != Crc32c(before + b + after)
  {
    hide Xor, Feed;
    var c := Feed(0xFFFFFFFF, before);
    FeedConcat(0xFFFFFFFF, before + a, after);
    FeedConcat(0xFFFFFFFF, before, a);
    FeedConcat(0xFFFFFFFF, before + b, after);
    FeedConcat(0xFFFFFFFF, before, b);
    if Feed(c, a) == Feed(c, b) {
      FourBytes(c, c, a, b);
      XorSame(c, c);
      NoDifference(a, b);
    }
    FeedInjective(Feed(c, a), Feed(c, b), after);
    XorCancels(Feed(0xFFFFFFFF, before + a + after), Feed(0xFFFFFFFF, before + b + after), 0xFFFFFFFF);
  }
}
