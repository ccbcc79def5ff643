/** The checksums of two byte patterns of section B.4 of RFC 3720. */
module CrcVectors {
  import opened Crc

  /** One byte of a trace of the bitwise definition. */
  predicate Steps(s: seq<bv32>, data: seq<bv8>, i: nat)
    requires i < |data| < |s|
  {
    s[i + 1] == Shift8(Xor(s[i], data[i] as bv32))
  }

  /** A trace ends in the state the bytes lead to. */
  lemma {:induction false} TraceEnds(s: seq<bv32>, data: seq<bv8>)
    requires |s| == |data| + 1 && forall i :: 0 <= i < |data| ==> Steps(s, data, i)
    ensures Feed(s[0], data) == s[|data|]
    decreases |data|
  {
    hide Shift8, Xor;
    if data != [] {
      assert Steps(s, data, 0);
      forall i | 0 <= i < |data| - 1 ensures Steps(s[1..], data[1..], i) { assert Steps(s, data, i + 1); }
      TraceEnds(s[1..], data[1..]);
    }
  }

  lemma Zeros0()
    ensures Feed(0xFFFFFFFF, [0, 0, 0, 0]) == 0xB798B438
  {
    var s: seq<bv32> := [0xFFFFFFFF, 0xAD82ACAE, 0x0E9E882D, 0x9F9B5C85, 0xB798B438];
    var data: seq<bv8> := [0, 0, 0, 0];
    assert Steps(s, data, 0) && Steps(s, data, 1) && Steps(s, data, 2) && Steps(s, data, 3);
    hide Shift8, Xor;
    TraceEnds(s, data);
  }

  lemma Zeros1()
    ensures Feed(0xB798B438, [0, 0, 0, 0]) == 0x73D74D75
  {
    var s: seq<bv32> := [0xB798B438, 0xBA8D89CA, 0xA8D58375, 0x44C19592, 0x73D74D75];
    var data: seq<bv8> := [0, 0, 0, 0];
    assert Steps(s, data, 0) && Steps(s, data, 1) && Steps(s, data, 2) && Steps(s, data, 3);
    hide Shift8, Xor;
    TraceEnds(s, data);
  }

  lemma Zeros2()
    ensures Feed(0x73D74D75, [0, 0, 0, 0]) == 0xD49F4AA2
  {
    var s: seq<bv32> := [0x73D74D75, 0x441A975C, 0x1C220F94, 0x552E4907, 0xD49F4AA2];
    var data: seq<bv8> := [0, 0, 0, 0];
    assert Steps(s, data, 0) && Steps(s, data, 1) && Steps(s, data, 2) && Steps(s, data, 3);
    hide Shift8, Xor;
    TraceEnds(s, data);
  }

  lemma Zeros3()
    ensures Feed(0xD49F4AA2, [0, 0, 0, 0]) == 0xBD8F6515
  {
    var s: seq<bv32> := [0xD49F4AA2, 0x43A45A1B, 0x8994C80E, 0xACF12BEF, 0xBD8F6515];
    var data: seq<bv8> := [0, 0, 0, 0];
    assert Steps(s, data, 0) && Steps(s, data, 1) && Steps(s, data, 2) && Steps(s, data, 3);
    hide Shift8, Xor;
    TraceEnds(s, data);
  }

  lemma Zeros4()
    ensures Feed(0xBD8F6515, [0, 0, 0, 0]) == 0x433AA9C1
  {
    var s: seq<bv32> := [0xBD8F6515, 0x25125C16, 0x36DA32DB, 0x4A6C90A2, 0x433AA9C1];
    var data: seq<bv8> := [0, 0, 0, 0];
    assert Steps(s, data, 0) && Steps(s, data, 1) && Steps(s, data, 2) && Steps(s, data, 3);
    hide Shift8, Xor;
    TraceEnds(s, data);
  }

  lemma Zeros5()
    ensures Feed(0x433AA9C1, [0, 0, 0, 0]) == 0x7B041311
  {
    var s: seq<bv32> := [0x433AA9C1, 0x31A59F6E, 0xCD8F89DA, 0xB8FC461A, 0x7B041311];
    var data: seq<bv8> := [0, 0, 0, 0];
    assert Steps(s, data, 0) && Steps(s, data, 1) && Steps(s, data, 2) && Steps(s, data, 3);
    hide Shift8, Xor;
    TraceEnds(s, data);
  }

  lemma Zeros6()
    ensures Feed(0x7B041311, [0, 0, 0, 0]) == 0x08363896
  {
    var s: seq<bv32> := [0x7B041311, 0xE24E407F, 0x2F692669, 0x195B2188, 0x08363896];
    var data: seq<bv8> := [0, 0, 0, 0];
    assert Steps(s, data, 0) && Steps(s, data, 1) && Steps(s, data, 2) && Steps(s, data, 3);
    hide Shift8, Xor;
    TraceEnds(s, data);
  }

  lemma Zeros7()
    ensures Feed(0x08363896, [0, 0, 0, 0]) == 0x756EC955
  {
    var s: seq<bv32> := [0x08363896, 0xB4012DC7, 0x17F34302, 0xE12C83B4, 0x756EC955];
    var data: seq<bv8> := [0, 0, 0, 0];
    assert Steps(s, data, 0) && Steps(s, data, 1) && Steps(s, data, 2) && Steps(s, data, 3);
    hide Shift8, Xor;
    TraceEnds(s, data);
  }

  lemma ZerosFirst()
    ensures Feed(0xFFFFFFFF, [0, 0, 0, 0] + [0, 0, 0, 0] + [0, 0, 0, 0] + [0, 0, 0, 0]) == 0xBD8F6515
  {
    hide Feed;
    Zeros0(); Zeros1(); Zeros2(); Zeros3();
    FeedConcat(0xFFFFFFFF, [0, 0, 0, 0] + [0, 0, 0, 0] + [0, 0, 0, 0], [0, 0, 0, 0]);
    FeedConcat(0xFFFFFFFF, [0, 0, 0, 0] + [0, 0, 0, 0], [0, 0, 0, 0]);
    FeedConcat(0xFFFFFFFF, [0, 0, 0, 0], [0, 0, 0, 0]);
  }

  lemma ZerosLast()
    ensures Feed(0xBD8F6515, [0, 0, 0, 0] + [0, 0, 0, 0] + [0, 0, 0, 0] + [0, 0, 0, 0]) == 0x756EC955
  {
    hide Feed;
    Zeros4(); Zeros5(); Zeros6(); Zeros7();
    FeedConcat(0xBD8F6515, [0, 0, 0, 0] + [0, 0, 0, 0] + [0, 0, 0, 0], [0, 0, 0, 0]);
    FeedConcat(0xBD8F6515, [0, 0, 0, 0] + [0, 0, 0, 0], [0, 0, 0, 0]);
    FeedConcat(0xBD8F6515, [0, 0, 0, 0], [0, 0, 0, 0]);
  }

  /** Thirty-two zero bytes. */
  lemma Zeros()
    ensures Crc32c([0, 0, 0, 0, 0, 0, 0, 0, 0, 0, 0, 0, 0, 0, 0, 0,
                    0, 0, 0, 0, 0, 0, 0, 0, 0, 0, 0, 0, 0, 0, 0, 0]) == 0x8A9136AA
  {
    hide Feed;
    ZerosFirst(); ZerosLast();
    var a: seq<bv8>, b: seq<bv8> := [0, 0, 0, 0] + [0, 0, 0, 0] + [0, 0, 0, 0] + [0, 0, 0, 0], [0, 0, 0, 0] + [0, 0, 0, 0] + [0, 0, 0, 0] + [0, 0, 0, 0];
    FeedConcat(0xFFFFFFFF, a, b);
    assert a + b == [0, 0, 0, 0, 0, 0, 0, 0, 0, 0, 0, 0, 0, 0, 0, 0,
                     0, 0, 0, 0, 0, 0, 0, 0, 0, 0, 0, 0, 0, 0, 0, 0];
  }

  lemma Ascending0()
    ensures Feed(0xFFFFFFFF, [0, 1, 2, 3]) == 0x26CCE55C
  {
    var s: seq<bv32> := [0xFFFFFFFF, 0xAD82ACAE, 0xFCF50B2E, 0x6D02B405, 0x26CCE55C];
    var data: seq<bv8> := [0, 1, 2, 3];
    assert Steps(s, data, 0) && Steps(s, data, 1) && Steps(s, data, 2) && Steps(s, data, 3);
    hide Shift8, Xor;
    TraceEnds(s, data);
  }

  lemma Ascending1()
    ensures Feed(0x26CCE55C, [4, 5, 6, 7]) == 0x75D343C4
  {
    var s: seq<bv32> := [0x26CCE55C, 0xDBDA4EF9, 0xBEF67AEB, 0x5CA612B3, 0x75D343C4];
    var data: seq<bv8> := [4, 5, 6, 7];
    assert Steps(s, data, 0) && Steps(s, data, 1) && Steps(s, data, 2) && Steps(s, data, 3);
    hide Shift8, Xor;
    TraceEnds(s, data);
  }

  lemma Ascending2()
    ensures Feed(0x75D343C4, [8, 9, 10, 11]) == 0xAC7C5545
  {
    var s: seq<bv32> := [0x75D343C4, 0x8EBB3A57, 0xFDD3DECE, 0x04EA6205, 0xAC7C5545];
    var data: seq<bv8> := [8, 9, 10, 11];
    assert Steps(s, data, 0) && Steps(s, data, 1) && Steps(s, data, 2) && Steps(s, data, 3);
    hide Shift8, Xor;
    TraceEnds(s, data);
  }

  lemma Ascending3()
    ensures Feed(0xAC7C5545, [12, 13, 14, 15]) == 0x2636F714
  {
    var s: seq<bv32> := [0xAC7C5545, 0x3965BA25, 0xAA5DB3AB, 0x9710FC09, 0x2636F714];
    var data: seq<bv8> := [12, 13, 14, 15];
    assert Steps(s, data, 0) && Steps(s, data, 1) && Steps(s, data, 2) && Steps(s, data, 3);
    hide Shift8, Xor;
    TraceEnds(s, data);
  }

  lemma Ascending4()
    ensures Feed(0x2636F714, [16, 17, 18, 19]) == 0x33861419
  {
    var s: seq<bv32> := [0x2636F714, 0xC7BCA1E8, 0x8B1B0818, 0x6B693330, 0x33861419];
    var data: seq<bv8> := [16, 17, 18, 19];
    assert Steps(s, data, 0) && Steps(s, data, 1) && Steps(s, data, 2) && Steps(s, data, 3);
    hide Shift8, Xor;
    TraceEnds(s, data);
  }

  lemma Ascending5()
    ensures Feed(0x33861419, [20, 21, 22, 23]) == 0xD643786A
  {
    var s: seq<bv32> := [0x33861419, 0xBF1BCAC7, 0x32578A96, 0x82C46CF2, 0xD643786A];
    var data: seq<bv8> := [20, 21, 22, 23];
    assert Steps(s, data, 0) && Steps(s, data, 1) && Steps(s, data, 2) && Steps(s, data, 3);
    hide Shift8, Xor;
    TraceEnds(s, data);
  }

  lemma Ascending6()
    ensures Feed(0xD643786A, [24, 25, 26, 27]) == 0x9B21363E
  {
    var s: seq<bv32> := [0xD643786A, 0x90756782, 0x0BB1224B, 0xA345E8F2, 0x9B21363E];
    var data: seq<bv8> := [24, 25, 26, 27];
    assert Steps(s, data, 0) && Steps(s, data, 1) && Steps(s, data, 2) && Steps(s, data, 3);
    hide Shift8, Xor;
    TraceEnds(s, data);
  }

  lemma Ascending7()
    ensures Feed(0x9B21363E, [28, 29, 30, 31]) == 0xB92286B1
  {
    var s: seq<bv32> := [0x9B21363E, 0xC11DDF1F, 0xE1FA6D28, 0x16A35434, 0xB92286B1];
    var data: seq<bv8> := [28, 29, 30, 31];
    assert Steps(s, data, 0) && Steps(s, data, 1) && Steps(s, data, 2) && Steps(s, data, 3);
    hide Shift8, Xor;
    TraceEnds(s, data);
  }

  lemma AscendingFirst()
    ensures Feed(0xFFFFFFFF, [0, 1, 2, 3] + [4, 5, 6, 7] + [8, 9, 10, 11] + [12, 13, 14, 15]) == 0x2636F714
  {
    hide Feed;
    Ascending0(); Ascending1(); Ascending2(); Ascending3();
    FeedConcat(0xFFFFFFFF, [0, 1, 2, 3] + [4, 5, 6, 7] + [8, 9, 10, 11], [12, 13, 14, 15]);
    FeedConcat(0xFFFFFFFF, [0, 1, 2, 3] + [4, 5, 6, 7], [8, 9, 10, 11]);
    FeedConcat(0xFFFFFFFF, [0, 1, 2, 3], [4, 5, 6, 7]);
  }

  lemma AscendingLast()
    ensures Feed(0x2636F714, [16, 17, 18, 19] + [20, 21, 22, 23] + [24, 25, 26, 27] + [28, 29, 30, 31]) == 0xB92286B1
  {
    hide Feed;
    Ascending4(); Ascending5(); Ascending6(); Ascending7();
    FeedConcat(0x2636F714, [16, 17, 18, 19] + [20, 21, 22, 23] + [24, 25, 26, 27], [28, 29, 30, 31]);
    FeedConcat(0x2636F714, [16, 17, 18, 19] + [20, 21, 22, 23], [24, 25, 26, 27]);
    FeedConcat(0x2636F714, [16, 17, 18, 19], [20, 21, 22, 23]);
  }

  /** The bytes 0 to 31. */
  lemma Ascending()
    ensures Crc32c([0, 1, 2, 3, 4, 5, 6, 7, 8, 9, 10, 11, 12, 13, 14, 15,
                    16, 17, 18, 19, 20, 21, 22, 23, 24, 25, 26, 27, 28, 29, 30, 31]) == 0x46DD794E
  {
    hide Feed;
    AscendingFirst(); AscendingLast();
    var a: seq<bv8>, b: seq<bv8> := [0, 1, 2, 3] + [4, 5, 6, 7] + [8, 9, 10, 11] + [12, 13, 14, 15], [16, 17, 18, 19] + [20, 21, 22, 23] + [24, 25, 26, 27] + [28, 29, 30, 31];
    FeedConcat(0xFFFFFFFF, a, b);
    assert a + b == [0, 1, 2, 3, 4, 5, 6, 7, 8, 9, 10, 11, 12, 13, 14, 15,
                     16, 17, 18, 19, 20, 21, 22, 23, 24, 25, 26, 27, 28, 29, 30, 31];
  }
}
