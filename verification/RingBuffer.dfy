/** The byte ring: free-running 32-bit indices over a buffer whose size is a power of two. */
module RingBuffer {
  import opened Bits

  // ---- Index arithmetic

  /** Bitwise and. */
  function BitAnd(a: nat, b: nat): nat {
    if a == 0 || b == 0 then 0
    else 2 * BitAnd(a / 2, b / 2) + (if a % 2 == 1 && b % 2 == 1 then 1 else 0)
  }

  predicate IsPowerOf2(x: nat) { x != 0 && BitAnd(x, x - 1) == 0 }

  function Add32(a: nat, b: nat): nat { (a + b) % U32 }
  function Sub32(a: nat, b: nat): nat { (a - b) % U32 }
  function Min(a: nat, b: nat): nat { if a < b then a else b }

  lemma {:induction false} AndSelf(h: nat)
    ensures BitAnd(h, h) == h
  {
    if h > 0 { AndSelf(h / 2); }
  }

  /** The test with the mask accepts powers of two only. */
  lemma {:induction false} PowerOf2(x: nat) returns (k: nat)
    requires IsPowerOf2(x)
    ensures x == Pow2(k)
  {
    if x == 1 {
      k := 0;
    } else if x % 2 == 1 {
      assert (x - 1) / 2 == x / 2;
      AndSelf(x / 2);
      assert false;
    } else {
      assert (x - 1) / 2 == x / 2 - 1;
      k := PowerOf2(x / 2);
      k := k + 1;
    }
  }

  /** And it accepts all of them. */
  lemma {:induction false} PowersPass(k: nat)
    ensures IsPowerOf2(Pow2(k))
  {
    if k > 0 {
      PowersPass(k - 1);
      assert (Pow2(k) - 1) / 2 == Pow2(k - 1) - 1;
    }
  }

  lemma ModTwice(x: nat, p: nat)
    requires p > 0
    ensures x % (2 * p) == 2 * ((x / 2) % p) + x % 2
  {
    var q, r := (x / 2) / p, (x / 2) % p;
    assert x == 2 * (p * q + r) + x % 2;
    assert x == (2 * p) * q + (2 * r + x % 2);
    DivModUnique(x, 2 * p, q, 2 * r + x % 2);
  }

  /** Masking with size - 1 is the remainder by size. */
  lemma {:induction false} MaskIsMod(x: nat, k: nat)
    ensures BitAnd(x, Pow2(k) - 1) == x % Pow2(k)
    decreases k
  {
    if k > 0 {
      MaskIsMod(x / 2, k - 1);
      ModTwice(x, Pow2(k - 1));
      if x > 0 {
        assert (Pow2(k) - 1) / 2 == Pow2(k - 1) - 1 && (Pow2(k) - 1) % 2 == 1;
      }
    }
  }

  lemma {:induction false} Pow2Splits(k: nat, n: nat)
    requires k <= n
    ensures Pow2(n) == Pow2(k) * Pow2(n - k)
    decreases n
  {
    if k < n {
      Pow2Splits(k, n - 1);
      assert Pow2(n) == 2 * (Pow2(k) * Pow2(n - 1 - k)) == Pow2(k) * (2 * Pow2(n - 1 - k));
    }
  }

  /** The size of a ring: a power of two that an unsigned int can hold. */
  ghost predicate GoodSize(size: nat) { size < U32 && IsPowerOf2(size) }

  lemma SizeDivides(size: nat) returns (m: nat)
    requires GoodSize(size)
    ensures m >= 2 && U32 == size * m
  {
    var k := PowerOf2(size);
    Pow2Values();
    if k > 32 { Pow2Monotone(32, k); }
    Pow2Splits(k, 32);
    m := Pow2(32 - k);
    assert m == 2 * Pow2(31 - k);
  }

  /** Where byte number p of the stream lives. */
  function Slot(p: nat, size: nat): (r: nat)
    requires size > 0
    ensures r < size
  {
    p % size
  }

  /** The masked 32-bit index is the slot of the free-running count, however often the index has wrapped. */
  lemma MaskedSlot(p: nat, size: nat)
    requires GoodSize(size)
    ensures BitAnd(p % U32, size - 1) == Slot(p, size)
  {
    var m := SizeDivides(size);
    var k := PowerOf2(size);
    MaskIsMod(p % U32, k);
    RemainderTwice(p, size, m);
  }

  /** The remainder by a multiple, and then by the number itself. */
  lemma RemainderTwice(p: nat, d: nat, m: nat)
    requires d > 0 && U32 == d * m
    ensures (p % U32) % d == p % d
  {
    var q, r := p / U32, p % U32;
    assert p == (d * m) * q + r && r == d * (r / d) + r % d;
    assert (d * m) * q == d * (m * q);
    assert p == d * (m * q + r / d) + r % d;
    DivModUnique(p, d, m * q + r / d, r % d);
  }

  lemma Advance(w: nat, len: nat)
    ensures Add32(w % U32, len) == (w + len) % U32
  {
    var q := (w + len) / U32 - w / U32;
    DivModUnique(w % U32 + len, U32, q, (w + len) % U32);
  }

  /** Slots do not notice the wrap. */
  lemma SameSlot(p: nat, k: nat, size: nat)
    requires GoodSize(size)
    ensures Slot(p % U32 + k, size) == Slot(p + k, size)
  {
    Advance(p, k);
    hide Slot, BitAnd, GoodSize;
    MaskedSlot(p + k, size);
    MaskedSlot(p % U32 + k, size);
  }

  lemma SlotsDiffer(p: nat, q: nat, size: nat)
    requires p < q < p + size
    ensures Slot(p, size) != Slot(q, size)
  {
    assert p == size * (p / size) + p % size && q == size * (q / size) + q % size;
    if p % size == q % size {
      SameMultiple(size, q / size, p / size, q - p);
    }
  }

  lemma SlotAfter(p: nat, j: nat, size: nat)
    requires j < size
    ensures Slot(p + j, size) == if j < size - Slot(p, size) then Slot(p, size) + j else j - (size - Slot(p, size))
  {
    var q, r := p / size, p % size;
    if j < size - r {
      DivModUnique(p + j, size, q, r + j);
    } else {
      assert p + j == size * (q + 1) + (r + j - size);
      DivModUnique(p + j, size, q + 1, r + j - size);
    }
  }

  /** Differences of counts survive the wrap of the indices. */
  lemma Distance(w: nat, r: nat, size: nat)
    requires r <= w <= r + size && size < U32
    ensures Sub32(w % U32, r % U32) == w - r
    ensures Add32(Sub32(size, w % U32), r % U32) == size - (w - r)
  {
    var a, b := w / U32, r / U32;
    DivModUnique(w % U32 - r % U32, U32, b - a, w - r);
    var c := (size - w % U32) / U32;
    assert size - w % U32 == U32 * c + Sub32(size, w % U32);
    DivModUnique(Sub32(size, w % U32) + r % U32, U32, a - b - c, size - (w - r));
  }

  /** The count that lies behind an index, taking the other index as its own count. */
  lemma IndexOfCount(i: nat, o: nat)
    requires i < U32 && o < U32
    ensures (o + Sub32(i, o)) % U32 == i && o % U32 == o
  {
  }

  /** The index of the j-th byte of a copy in two parts: up to the end of the buffer, then from its start. */
  function CopyIndex(at: nat, j: nat, size: nat, len: nat): nat
    requires size > 0
  {
    var start := BitAnd(at, size - 1);
    var l := if start <= size then Min(len, size - start) else len;
    if j < l then start + j else j - l
  }

  lemma CopyIndexIsSlot(p: nat, j: nat, size: nat, len: nat)
    requires GoodSize(size) && j < len <= size
    ensures CopyIndex(p % U32, j, size, len) == Slot(p + j, size)
  {
    MaskedSlot(p, size);
    SlotAfter(p, j, size);
  }

  /** The slots a copy of len bytes at count w fills are not those of the bytes still queued. */
  lemma QueuedUntouched(r: nat, w: nat, k: nat, size: nat, len: nat)
    requires r <= k < w && w + len <= r + size && size > 0
    ensures var start, i := Slot(w, size), Slot(k, size);
            var l := Min(len, size - start);
            !(start <= i < start + l) && !(i < len - l)
  {
    var start, i := Slot(w, size), Slot(k, size);
    var l := Min(len, size - start);
    if start <= i < start + l {
      SlotAfter(w, i - start, size);
      SlotsDiffer(k, w + (i - start), size);
    } else if i < len - l {
      SlotAfter(w, l + i, size);
      SlotsDiffer(k, w + l + i, size);
    }
  }

  /** n bytes from count r on. */
  ghost function Queued(buf: seq<byte>, r: nat, n: nat): (s: seq<byte>)
    requires |buf| > 0
    ensures |s| == n
  {
    seq(n, k requires 0 <= k => buf[Slot(r + k, |buf|)])
  }

  /** buf' is buf after data was copied in at start, in two parts if it reaches the end. */
  ghost predicate CopiedIn(buf: seq<byte>, buf': seq<byte>, start: nat, data: seq<byte>)
    requires start < |buf| && |data| <= |buf|
  {
    var l := Min(|data|, |buf| - start);
    && |buf'| == |buf|
    && (forall j :: 0 <= j < l ==> buf'[start + j] == data[j])
    && (forall j :: 0 <= j < |data| - l ==> buf'[j] == data[l + j])
    && (forall i :: |data| - l <= i < |buf| && !(start <= i < start + l) ==> buf'[i] == buf[i])
  }

  lemma PutAppends(buf: seq<byte>, buf': seq<byte>, r: nat, w: nat, data: seq<byte>)
    requires |buf| > 0 && r <= w && w + |data| <= r + |buf| && CopiedIn(buf, buf', Slot(w, |buf|), data)
    ensures Queued(buf', r, w + |data| - r) == Queued(buf, r, w - r) + data
  {
    hide Slot;
    var before, after := Queued(buf, r, w - r) + data, Queued(buf', r, w + |data| - r);
    forall k | 0 <= k < w - r + |data| ensures after[k] == before[k]
    {
      if k < w - r {
        QueuedUntouched(r, w, r + k, |buf|, |data|);
      } else {
        SlotAfter(w, k - (w - r), |buf|);
      }
    }
  }

  /** What a copy out of the buffer at start gets, in two parts if it reaches the end. */
  function CopiedOut(buf: seq<byte>, start: nat, len: nat): seq<byte>
    requires start < |buf| && len <= |buf|
  {
    var l := Min(len, |buf| - start);
    buf[start..start + l] + buf[..len - l]
  }

  lemma GetTakes(buf: seq<byte>, r: nat, n: nat, len: nat)
    requires |buf| > 0 && len <= n <= |buf|
    ensures Queued(buf, r, n) == CopiedOut(buf, Slot(r, |buf|), len) + Queued(buf, r + len, n - len)
  {
    hide Slot;
    var got := CopiedOut(buf, Slot(r, |buf|), len);
    forall k | 0 <= k < len ensures got[k] == buf[Slot(r + k, |buf|)] {
      SlotAfter(r, k, |buf|);
    }
  }

  /** The wrapped index will do in place of the count. */
  lemma QueuedWraps(buf: seq<byte>, r: nat, n: nat)
    requires GoodSize(|buf|)
    ensures Queued(buf, r % U32, n) == Queued(buf, r, n)
  {
    hide Slot;
    forall k | 0 <= k < n ensures Queued(buf, r % U32, n)[k] == Queued(buf, r, n)[k] { SameSlot(r, k, |buf|); }
  }

  /** What the indices of a ring say: where the copies start, and how much is free. */
  lemma Indices(i: nat, o: nat, size: nat)
    requires GoodSize(size) && i < U32 && o < U32 && Sub32(i, o) <= size
    ensures size > 0 && BitAnd(o, size - 1) == Slot(o, size) && BitAnd(i, size - 1) == Slot(o + Sub32(i, o), size)
    ensures Add32(Sub32(size, i), o) == size - Sub32(i, o)
  {
    hide Slot, BitAnd, IsPowerOf2;
    IndexOfCount(i, o);
    Distance(o + Sub32(i, o), o, size);
    MaskedSlot(o, size);
    MaskedSlot(o + Sub32(i, o), size);
  }

  lemma AfterPut(i: nat, o: nat, size: nat, len: nat)
    requires GoodSize(size) && i < U32 && o < U32 && Sub32(i, o) + len <= size
    ensures Add32(i, len) < U32 && Sub32(Add32(i, len), o) == Sub32(i, o) + len
  {
    IndexOfCount(i, o);
    Advance(o + Sub32(i, o), len);
    Distance(o + Sub32(i, o) + len, o, size);
  }

  lemma AfterGet(i: nat, o: nat, buf: seq<byte>, len: nat)
    requires GoodSize(|buf|) && i < U32 && o < U32 && len <= Sub32(i, o) <= |buf|
    ensures Add32(o, len) < U32 && Sub32(i, Add32(o, len)) == Sub32(i, o) - len
    ensures Queued(buf, Add32(o, len), Sub32(i, o) - len) == Queued(buf, o + len, Sub32(i, o) - len)
  {
    hide Queued, IsPowerOf2;
    IndexOfCount(i, o);
    Advance(o, len);
    Distance(o + Sub32(i, o), o + len, |buf|);
    QueuedWraps(buf, o + len, Sub32(i, o) - len);
  }

  // ---- The ring as an object, used by one thread at a time

  class Fifo {
    const buffer: array<byte>
    const size: nat
    var inIndex: nat
    var outIndex: nat

    ghost predicate Valid()
      reads this
    {
      GoodSize(size) && buffer.Length == size && inIndex < U32 && outIndex < U32 && Sub32(inIndex, outIndex) <= size
    }

    /** The bytes put and not yet got, oldest first. */
    ghost function Contents(): (s: seq<byte>)
      reads this, buffer
      requires Valid()
    {
      Queued(buffer[..], outIndex, Sub32(inIndex, outIndex))
    }

    constructor (size: nat)
      requires GoodSize(size)
      ensures Valid() && Contents() == [] && this.size == size && fresh(buffer)
    {
      this.buffer := new byte[size];
      this.size := size;
      inIndex, outIndex := 0, 0;
    }

    method Reset()
      requires Valid()
      modifies `inIndex, `outIndex
      ensures Valid() && Contents() == []
    {
      inIndex, outIndex := 0, 0;
    }

    method Len() returns (n: nat)
      requires Valid()
      ensures n == |Contents()|
    {
      n := Sub32(inIndex, outIndex);
    }

    /** As much of data as fits goes to the end of the contents. */
    method Put(data: seq<byte>) returns (len: nat)
      requires Valid()
      modifies `inIndex, buffer
      ensures Valid() && len == Min(|data|, size - |old(Contents())|)
      ensures Contents() == old(Contents()) + data[..len]
    {
      hide Slot, BitAnd, GoodSize, Queued, Add32, Sub32;
      ghost var n, before := Sub32(inIndex, outIndex), buffer[..];
      Indices(inIndex, outIndex, size);
      len := Min(|data|, Add32(Sub32(size, inIndex), outIndex));
      var start := BitAnd(inIndex, size - 1);
      var l := Min(len, size - start);
      forall i | 0 <= i < l {
        buffer[start + i] := data[i];
      }
      forall i | 0 <= i < len - l {
        buffer[i] := data[l + i];
      }
      PutAppends(before, buffer[..], outIndex, outIndex + n, data[..len]);
      AfterPut(inIndex, outIndex, size, len);
      inIndex := Add32(inIndex, len);
    }

    /** The oldest bytes, at most max of them, leave the contents. */
    method Get(max: nat) returns (data: seq<byte>)
      requires Valid()
      modifies `outIndex
      ensures Valid() && |data| == Min(max, |old(Contents())|)
      ensures old(Contents()) == data + Contents()
    {
      hide Slot, BitAnd, GoodSize, Queued, Add32, Sub32;
      ghost var n := Sub32(inIndex, outIndex);
      Indices(inIndex, outIndex, size);
      var len := Min(max, Sub32(inIndex, outIndex));
      var start := BitAnd(outIndex, size - 1);
      var l := Min(len, size - start);
      data := buffer[start..start + l] + buffer[..len - l];
      GetTakes(buffer[..], outIndex, n, len);
      assert data == CopiedOut(buffer[..], start, len);
      AfterGet(inIndex, outIndex, buffer[..], len);
      outIndex := Add32(outIndex, len);
    }
  }
}
