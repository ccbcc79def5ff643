/** Unsigned machine words as natural numbers: powers of two, bitwise or, single bits. */
module Bits {

  type byte = b: int | 0 <= b < 256

  const U8: nat := 0x100
  const U31: nat := 0x8000_0000
  const U32: nat := 0x1_0000_0000
  const U63: nat := 0x8000_0000_0000_0000
  const U64: nat := 0x1_0000_0000_0000_0000

  /** The outcome of reading something off the front of a byte sequence. */
  datatype Parse<+T> = Ok(v: T, rest: seq<byte>) | Fail

  function Pow2(n: nat): (p: nat)
    ensures p >= 1
  {
    if n == 0 then 1 else 2 * Pow2(n - 1)
  }

  /** A left shift by n. */
  function Shl(c: nat, n: nat): nat {
    if n == 0 then c else 2 * Shl(c, n - 1)
  }

  /** Bitwise or. */
  function BitOr(a: nat, b: nat): nat {
    if a == 0 then b
    else if b == 0 then a
    else 2 * BitOr(a / 2, b / 2) + (if a % 2 == 1 || b % 2 == 1 then 1 else 0)
  }

  /** Bit number k of w. */
  predicate Bit(w: nat, k: nat) {
    if k == 0 then w % 2 == 1 else Bit(w / 2, k - 1)
  }

  /** Or-ing bits above position k into a word below 2^k is addition. */
  lemma {:induction false} OrDisjoint(a: nat, b: nat, k: nat)
    requires a < Pow2(k)
    ensures BitOr(a, Shl(b, k)) == a + Shl(b, k)
  {
    if k > 0 {
      OrDisjoint(a / 2, b, k - 1);
    }
  }

  lemma {:induction false} ShlAdd(a: nat, b: nat, n: nat)
    ensures Shl(a + b, n) == Shl(a, n) + Shl(b, n)
  {
    if n > 0 { ShlAdd(a, b, n - 1); }
  }

  lemma {:induction false} ShlLe(a: nat, b: nat, n: nat)
    requires a <= b
    ensures Shl(a, n) <= Shl(b, n)
  {
    if n > 0 { ShlLe(a, b, n - 1); }
  }

  lemma {:induction false} ShlOne(n: nat)
    ensures Shl(1, n) == Pow2(n)
  {
    if n > 0 { ShlOne(n - 1); }
  }

  lemma {:induction false} ShlDouble(c: nat, n: nat)
    ensures Shl(2 * c, n) == 2 * Shl(c, n)
  {
    if n > 0 { ShlDouble(c, n - 1); }
  }

  lemma ShlSeven(c: nat, n: nat)
    ensures Shl(c, n + 7) == 128 * Shl(c, n) == Shl(128 * c, n)
  {
    assert Shl(c, n + 1) == 2 * Shl(c, n) && Shl(c, n + 2) == 2 * Shl(c, n + 1);
    assert Shl(c, n + 3) == 2 * Shl(c, n + 2) && Shl(c, n + 4) == 2 * Shl(c, n + 3);
    assert Shl(c, n + 5) == 2 * Shl(c, n + 4) && Shl(c, n + 6) == 2 * Shl(c, n + 5);
    ShlDouble(c, n); ShlDouble(2 * c, n); ShlDouble(4 * c, n); ShlDouble(8 * c, n);
    ShlDouble(16 * c, n); ShlDouble(32 * c, n); ShlDouble(64 * c, n);
  }

  /** Or-ing 2^k into a word sets bit k and leaves the other bits alone. */
  lemma {:induction false} OrPow2Sets(a: nat, k: nat, j: nat)
    ensures Bit(BitOr(a, Pow2(k)), j) <==> j == k || Bit(a, j)
  {
    if a == 0 {
      Pow2Bit(k, j);
      ZeroBit(j);
    } else if k == 0 {
      assert BitOr(a / 2, 0) == a / 2;
      if j > 0 {
        assert BitOr(a, 1) / 2 == BitOr(a / 2, 0);
      }
    } else {
      assert Pow2(k) / 2 == Pow2(k - 1) && Pow2(k) % 2 == 0;
      if j > 0 {
        OrPow2Sets(a / 2, k - 1, j - 1);
      }
    }
  }

  lemma {:induction false} ZeroBit(j: nat)
    ensures !Bit(0, j)
  {
    if j > 0 { ZeroBit(j - 1); }
  }

  lemma {:induction false} Pow2Bit(k: nat, j: nat)
    ensures Bit(Pow2(k), j) <==> j == k
  {
    if k == 0 {
      if j > 0 { ZeroBit(j - 1); }
    } else if j > 0 {
      Pow2Bit(k - 1, j - 1);
    }
  }

  /** Or-ing 2^k, with k below n, into an n-bit word stays within n bits. */
  lemma {:induction false} OrPow2Bound(a: nat, k: nat, n: nat)
    requires a < Pow2(n) && k < n
    ensures BitOr(a, Pow2(k)) < Pow2(n)
  {
    if a == 0 {
      Pow2Monotone(k, n);
    } else if k > 0 {
      OrPow2Bound(a / 2, k - 1, n - 1);
    } else {
      assert BitOr(a / 2, 0) == a / 2;
    }
  }

  lemma {:induction false} Pow2Monotone(k: nat, n: nat)
    requires k < n
    ensures 2 * Pow2(k) <= Pow2(n)
  {
    if k + 1 < n { Pow2Monotone(k, n - 1); }
  }

  lemma {:induction false} OnesBit(n: nat, k: nat)
    requires k < n
    ensures Bit(Pow2(n) - 1, k)
  {
    assert (Pow2(n) - 1) / 2 == Pow2(n - 1) - 1;
    if k > 0 { OnesBit(n - 1, k - 1); }
  }

  lemma {:induction false} BitsOnes(w: nat, n: nat)
    requires w < Pow2(n)
    requires forall k: nat :: k < n ==> Bit(w, k)
    ensures w == Pow2(n) - 1
  {
    if n > 0 {
      assert Bit(w, 0);
      forall k: nat | k < n - 1 ensures Bit(w / 2, k) { assert Bit(w, k + 1); }
      BitsOnes(w / 2, n - 1);
    }
  }

  /** Each of the low n bits of w is set. */
  ghost predicate AllSet(w: nat, n: nat) {
    forall k: nat :: k < n ==> Bit(w, k)
  }

  /** An n-bit word is all ones exactly when each of its n bits is set. */
  lemma AllOnes(w: nat, n: nat)
    requires w < Pow2(n)
    ensures w == Pow2(n) - 1 <==> AllSet(w, n)
  {
    if w == Pow2(n) - 1 {
      forall k: nat | k < n ensures Bit(w, k) { OnesBit(n, k); }
      assert AllSet(w, n);
    } else if AllSet(w, n) {
      BitsOnes(w, n);
    }
  }

  /** A word whose bits from n upwards are clear fits in n bits. */
  lemma {:induction false} HighBitsClear(w: nat, n: nat, m: nat)
    requires n <= m && w < Pow2(m)
    requires forall k: nat :: n <= k < m ==> !Bit(w, k)
    ensures w < Pow2(n)
  {
    if n == 0 {
      if m > 0 {
        assert !Bit(w, 0);
        forall k: nat | k < m - 1 ensures !Bit(w / 2, k) { assert !Bit(w, k + 1); }
        HighBitsClear(w / 2, 0, m - 1);
      }
    } else {
      forall k: nat | n - 1 <= k < m - 1 ensures !Bit(w / 2, k) { assert !Bit(w, k + 1); }
      HighBitsClear(w / 2, n - 1, m - 1);
    }
  }

  /** How many numbers n bytes hold. */
  function Pow256(n: nat): nat { if n == 0 then 1 else 256 * Pow256(n - 1) }

  lemma Words()
    ensures Pow256(4) == U32 && Pow256(8) == U64
  {
  }

  lemma Pow2Values()
    ensures Pow2(0) == 1 && Pow2(7) == 0x80 && Pow2(14) == 0x4000
    ensures Pow2(21) == 0x20_0000 && Pow2(28) == 0x1000_0000
    ensures Pow2(35) == 0x8_0000_0000 && Pow2(42) == 0x400_0000_0000
    ensures Pow2(49) == 0x2_0000_0000_0000 && Pow2(56) == 0x100_0000_0000_0000
    ensures Pow2(63) == U63 && Pow2(32) == U32 && Pow2(64) == U64
  {
    hide Pow2;
    Pow2Zero();
    Pow2Seven(0); Pow2Seven(7); Pow2Seven(14); Pow2Seven(21); Pow2Seven(28);
    Pow2Seven(35); Pow2Seven(42); Pow2Seven(49); Pow2Seven(56);
    Pow2Step(28); Pow2Step(29); Pow2Step(30); Pow2Step(31); Pow2Step(63);
  }

  lemma Pow2Zero()
    ensures Pow2(0) == 1
  {
  }

  lemma Pow2Step(n: nat)
    ensures Pow2(n + 1) == 2 * Pow2(n)
  {
  }

  lemma Pow2Seven(n: nat)
    ensures Pow2(n + 7) == 128 * Pow2(n)
  {
    assert Pow2(n + 1) == 2 * Pow2(n) && Pow2(n + 2) == 2 * Pow2(n + 1);
    assert Pow2(n + 3) == 2 * Pow2(n + 2) && Pow2(n + 4) == 2 * Pow2(n + 3);
    assert Pow2(n + 5) == 2 * Pow2(n + 4) && Pow2(n + 6) == 2 * Pow2(n + 5);
  }

  /** Quotient and remainder are determined. */
  lemma DivModUnique(x: int, d: nat, q: int, r: nat)
    requires d > 0 && r < d && x == d * q + r
    ensures x / d == q && x % d == r
  {
    var q', r' := x / d, x % d;
    assert x == d * q' + r';
    SameMultiple(d, q, q', r' - r);
  }

  lemma {:induction false} AtLeast(d: nat, n: nat)
    requires n > 0
    ensures d * n >= d
  {
    if n > 1 { AtLeast(d, n - 1); }
  }

  /** Two multiples of d that are less than d apart are the same. */
  lemma SameMultiple(d: int, q: int, q': int, gap: int)
    requires d > 0 && d * q - d * q' == gap && -d < gap < d
    ensures q == q' && gap == 0
  {
    assert d * (q - q') == gap && d * (q' - q) == -gap;
    if q > q' { AtLeast(d, q - q'); }
    if q < q' { AtLeast(d, q' - q); }
  }
}
