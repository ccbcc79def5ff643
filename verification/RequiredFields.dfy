/** The bitmap of required fields: two 32-bit words, one bit for each of the first 64. */
module RequiredFields {
  import opened Bits
  import opened Options
  import opened Schema
  import opened Decoding

  /** The required field with index k has been met. */
  ghost predicate Seen(fields: seq<Field>, log: seq<nat>, k: nat) {
    exists i :: i in log && i < |fields| && fields[i].htype.Required? && RequiredBefore(fields, i) == k
  }

  /** Word number j of the bitmap says which of its 32 fields have been met. */
  ghost predicate Marks(fields: seq<Field>, log: seq<nat>, word: nat, j: nat) {
    && word < Pow2(32)
    && forall k: nat :: k < 32 ==> (Bit(word, k) <==> Seen(fields, log, 32 * j + k))
  }

  lemma NothingMarked(fields: seq<Field>, j: nat)
    ensures Marks(fields, [], 0, j)
  {
    forall k: nat | k < 32 ensures !Bit(0, k) && !Seen(fields, [], 32 * j + k) {
      ZeroBit(k);
    }
  }

  lemma SeenStep(fields: seq<Field>, log: seq<nat>, i: nat, k: nat)
    requires i < |fields|
    ensures Seen(fields, log + [i], k)
            <==> Seen(fields, log, k) || (fields[i].htype.Required? && RequiredBefore(fields, i) == k)
  {
    if Seen(fields, log, k) {
      var j :| j in log && j < |fields| && fields[j].htype.Required? && RequiredBefore(fields, j) == k;
      assert j in log + [i];
    }
    if fields[i].htype.Required? && RequiredBefore(fields, i) == k {
      assert i in log + [i];
    }
  }

  /** Setting the bit of required field i in its word keeps the bitmap in step with the log. */
  lemma MarkSets(fields: seq<Field>, log: seq<nat>, i: nat, word: nat, j: nat)
    requires i < |fields| && fields[i].htype.Required? && Marks(fields, log, word, j)
    requires RequiredBefore(fields, i) / 32 == j
    ensures Marks(fields, log + [i], BitOr(word, Pow2(RequiredBefore(fields, i) % 32)), j)
  {
    var b := RequiredBefore(fields, i) % 32;
    OrPow2Bound(word, b, 32);
    forall k: nat | k < 32
      ensures Bit(BitOr(word, Pow2(b)), k) <==> Seen(fields, log + [i], 32 * j + k)
    {
      OrPow2Sets(word, b, k);
      SeenStep(fields, log, i, 32 * j + k);
    }
  }

  /** A field that is not required, or whose bit is elsewhere, leaves a word as it is. */
  lemma MarkStays(fields: seq<Field>, log: seq<nat>, i: nat, word: nat, j: nat)
    requires i < |fields| && Marks(fields, log, word, j)
    requires !fields[i].htype.Required? || RequiredBefore(fields, i) / 32 != j
    ensures Marks(fields, log + [i], word, j)
  {
    forall k: nat | k < 32 ensures Bit(word, k) <==> Seen(fields, log + [i], 32 * j + k) {
      SeenStep(fields, log, i, 32 * j + k);
    }
  }

  // ---- Required indices count up

  lemma {:induction false} RequiredGrows(fields: seq<Field>, i: nat, j: nat)
    requires i < j <= |fields|
    ensures RequiredBefore(fields, i) + (if fields[i].htype.Required? then 1 else 0) <= RequiredBefore(fields, j)
    decreases j
  {
    if i < j - 1 { RequiredGrows(fields, i, j - 1); }
  }

  /** Every index below the number of required fields belongs to one of them. */
  lemma {:induction false} RequiredWithIndex(fields: seq<Field>, n: nat, k: nat) returns (i: nat)
    requires n <= |fields| && k < RequiredBefore(fields, n)
    ensures i < n && fields[i].htype.Required? && RequiredBefore(fields, i) == k
  {
    if fields[n - 1].htype.Required? && RequiredBefore(fields, n - 1) == k {
      i := n - 1;
    } else {
      i := RequiredWithIndex(fields, n - 1, k);
    }
  }

  function TrackedCount(fields: seq<Field>): nat {
    var n := RequiredBefore(fields, |fields|);
    if n > PB_MAX_REQUIRED_FIELDS then PB_MAX_REQUIRED_FIELDS else n
  }

  ghost predicate AllSeen(fields: seq<Field>, log: seq<nat>, from: nat, to: nat) {
    forall k: nat :: from <= k < to ==> Seen(fields, log, k)
  }

  /** Each tracked required field was met exactly when each index below the tracked count was seen. */
  lemma SeenIsRequiredMet(fields: seq<Field>, log: seq<nat>)
    ensures AllSeen(fields, log, 0, TrackedCount(fields)) <==> RequiredMet(fields, log)
  {
    if AllSeen(fields, log, 0, TrackedCount(fields)) {
      forall i | 0 <= i < |fields| && Tracked(fields, i) ensures i in log {
        RequiredGrows(fields, i, |fields|);
        var k := RequiredBefore(fields, i);
        assert Seen(fields, log, k);
        var j :| j in log && j < |fields| && fields[j].htype.Required? && RequiredBefore(fields, j) == k;
        if j < i { RequiredGrows(fields, j, i); } else if i < j { RequiredGrows(fields, i, j); }
      }
    }
    if RequiredMet(fields, log) {
      forall k: nat | k < TrackedCount(fields) ensures Seen(fields, log, k) {
        var i := RequiredWithIndex(fields, |fields|, k);
        assert Tracked(fields, i);
      }
    }
  }

  /** Comparing a word with n ones asks whether each of its first n fields was met. */
  lemma WordCheck(fields: seq<Field>, log: seq<nat>, word: nat, j: nat, n: nat)
    requires Marks(fields, log, word, j) && n <= 32
    requires n == 32 || 32 * j + n == RequiredBefore(fields, |fields|)
    ensures word == Pow2(n) - 1 <==> AllSeen(fields, log, 32 * j, 32 * j + n)
  {
    forall k: nat | n <= k < 32 ensures !Bit(word, k) {
      NotBeyond(fields, log, 32 * j + k);
    }
    HighBitsClear(word, n, 32);
    AllOnes(word, n);
    if AllSet(word, n) {
      forall k: nat | 32 * j <= k < 32 * j + n ensures Seen(fields, log, k) {
        assert Bit(word, k - 32 * j);
      }
    }
    if AllSeen(fields, log, 32 * j, 32 * j + n) {
      forall k: nat | k < n ensures Bit(word, k) {
        assert Seen(fields, log, 32 * j + k);
      }
    }
  }

  lemma NotBeyond(fields: seq<Field>, log: seq<nat>, k: nat)
    requires RequiredBefore(fields, |fields|) <= k
    ensures !Seen(fields, log, k)
  {
    if Seen(fields, log, k) {
      var i :| i in log && i < |fields| && fields[i].htype.Required? && RequiredBefore(fields, i) == k;
      RequiredGrows(fields, i, |fields|);
    }
  }

  /**
   * The check after the loop, on the two words and the number of tracked fields: whole words against
   * all ones, then the remaining bits. It holds exactly when every tracked required field was met.
   */
  method CheckBitmap(fields: seq<Field>, ghost log: seq<nat>, word0: nat, word1: nat, count: nat) returns (ok: bool)
    requires Marks(fields, log, word0, 0) && Marks(fields, log, word1, 1) && count == TrackedCount(fields)
    ensures ok <==> RequiredMet(fields, log)
  {
    SeenIsRequiredMet(fields, log);
    Pow2Values();
    ok := true;
    if count >= 32 {
      WordCheck(fields, log, word0, 0, 32);
      ok := word0 == U32 - 1;
    }
    if count == 64 {
      WordCheck(fields, log, word1, 1, 32);
      ok := ok && word1 == U32 - 1;
    }
    if count % 32 != 0 {
      var r := count % 32;
      if count < 32 {
        WordCheck(fields, log, word0, 0, r);
        ok := ok && word0 == Pow2(r) - 1;
      } else {
        WordCheck(fields, log, word1, 1, r);
        ok := ok && word1 == Pow2(r) - 1;
      }
    }
    Join(fields, log, count);
  }

  lemma Join(fields: seq<Field>, log: seq<nat>, count: nat)
    ensures count >= 32 ==>
      (AllSeen(fields, log, 0, count) <==> AllSeen(fields, log, 0, 32) && AllSeen(fields, log, 32, count))
  {
  }

  // ---- How many are tracked

  lemma {:induction false} RequiredSoFar(fields: seq<Field>, n: nat)
    requires n <= |fields| && forall i :: 0 <= i < n ==> fields[i].htype.Required?
    ensures RequiredBefore(fields, n) == n
  {
    if n > 0 { RequiredSoFar(fields, n - 1); }
  }

  /** Of required fields in a row, the first 64 are tracked: a message that lacks one of them is refused, one that lacks the next is not. */
  lemma FirstSixtyFour(fields: seq<Field>, i: nat)
    requires i < |fields| && forall j :: 0 <= j <= i ==> fields[j].htype.Required?
    ensures Tracked(fields, i) <==> i < 64
  {
    RequiredSoFar(fields, i);
  }

  lemma {:induction false} FirstRequired(fields: seq<Field>, n: nat) returns (i: nat)
    requires n < |fields| && fields[n].htype.Required?
    ensures i < |fields| && Tracked(fields, i)
  {
    if RequiredBefore(fields, n) == 0 {
      i := n;
    } else {
      var j := SomeRequired(fields, n);
      i := FirstRequired(fields, j);
    }
  }

  lemma {:induction false} SomeRequired(fields: seq<Field>, n: nat) returns (j: nat)
    requires n <= |fields| && RequiredBefore(fields, n) > 0
    ensures j < n && fields[j].htype.Required?
  {
    if fields[n - 1].htype.Required? { j := n - 1; } else { j := SomeRequired(fields, n - 1); }
  }

  /** The empty message decodes, to the defaults, exactly if no field is required. */
  lemma EmptyMessage(fields: seq<Field>, dest: seq<Slot>)
    requires |dest| == SlotCount(fields)
    ensures Decode(fields, [], dest)
            == if exists i :: 0 <= i < |fields| && fields[i].htype.Required? then Fail else Ok(Defaults(fields, dest), [])
  {
    RequiredMetTest(fields, [], 0);
    if n :| 0 <= n < |fields| && fields[n].htype.Required? {
      var i := FirstRequired(fields, n);
    }
  }
}
