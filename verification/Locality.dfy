/**
 * Decoding is local: what it reads off the front of its input does not depend on what follows, so a
 * message can be cut at any field boundary.
 */
module Locality {
  import opened Bits
  import opened Options
  import opened Schema
  import opened Varint
  import opened Encoding
  import opened Decoding

  /** Reading bs + more gives what reading bs gave, and more is left over in addition. */
  ghost predicate Extends<T>(short: Parse<T>, long: Parse<T>, more: seq<byte>) {
    short.Ok? ==> long == Ok(short.v, short.rest + more)
  }

  lemma TakeLocal(bs: seq<byte>, n: nat, more: seq<byte>)
    ensures Extends(Take(bs, n), Take(bs + more, n), more)
  {
    if n <= |bs| {
      assert (bs + more)[..n] == bs[..n];
      assert (bs + more)[n..] == bs[n..] + more;
    }
  }

  lemma TakeDelimitedLocal(bs: seq<byte>, more: seq<byte>)
    ensures Extends(TakeDelimited(bs), TakeDelimited(bs + more), more)
  {
    var r := Varint32(bs);
    if r.Ok? {
      Varint32Local(bs, more);
      TakeLocal(r.rest, r.v, more);
    }
  }

  lemma {:induction false} TakeVarintLocal(bs: seq<byte>, more: seq<byte>)
    ensures Extends(TakeVarint(bs), TakeVarint(bs + more), more)
    decreases |bs|
  {
    if bs != [] {
      assert (bs + more)[1..] == bs[1..] + more;
      if bs[0] >= 128 {
        TakeVarintLocal(bs[1..], more);
      } else {
        assert (bs + more)[..1] == bs[..1];
      }
    }
  }

  lemma SkipFieldLocal(wireType: nat, bs: seq<byte>, more: seq<byte>)
    ensures Extends(SkipField(wireType, bs), SkipField(wireType, bs + more), more)
  {
    hide Take, TakeVarint, TakeDelimited;
    TakeVarintLocal(bs, more);
    TakeLocal(bs, 8, more);
    TakeLocal(bs, 4, more);
    TakeDelimitedLocal(bs, more);
  }

  lemma DecodeBlobLocal(f: Field, bs: seq<byte>, more: seq<byte>)
    ensures Extends(DecodeBlob(f, bs), DecodeBlob(f, bs + more), more)
  {
    var r := Varint32(bs);
    if r.Ok? {
      Varint32Local(bs, more);
      TakeLocal(r.rest, r.v, more);
    }
  }

  lemma DecodeScalarLocal(f: Field, bs: seq<byte>, more: seq<byte>)
    ensures Extends(DecodeScalar(f, bs), DecodeScalar(f, bs + more), more)
  {
    if f.ltype.LVarint? || f.ltype.LUvarint? || f.ltype.LSvarint? {
      if Varint64(bs).Ok? { Varint64Local(bs, more, 0, 0); }
    } else if f.ltype.LFixed32? {
      TakeLocal(bs, 4, more);
    } else if f.ltype.LFixed64? {
      TakeLocal(bs, 8, more);
    } else {
      DecodeBlobLocal(f, bs, more);
    }
  }

  lemma DecodeHookLocal(wireType: nat, bs: seq<byte>, s: Slot, more: seq<byte>)
    ensures Extends(DecodeHook(wireType, bs, s), DecodeHook(wireType, bs + more, s), more)
  {
    hide SkipField, Take, TakeVarint, TakeDelimited;
    SkipFieldLocal(wireType, bs, more);
    TakeDelimitedLocal(bs, more);
    TakeVarintLocal(bs, more);
    TakeLocal(bs, 8, more);
    TakeLocal(bs, 4, more);
  }

  lemma DecodeValueLocal(f: Field, bs: seq<byte>, start: Value, more: seq<byte>)
    ensures Extends(DecodeValue(f, bs, start), DecodeValue(f, bs + more, start), more)
  {
    if f.ltype.LSubmessage? {
      TakeDelimitedLocal(bs, more);
    } else {
      DecodeScalarLocal(f, bs, more);
    }
  }

  lemma DecodeFieldLocal(f: Field, wireType: nat, bs: seq<byte>, s: Slot, more: seq<byte>)
    ensures Extends(DecodeField(f, wireType, bs, s), DecodeField(f, wireType, bs + more, s), more)
  {
    if f.atype.Callback? {
      DecodeHookLocal(wireType, bs, s, more);
    } else if f.htype.Repeated? {
      TakeDelimitedLocal(bs, more);
      DecodeValueLocal(f, bs, StartValue(f, Int(0)), more);
    } else {
      DecodeValueLocal(f, bs, StartValue(f, ValueOf(s)), more);
    }
  }

  lemma RecordLocal(fields: seq<Field>, key: nat, bs: seq<byte>, st: State, more: seq<byte>)
    requires |st.slots| == SlotCount(fields)
    ensures Extends(Record(fields, key, bs, st), Record(fields, key, bs + more, st), more)
  {
    var i := FindTag(fields, key / 8, 0);
    if i.Some? {
      SlotInRange(fields, i.value, i.value);
      DecodeFieldLocal(fields[i.value], key % 8, bs, st.slots[SlotOf(fields, i.value)], more);
    } else {
      SkipFieldLocal(key % 8, bs, more);
    }
  }

  /**
   * A message can be cut at a field boundary: once the loop has read a piece to its end, it goes on
   * with what follows from the state it reached.
   */
  lemma {:induction false} DecodeFieldsAppend(fields: seq<Field>, bs: seq<byte>, st: State, more: seq<byte>)
    requires |st.slots| == SlotCount(fields) && !st.stopped
    requires DecodeFields(fields, bs, st).Ok?
    ensures var r := DecodeFields(fields, bs, st);
            DecodeFields(fields, bs + more, st)
            == if r.v.stopped then Ok(r.v, r.rest + more) else DecodeFields(fields, more, r.v)
    decreases |bs|
  {
    if bs == [] {
      assert bs + more == more;
    } else {
      var key := Varint32(bs);
      Varint32Local(bs, more);
      if key.v != 0 {
        RecordLocal(fields, key.v, key.rest, st, more);
        RecordKeepsGoing(fields, key.v, key.rest, st);
        var r := Record(fields, key.v, key.rest, st);
        DecodeFieldsAppend(fields, r.rest, r.v, more);
      }
    }
  }

  lemma RecordKeepsGoing(fields: seq<Field>, key: nat, bs: seq<byte>, st: State)
    requires |st.slots| == SlotCount(fields) && Record(fields, key, bs, st).Ok?
    ensures Record(fields, key, bs, st).v.stopped == st.stopped
    ensures st.log <= Record(fields, key, bs, st).v.log
  {
  }

  /** The loop only ever adds to the log, and it reads to the end unless a zero tag stops it. */
  lemma {:induction false} DecodeFieldsGrows(fields: seq<Field>, bs: seq<byte>, st: State)
    requires |st.slots| == SlotCount(fields) && !st.stopped
    requires DecodeFields(fields, bs, st).Ok?
    ensures var r := DecodeFields(fields, bs, st); st.log <= r.v.log && (!r.v.stopped ==> r.rest == [])
    decreases |bs|
  {
    if bs != [] {
      var key := Varint32(bs);
      if key.v != 0 {
        RecordKeepsGoing(fields, key.v, key.rest, st);
        var r := Record(fields, key.v, key.rest, st);
        DecodeFieldsGrows(fields, r.rest, r.v);
      }
    }
  }
}
