/**
 * Unknown fields do not matter, of several occurrences of a scalar field only the last does, and submessages merge.
 */
module Transparency {
  import opened Bits
  import opened Options
  import opened Schema
  import opened Varint
  import opened Encoding
  import opened Decoding
  import opened Locality
  import opened Canon
  import R = RoundTrip

  /** One field with a tag the descriptor does not have, with a wire type that can be skipped. */
  ghost predicate UnknownRecord(fields: seq<Field>, u: seq<byte>) {
    var key := Varint32(u);
    && key.Ok? && key.v != 0
    && FindTag(fields, key.v / 8, 0).None?
    && var body := SkipField(key.v % 8, key.rest); body.Ok? && body.rest == []
  }

  /** The one unknown field that is not skipped: tag 0 in a message type without any fields. */
  ghost predicate MatchesTerminator(fields: seq<Field>, u: seq<byte>) {
    fields == [] && var key := Varint32(u); key.Ok? && key.v / 8 == 0
  }

  /** Exactly which unknown fields are transparent. */
  lemma UnknownSkipped(fields: seq<Field>, u: seq<byte>, st: State, more: seq<byte>)
    requires |st.slots| == SlotCount(fields) && UnknownRecord(fields, u)
    ensures DecodeFields(fields, u + more, st)
            == if MatchesTerminator(fields, u) then Fail else DecodeFields(fields, more, st)
  {
    var key := Varint32(u);
    Varint32Local(u, more);
    SkipFieldLocal(key.v % 8, key.rest, more);
    assert [] + more == more;
  }

  /** The bytes 0x02 0x00, a field with tag 0 and an empty string, are refused by an empty message type. */
  lemma TerminatorIsMatched()
    ensures UnknownRecord([], [2, 0]) && MatchesTerminator([], [2, 0])
    ensures Decode([], [2, 0], []) == Fail
  {
    var u: seq<byte> := [2, 0];
    assert Varint32(u) == Ok(2, u[1..]);
    assert u[1..] == [0] && Varint32([0]) == Ok(0, []);
    assert Take([], 0) == Ok([], []);
    UnknownSkipped([], u, State([], [], false), []);
    assert u + [] == u;
  }

  function Concat(pieces: seq<seq<byte>>): seq<byte> {
    if pieces == [] then [] else pieces[0] + Concat(pieces[1..])
  }

  ghost predicate Unknown(fields: seq<Field>, u: seq<byte>) {
    UnknownRecord(fields, u) && !MatchesTerminator(fields, u)
  }

  /** The pieces without those that are unknown fields. */
  ghost function Strip(fields: seq<Field>, pieces: seq<seq<byte>>): seq<seq<byte>> {
    if pieces == [] then []
    else (if Unknown(fields, pieces[0]) then [] else [pieces[0]]) + Strip(fields, pieces[1..])
  }

  /** Read from st, each piece is an unknown field or a run of whole fields. */
  ghost predicate WholeFields(fields: seq<Field>, pieces: seq<seq<byte>>, st: State)
    requires |st.slots| == SlotCount(fields)
    decreases |pieces|
  {
    pieces == [] ||
    if Unknown(fields, pieces[0]) then WholeFields(fields, pieces[1..], st)
    else
      var r := DecodeFields(fields, pieces[0], st);
      r.Ok? && !r.v.stopped && WholeFields(fields, pieces[1..], r.v)
  }

  /** Unknown fields anywhere between fields leave the decoded message as it is. */
  lemma {:induction false} UnknownFieldsTransparent(fields: seq<Field>, pieces: seq<seq<byte>>, st: State, more: seq<byte>)
    requires |st.slots| == SlotCount(fields) && !st.stopped && WholeFields(fields, pieces, st)
    ensures DecodeFields(fields, Concat(pieces) + more, st) == DecodeFields(fields, Concat(Strip(fields, pieces)) + more, st)
    decreases |pieces|
  {
    hide DecodeFields, UnknownRecord, MatchesTerminator;
    if pieces != [] {
      var p, rest := pieces[0], Concat(pieces[1..]) + more;
      assert Concat(pieces) + more == p + rest;
      var kept := Concat(Strip(fields, pieces[1..])) + more;
      if Unknown(fields, p) {
        UnknownSkipped(fields, p, st, rest);
        UnknownFieldsTransparent(fields, pieces[1..], st, more);
        assert Strip(fields, pieces) == Strip(fields, pieces[1..]);
      } else {
        var r := DecodeFields(fields, p, st);
        DecodeFieldsAppend(fields, p, st, rest);
        DecodeFieldsAppend(fields, p, st, kept);
        UnknownFieldsTransparent(fields, pieces[1..], r.v, more);
        assert Strip(fields, pieces)[1..] == Strip(fields, pieces[1..]);
        assert Concat(Strip(fields, pieces)) + more == p + kept;
      }
    }
  }

  /** The same for whole messages: with and without its unknown fields, a message decodes alike. */
  lemma DecodeIgnoresUnknown(fields: seq<Field>, pieces: seq<seq<byte>>, dest: seq<Slot>)
    requires |dest| == SlotCount(fields)
    requires WholeFields(fields, pieces, State(Defaults(fields, dest), [], false))
    ensures Decode(fields, Concat(pieces), dest) == Decode(fields, Concat(Strip(fields, pieces)), dest)
  {
    UnknownFieldsTransparent(fields, pieces, State(Defaults(fields, dest), [], false), []);
    assert Concat(pieces) + [] == Concat(pieces);
    assert Concat(Strip(fields, pieces)) + [] == Concat(Strip(fields, pieces));
  }

  // ---- The last occurrence wins

  /** Required and optional items held in the struct that are not submessages. */
  predicate Scalar(f: Field) {
    f.atype.Static? && (f.htype.Required? || f.htype.Optional?) && !f.ltype.LSubmessage?
  }

  /** One whole occurrence of the scalar field i. */
  ghost predicate RecordOf(fields: seq<Field>, p: seq<byte>, i: nat) {
    var key := Varint32(p);
    && i < |fields| && Scalar(fields[i])
    && key.Ok? && key.v != 0
    && FindTag(fields, key.v / 8, 0) == Some(i)
    && var v := DecodeScalar(fields[i], key.rest); v.Ok? && v.rest == []
  }

  /** The value such an occurrence carries. */
  ghost function Carried(fields: seq<Field>, p: seq<byte>, i: nat): Value
    requires RecordOf(fields, p, i)
  {
    DecodeScalar(fields[i], Varint32(p).rest).v
  }

  /** The last value given to field i, if any. */
  ghost function LastValue(fields: seq<Field>, pieces: seq<seq<byte>>, i: nat): Option<Value>
    decreases |pieces|
  {
    if pieces == [] then None
    else
      var last := pieces[|pieces| - 1];
      if RecordOf(fields, last, i) then Some(Carried(fields, last, i))
      else LastValue(fields, pieces[..|pieces| - 1], i)
  }

  /** In state st, p is read as one whole field of any kind, known or not. */
  ghost predicate ReadsOne(fields: seq<Field>, p: seq<byte>, st: State)
    requires |st.slots| == SlotCount(fields)
  {
    var key := Varint32(p);
    && key.Ok? && key.v != 0
    && var r := Record(fields, key.v, key.rest, st); r.Ok? && r.rest == []
  }

  /** The pieces are read one field at a time. */
  ghost predicate Reads(fields: seq<Field>, pieces: seq<seq<byte>>, st: State)
    requires |st.slots| == SlotCount(fields)
    decreases |pieces|
  {
    pieces == [] ||
    var before := pieces[..|pieces| - 1];
    && Reads(fields, before, st)
    && var mid := DecodeFields(fields, Concat(before), st);
    && mid.Ok? && ReadsOne(fields, pieces[|pieces| - 1], mid.v)
  }

  lemma {:induction false} ConcatLast(pieces: seq<seq<byte>>, p: seq<byte>)
    ensures Concat(pieces + [p]) == Concat(pieces) + p
    decreases |pieces|
  {
    if pieces == [] {
      assert Concat([p]) == p + Concat([]);
    } else {
      assert (pieces + [p])[1..] == pieces[1..] + [p];
      ConcatLast(pieces[1..], p);
    }
  }

  /** How a slot looks when its field was last given v, or never. */
  function Final(f: Field, was: Slot, v: Option<Value>): Slot {
    if v.None? then was
    else One((f.htype.Optional? && f.sizeOffset != 0) || (was.One? && was.has), v.value)
  }

  /** Reading a scalar field succeeds whatever the slot held, and gives the value that was carried. */
  lemma ScalarFieldReads(f: Field, wireType: nat, bs: seq<byte>, was: Slot)
    requires Scalar(f)
    ensures DecodeField(f, wireType, bs, was)
            == match DecodeScalar(f, bs)
               case Fail => Fail
               case Ok(v, rest) => Ok(Final(f, was, Some(v)), rest)
  {
    hide DecodeScalar;
  }

  /** One whole field of any kind: slot of the scalar field i gets its value, or stays as it was. */
  lemma OneFieldRead(fields: seq<Field>, p: seq<byte>, st: State, i: nat)
    requires |st.slots| == SlotCount(fields) && i < |fields| && Scalar(fields[i]) && ReadsOne(fields, p, st)
    ensures var r, k := DecodeFields(fields, p, st), SlotOf(fields, i);
            && r.Ok? && r.v.stopped == st.stopped && r.rest == [] && k < |st.slots|
            && r.v.slots[k]
               == Final(fields[i], st.slots[k], if RecordOf(fields, p, i) then Some(Carried(fields, p, i)) else None)
  {
    hide DecodeScalar, Varint32, SkipField, DecodeField, FindTag;
    SlotInRange(fields, i, i);
    var key := Varint32(p);
    var r := Record(fields, key.v, key.rest, st);
    assert DecodeFields(fields, [], r.v) == Ok(r.v, []);
    assert DecodeFields(fields, p, st) == Ok(r.v, []);
    RecordKeepsGoing(fields, key.v, key.rest, st);
    var at := FindTag(fields, key.v / 8, 0);
    match at
    case None =>
      assert r.v == st;
    case Some(j) =>
      assert r == Known(fields, j, key.v % 8, key.rest, st);
      SlotInRange(fields, j, j);
      if j != i {
        OtherSlot(fields, i, j);
      } else {
        ScalarFieldReads(fields[i], key.v % 8, key.rest, st.slots[SlotOf(fields, i)]);
      }
  }

  lemma OtherSlot(fields: seq<Field>, i: nat, j: nat)
    requires i < |fields| && j < |fields| && i != j && Scalar(fields[i])
    ensures SlotOf(fields, i) != SlotOf(fields, j)
  {
    if SlotOf(fields, i) == SlotOf(fields, j) {
      if i < j { SharedSlotIsOneof(fields, i, j); } else { SharedSlotIsOneof(fields, j, i); }
    }
  }

  /**
   * In any message, among fields of any kind, the slot of a scalar field ends up with the field's last
   * value, or as it began.
   */
  lemma {:induction false} LastValueWins(fields: seq<Field>, pieces: seq<seq<byte>>, st: State, i: nat)
    requires |st.slots| == SlotCount(fields) && !st.stopped && Reads(fields, pieces, st)
    requires i < |fields| && Scalar(fields[i])
    ensures var r, k := DecodeFields(fields, Concat(pieces), st), SlotOf(fields, i);
            && r.Ok? && !r.v.stopped && r.rest == [] && k < |st.slots|
            && r.v.slots[k] == Final(fields[i], st.slots[k], LastValue(fields, pieces, i))
    decreases |pieces|
  {
    hide RecordOf, ReadsOne, DecodeFields, SlotOf;
    SlotInRange(fields, i, i);
    if pieces == [] {
      NothingRead(fields, st);
    } else {
      var before, p := pieces[..|pieces| - 1], pieces[|pieces| - 1];
      assert pieces == before + [p];
      LastValueWins(fields, before, st, i);
      ConcatLast(before, p);
      var mid := DecodeFields(fields, Concat(before), st).v;
      DecodeFieldsAppend(fields, Concat(before), st, p);
      OneFieldRead(fields, p, mid, i);
    }
  }

  lemma NothingRead(fields: seq<Field>, st: State)
    requires |st.slots| == SlotCount(fields)
    ensures DecodeFields(fields, [], st) == Ok(st, [])
  {
  }

  /**
   * Two messages, whatever else they hold and in whatever order, agree on a scalar field when its last
   * occurrences agree.
   */
  lemma OnlyTheLastMatters(fields: seq<Field>, ps: seq<seq<byte>>, qs: seq<seq<byte>>, st: State, i: nat)
    requires |st.slots| == SlotCount(fields) && !st.stopped && Reads(fields, ps, st) && Reads(fields, qs, st)
    requires i < |fields| && Scalar(fields[i]) && LastValue(fields, ps, i) == LastValue(fields, qs, i)
    ensures var p, q, k := DecodeFields(fields, Concat(ps), st), DecodeFields(fields, Concat(qs), st), SlotOf(fields, i);
            p.Ok? && q.Ok? && k < |st.slots| && p.v.slots[k] == q.v.slots[k]
  {
    LastValueWins(fields, ps, st, i);
    LastValueWins(fields, qs, st, i);
  }

  // ---- Unions

  /** A union member: a scalar, or a submessage, which is initialised before it is read. */
  predicate Member(f: Field) { f.atype.Static? && f.htype.Oneof? }

  /** What a member's bytes mean, whatever the union held. */
  ghost function MemberValue(f: Field, bs: seq<byte>): Parse<Value> { DecodeValue(f, bs, StartValue(f, Int(0))) }

  /** p is a field that lands in slot k. */
  ghost predicate Lands(fields: seq<Field>, p: seq<byte>, k: nat) {
    var key := Varint32(p);
    && key.Ok?
    && var at := FindTag(fields, key.v / 8, 0); at.Some? && SlotOf(fields, at.value) == k
  }

  /** p is one occurrence of the union member i, carrying v. */
  ghost predicate MemberRecord(fields: seq<Field>, p: seq<byte>, i: nat, v: Value) {
    var key := Varint32(p);
    && i < |fields| && Member(fields[i])
    && key.Ok? && key.v != 0 && FindTag(fields, key.v / 8, 0) == Some(i)
    && MemberValue(fields[i], key.rest) == Ok(v, [])
  }

  lemma MemberReads(f: Field, wireType: nat, bs: seq<byte>, was: Slot)
    requires Member(f)
    ensures DecodeField(f, wireType, bs, was)
            == match MemberValue(f, bs)
               case Fail => Fail
               case Ok(v, rest) => Ok(Union(f.tag, v), rest)
  {
    hide DecodeScalar;
  }

  /** One field: a member sets its union's slot, and a field that lands elsewhere leaves it alone. */
  lemma OneFieldIntoUnion(fields: seq<Field>, p: seq<byte>, st: State, k: nat)
    requires |st.slots| == SlotCount(fields) && k < |st.slots| && ReadsOne(fields, p, st)
    ensures var r := DecodeFields(fields, p, st);
            && r.Ok? && r.v.stopped == st.stopped && r.rest == []
            && (!Lands(fields, p, k) ==> r.v.slots[k] == st.slots[k])
            && (forall i: nat, v :: MemberRecord(fields, p, i, v) && SlotOf(fields, i) == k ==>
                  r.v.slots[k] == Union(fields[i].tag, v))
  {
    hide MemberValue, Varint32, SkipField, DecodeField, FindTag;
    var key := Varint32(p);
    var r := Record(fields, key.v, key.rest, st);
    NothingRead(fields, r.v);
    assert DecodeFields(fields, p, st) == Ok(r.v, []);
    RecordKeepsGoing(fields, key.v, key.rest, st);
    match FindTag(fields, key.v / 8, 0)
    case None =>
      assert r.v == st;
    case Some(j) =>
      assert r == Known(fields, j, key.v % 8, key.rest, st);
      SlotInRange(fields, j, j);
      if Member(fields[j]) { MemberReads(fields[j], key.v % 8, key.rest, st.slots[SlotOf(fields, j)]); }
  }

  /** From piece n on nothing lands in slot k. */
  ghost predicate NoneLands(fields: seq<Field>, pieces: seq<seq<byte>>, k: nat, n: nat) {
    forall j :: n <= j < |pieces| ==> !Lands(fields, pieces[j], k)
  }

  /** Piece n is an occurrence of member i with value v, and the last to land in slot k. */
  ghost predicate LastMember(fields: seq<Field>, pieces: seq<seq<byte>>, k: nat, n: nat, i: nat, v: Value) {
    && n < |pieces| && i < |fields| && MemberRecord(fields, pieces[n], i, v) && SlotOf(fields, i) == k
    && NoneLands(fields, pieces, k, n + 1)
  }

  /**
   * In any message, a union ends up as the last member that occurs, with the value of that occurrence,
   * whatever members came before; one that no field lands in stays as it began.
   */
  lemma {:induction false} LastMemberWins(fields: seq<Field>, pieces: seq<seq<byte>>, st: State, k: nat)
    requires |st.slots| == SlotCount(fields) && k < |st.slots| && !st.stopped && Reads(fields, pieces, st)
    ensures var r := DecodeFields(fields, Concat(pieces), st);
            && r.Ok? && !r.v.stopped && r.rest == []
            && (forall n: nat, i: nat, v :: LastMember(fields, pieces, k, n, i, v) ==> r.v.slots[k] == Union(fields[i].tag, v))
            && (NoneLands(fields, pieces, k, 0) ==> r.v.slots[k] == st.slots[k])
    decreases |pieces|
  {
    hide MemberRecord, Lands, ReadsOne, DecodeFields, SlotOf;
    if pieces == [] {
      NothingRead(fields, st);
    } else {
      var before, p := pieces[..|pieces| - 1], pieces[|pieces| - 1];
      assert pieces == before + [p];
      LastMemberWins(fields, before, st, k);
      ConcatLast(before, p);
      var mid := DecodeFields(fields, Concat(before), st).v;
      DecodeFieldsAppend(fields, Concat(before), st, p);
      OneFieldIntoUnion(fields, p, mid, k);
      forall n: nat, i: nat, v | LastMember(fields, pieces, k, n, i, v)
        ensures DecodeFields(fields, p, mid).v.slots[k] == Union(fields[i].tag, v)
      {
        if n < |before| { assert LastMember(fields, before, k, n, i, v); }
      }
    }
  }

  // ---- Messages of scalar fields only

  ghost predicate ScalarRecord(fields: seq<Field>, p: seq<byte>) {
    exists i: nat :: RecordOf(fields, p, i)
  }

  ghost predicate Scalars(fields: seq<Field>, pieces: seq<seq<byte>>) {
    forall j :: 0 <= j < |pieces| ==> ScalarRecord(fields, pieces[j])
  }

  /** Occurrences of scalar fields are read in every state. */
  lemma {:induction false} ScalarsRead(fields: seq<Field>, pieces: seq<seq<byte>>, st: State)
    requires |st.slots| == SlotCount(fields) && !st.stopped && Scalars(fields, pieces)
    ensures Reads(fields, pieces, st)
    ensures var r := DecodeFields(fields, Concat(pieces), st); r.Ok? && !r.v.stopped
    decreases |pieces|
  {
    hide RecordOf, ReadsOne, DecodeFields;
    if pieces == [] {
      NothingRead(fields, st);
    } else {
      var before, p := pieces[..|pieces| - 1], pieces[|pieces| - 1];
      assert pieces == before + [p];
      assert Scalars(fields, before) by {
        forall j | 0 <= j < |before| ensures ScalarRecord(fields, before[j]) {
          assert before[j] == pieces[j];
        }
      }
      ScalarsRead(fields, before, st);
      ConcatLast(before, p);
      var mid := DecodeFields(fields, Concat(before), st).v;
      DecodeFieldsAppend(fields, Concat(before), st, p);
      assert ScalarRecord(fields, p);
      var i: nat :| RecordOf(fields, p, i);
      ScalarReads(fields, p, mid, i);
      OneFieldRead(fields, p, mid, i);
    }
  }

  lemma ScalarReads(fields: seq<Field>, p: seq<byte>, st: State, i: nat)
    requires |st.slots| == SlotCount(fields) && RecordOf(fields, p, i)
    ensures ReadsOne(fields, p, st) && i < |fields| && Scalar(fields[i])
  {
    hide DecodeScalar, Varint32, SkipField, FindTag, DecodeField;
    SlotInRange(fields, i, i);
    var key := Varint32(p);
    ScalarFieldReads(fields[i], key.v % 8, key.rest, st.slots[SlotOf(fields, i)]);
    assert Record(fields, key.v, key.rest, st) == Known(fields, i, key.v % 8, key.rest, st);
  }

  lemma SlotAgrees(fields: seq<Field>, ps: seq<seq<byte>>, qs: seq<seq<byte>>, st: State, k: nat)
    requires |st.slots| == SlotCount(fields) && !st.stopped && Reads(fields, ps, st) && Reads(fields, qs, st)
    requires forall i :: 0 <= i < |fields| ==> Scalar(fields[i])
    requires forall i :: 0 <= i < |fields| ==> LastValue(fields, ps, i) == LastValue(fields, qs, i)
    requires k < |st.slots|
    ensures var p, q := DecodeFields(fields, Concat(ps), st), DecodeFields(fields, Concat(qs), st);
            p.Ok? && q.Ok? && p.v.slots[k] == q.v.slots[k]
  {
    hide Reads, LastValue, DecodeFields, Concat, SlotOf;
    var i := SlotHasField(fields, |fields|, k);
    OnlyTheLastMatters(fields, ps, qs, st, i);
  }

  /** A message type of scalar fields: the whole result depends on the last occurrences only, and always exists. */
  lemma ScalarMessageIsLastValues(fields: seq<Field>, ps: seq<seq<byte>>, qs: seq<seq<byte>>, st: State)
    requires |st.slots| == SlotCount(fields) && !st.stopped
    requires (forall i :: 0 <= i < |fields| ==> Scalar(fields[i])) && Scalars(fields, ps) && Scalars(fields, qs)
    requires forall i :: 0 <= i < |fields| ==> LastValue(fields, ps, i) == LastValue(fields, qs, i)
    ensures var p, q := DecodeFields(fields, Concat(ps), st), DecodeFields(fields, Concat(qs), st);
            p.Ok? && q.Ok? && p.v.slots == q.v.slots
  {
    hide *;
    ScalarsRead(fields, ps, st);
    ScalarsRead(fields, qs, st);
    var p, q := DecodeFields(fields, Concat(ps), st), DecodeFields(fields, Concat(qs), st);
    forall k | 0 <= k < |st.slots| ensures p.v.slots[k] == q.v.slots[k] {
      SlotAgrees(fields, ps, qs, st, k);
    }
  }

  // ---- Submessages, and the zero tag

  /** A submessage that occurs again is decoded over what the first occurrence left: the two are merged. */
  lemma SubmessageMerges(f: Field, wireType: nat, b: seq<byte>, rest: seq<byte>, has: bool, slots: seq<Slot>)
    requires f.atype.Static? && (f.htype.Required? || f.htype.Optional?) && f.ltype.LSubmessage?
    requires |slots| == SlotCount(f.ltype.fields) && |b| < U32
    ensures DecodeField(f, wireType, Delimited(b) + rest, One(has, Msg(slots)))
            == match DecodeNoInit(f.ltype.fields, b, slots)
               case Fail => Fail
               case Ok(merged, _) => Ok(One(has || (f.htype.Optional? && f.sizeOffset != 0), Msg(merged)), rest)
  {
    hide Delimited, DecodeNoInit;
    R.DelimitedInverts(b, rest);
    var bs := Delimited(b) + rest;
    assert DecodeValue(f, bs, Msg(slots))
           == match DecodeNoInit(f.ltype.fields, b, slots) case Fail => Fail case Ok(merged, _) => Ok(Msg(merged), rest);
  }

  /** An array entry or a union member that is a submessage is decoded over initialised memory, whatever was there. */
  lemma ItemStartsInitial(f: Field, wireType: nat, b: seq<byte>, rest: seq<byte>, s: Slot) returns (start: seq<Slot>)
    requires f.atype.Static? && (f.htype.Repeated? || f.htype.Oneof?) && f.ltype.LSubmessage? && |b| < U32
    requires f.htype.Repeated? ==> |ItemsOf(s)| < f.arraySize
    ensures |start| == SlotCount(f.ltype.fields) && Initial(f.ltype.fields, start, ZeroMemory(f.ltype.fields))
    ensures DecodeField(f, wireType, Delimited(b) + rest, s)
            == match DecodeNoInit(f.ltype.fields, b, start)
               case Fail => Fail
               case Ok(item, _) => Ok(if f.htype.Repeated? then Many(ItemsOf(s) + [Msg(item)]) else Union(f.tag, Msg(item)), rest)
  {
    hide Delimited, DecodeNoInit, Initial;
    var sub := f.ltype.fields;
    start := Defaults(sub, ZeroMemory(sub));
    DefaultsInitial(sub, ZeroMemory(sub));
    R.DelimitedInverts(b, rest);
    var bs := Delimited(b) + rest;
    assert DecodeValue(f, bs, Msg(start))
           == match DecodeNoInit(sub, b, start) case Fail => Fail case Ok(item, _) => Ok(Msg(item), rest);
  }

  /** A zero byte where a tag is due ends the message there: what follows is not looked at. */
  lemma ZeroEndsMessage(fields: seq<Field>, bs: seq<byte>, dest: seq<Slot>, rest: seq<byte>)
    requires |dest| == SlotCount(fields) && Decode(fields, bs, dest).Ok?
    requires !DecodeFields(fields, bs, State(Defaults(fields, dest), [], false)).v.stopped
    ensures Decode(fields, bs + [0] + rest, dest) == Ok(Decode(fields, bs, dest).v, rest)
  {
    var st := State(Defaults(fields, dest), [], false);
    var more := [0] + rest;
    assert bs + [0] + rest == bs + more;
    DecodeFieldsAppend(fields, bs, st, more);
    assert Varint32(more) == Ok(0, rest) by { assert more[1..] == rest; }
  }
}
