/** The decoder as it runs: a cursor over a byte buffer, substreams, the field loop and the required-field bitmap. */
module Decoder {
  import opened Bits
  import opened Options
  import opened Schema
  import opened Varint
  import opened Encoding
  import opened Decoding
  import opened Iterator
  import opened RequiredFields

  class IStream {
    const data: seq<byte>
    var pos: nat
    var left: nat

    ghost predicate Valid()
      reads this
    {
      pos + left <= |data|
    }

    /** The bytes that are left. */
    ghost function Window(): seq<byte>
      requires Valid()
      reads this
    {
      data[pos..pos + left]
    }

    constructor (data: seq<byte>, left: nat)
      requires left <= |data|
      ensures Valid() && this.data == data && pos == 0 && this.left == left
    {
      this.data, this.pos, this.left := data, 0, left;
    }

    constructor At(data: seq<byte>, pos: nat, left: nat)
      requires pos + left <= |data|
      ensures Valid() && this.data == data && this.pos == pos && this.left == left
    {
      this.data, this.pos, this.left := data, pos, left;
    }

    /** Against what it should have read, the stream stands right after it; the end has not moved. */
    twostate predicate Read<T>(r: Parse<T>, ok: bool)
      requires old(Valid())
      reads this
    {
      && Valid() && left <= old(left) && ok == r.Ok?
      && (ok ==> pos + left == old(pos + left) && Window() == r.rest)
    }

    method Take(count: nat) returns (ok: bool, bs: seq<byte>)
      requires Valid()
      modifies this
      ensures Read(Decoding.Take(old(Window()), count), ok)
      ensures ok ==> bs == Decoding.Take(old(Window()), count).v
      ensures !ok ==> pos == old(pos) && left == old(left)
    {
      if left < count {
        return false, [];
      }
      bs := data[pos..pos + count];
      assert Window()[..count] == bs;
      pos, left := pos + count, left - count;
      assert old(Window())[count..] == Window();
      return true, bs;
    }

    method ReadByte() returns (ok: bool, b: byte)
      requires Valid()
      modifies this
      ensures Valid() && ok == (old(left) > 0)
      ensures ok ==> pos == old(pos) + 1 && left == old(left) - 1
      ensures ok ==> old(Window()) != [] && b == old(Window())[0] && Window() == old(Window())[1..]
      ensures !ok ==> pos == old(pos) && left == old(left)
    {
      if left == 0 {
        return false, 0;
      }
      b := data[pos];
      pos, left := pos + 1, left - 1;
      assert Window() == old(Window())[1..];
      return true, b;
    }

    method DecodeVarint() returns (ok: bool, v: nat)
      requires Valid()
      modifies this
      ensures Read(Varint64(old(Window())), ok)
      ensures ok ==> v == Varint64(old(Window())).v
    {
      var bitpos := 0;
      v := 0;
      while true
        invariant Valid() && left <= old(left) && pos + left == old(pos + left)
        invariant Varint64(old(Window())) == Varint64From(Window(), bitpos, v)
        decreases left
      {
        if bitpos >= 64 {
          return false, 0;
        }
        var b;
        ok, b := ReadByte();
        if !ok {
          return false, 0;
        }
        v := BitOr(v, Shl(b % 128, bitpos) % U64);
        bitpos := bitpos + 7;
        if b < 128 {
          return true, v;
        }
      }
    }

    method DecodeVarint32() returns (ok: bool, v: nat)
      requires Valid()
      modifies this
      ensures Read(Varint32(old(Window())), ok)
      ensures ok ==> v == Varint32(old(Window())).v
    {
      hide BitOr, Shl;
      v := 0;
      var b;
      ok, b := ReadByte();
      if !ok {
        return;
      }
      if b < 128 {
        return true, b;
      }
      var bitpos: nat := 7;
      v := b % 128;
      while true
        invariant Valid() && left <= old(left) && pos + left == old(pos + left)
        invariant Varint32(old(Window())) == Varint32From(Window(), bitpos, v)
        decreases left
      {
        ok, b := ReadByte();
        if !ok {
          return;
        }
        if bitpos >= 32 {
          var signExtension := if bitpos < 63 then 0xFF else 0x01;
          if b % 128 != 0 && (v / U31 == 0 || b != signExtension) {
            return false, 0;
          }
        } else {
          v := BitOr(v, Shl(b % 128, bitpos) % U32);
        }
        bitpos := (bitpos + 7) % U8;
        if b < 128 {
          break;
        }
      }
      ok := !(bitpos == 35 && b / 16 % 8 != 0);
    }
  }

  // ---- Skipping, substreams

  method SkipVarint(s: IStream) returns (ok: bool)
    requires s.Valid()
    modifies s
    ensures s.Read(TakeVarint(old(s.Window())), ok)
  {
    while true
      invariant s.Valid() && s.left <= old(s.left) && s.pos + s.left == old(s.pos + s.left)
      invariant TakeVarint(old(s.Window())).Ok? == TakeVarint(s.Window()).Ok?
      invariant TakeVarint(s.Window()).Ok? ==> TakeVarint(old(s.Window())).rest == TakeVarint(s.Window()).rest
      decreases s.left
    {
      var b;
      ok, b := s.ReadByte();
      if !ok || b < 128 {
        return;
      }
    }
  }

  /** A length prefix, then a substream over the data; the parent's cursor waits at the data. */
  method MakeSubstream(s: IStream) returns (ok: bool, sub: IStream)
    requires s.Valid()
    modifies s
    ensures s.Valid() && s.left <= old(s.left) && ok == TakeDelimited(old(s.Window())).Ok?
    ensures fresh(sub) && sub.Valid() && sub.data == s.data
    ensures ok ==> sub.Window() == TakeDelimited(old(s.Window())).v
    ensures ok ==> sub.pos + sub.left + s.left == old(s.pos + s.left) && sub.left + s.left < old(s.left)
    ensures ok ==> s.data[sub.pos + sub.left..sub.pos + sub.left + s.left] == TakeDelimited(old(s.Window())).rest
  {
    var size;
    ok, size := s.DecodeVarint32();
    if !ok || s.left < size {
      ok := false;
      sub := new IStream.At(s.data, s.pos, 0);
      return;
    }
    sub := new IStream.At(s.data, s.pos, size);
    assert s.Window()[..size] == sub.Window();
    assert s.Window()[size..] == s.data[s.pos + size..s.pos + s.left];
    s.left := s.left - size;
    return true, sub;
  }

  /** Skip what is left of the substream and move the parent's cursor there. */
  method CloseSubstream(s: IStream, sub: IStream)
    requires s != sub && s.Valid() && sub.Valid() && s.data == sub.data
    requires sub.pos + sub.left + s.left <= |s.data|
    modifies s, sub
    ensures s.Valid() && s.pos == old(sub.pos + sub.left) && s.left == old(s.left)
    ensures s.Window() == s.data[old(sub.pos + sub.left)..old(sub.pos + sub.left + s.left)]
  {
    if sub.left != 0 {
      var _, _ := sub.Take(sub.left);
    }
    s.pos := sub.pos;
  }

  method SkipString(s: IStream) returns (ok: bool)
    requires s.Valid()
    modifies s
    ensures s.Read(TakeDelimited(old(s.Window())), ok)
  {
    var n;
    ok, n := s.DecodeVarint32();
    if ok {
      var skipped;
      ok, skipped := s.Take(n);
    }
  }

  method Skip(s: IStream, wireType: nat) returns (ok: bool)
    requires s.Valid()
    modifies s
    ensures s.Read(SkipField(wireType, old(s.Window())), ok)
  {
    var skipped;
    if wireType == WT_VARINT {
      ok := SkipVarint(s);
    } else if wireType == WT_64BIT {
      ok, skipped := s.Take(8);
    } else if wireType == WT_STRING {
      ok := SkipString(s);
    } else if wireType == WT_32BIT {
      ok, skipped := s.Take(4);
    } else {
      ok := false;
    }
  }

  // ---- Items

  method DecodeIntFrom(s: IStream, f: Field) returns (ok: bool, v: Value)
    requires s.Valid()
    modifies s
    ensures s.Read(DecodeInt(f, old(s.Window())), ok)
    ensures ok ==> v == DecodeInt(f, old(s.Window())).v
  {
    var w;
    ok, w := s.DecodeVarint();
    v := Int(0);
    if !ok {
      return;
    }
    if f.ltype.LVarint? {
      var i := if f.dataSize == 8 then Signed(w, 8) else Signed(w, 4);
      return SignedFits(i, f.dataSize), Int(i);
    } else if f.ltype.LUvarint? {
      return UnsignedFits(w, f.dataSize), Int(w);
    } else {
      var i := UnZigZag(w);
      return SignedFits(i, f.dataSize), Int(i);
    }
  }

  method DecodeFixedFrom(s: IStream, n: nat) returns (ok: bool, v: Value)
    requires s.Valid()
    modifies s
    ensures s.Read(DecodeFixed(n, old(s.Window())), ok)
    ensures ok ==> v == DecodeFixed(n, old(s.Window())).v
  {
    var bs;
    ok, bs := s.Take(n);
    v := Int(FromLittleEndian(bs));
  }

  method DecodeBlobFrom(s: IStream, f: Field) returns (ok: bool, v: Value)
    requires s.Valid()
    modifies s
    ensures s.Read(DecodeBlob(f, old(s.Window())), ok)
    ensures ok ==> v == DecodeBlob(f, old(s.Window())).v
  {
    v := Blob([]);
    var size, bs;
    ok, size := s.DecodeVarint32();
    if !ok {
      return;
    }
    if f.ltype.LString? {
      if size + 1 > f.dataSize {
        return false, v;
      }
      ok, bs := s.Take(size);
      return ok, Text(CString(bs));
    }
    if size > PB_SIZE_MAX {
      return false, v;
    }
    if f.ltype.LBytes? {
      if size + 1 > f.dataSize {
        return false, v;
      }
    } else if size == 0 {
      return true, Blob(seq(f.dataSize, _ => 0));
    } else if size != f.dataSize {
      return false, v;
    }
    ok, bs := s.Take(size);
    return ok, Blob(bs);
  }

  method DecodeScalarFrom(s: IStream, f: Field) returns (ok: bool, v: Value)
    requires s.Valid()
    modifies s
    ensures s.Read(DecodeScalar(f, old(s.Window())), ok)
    ensures ok ==> v == DecodeScalar(f, old(s.Window())).v
  {
    match f.ltype {
      case LVarint | LUvarint | LSvarint => ok, v := DecodeIntFrom(s, f);
      case LFixed32 => ok, v := DecodeFixedFrom(s, 4);
      case LFixed64 => ok, v := DecodeFixedFrom(s, 8);
      case LSubmessage(_) => ok, v := false, Int(0);
      case _ => ok, v := DecodeBlobFrom(s, f);
    }
  }

  /** Packed items, while there are bytes and room. */
  method DecodePackedFrom(sub: IStream, f: Field, items0: seq<Value>) returns (ok: bool, items: seq<Value>)
    requires sub.Valid()
    modifies sub
    ensures sub.Valid()
    ensures var r := DecodePacked(f, old(sub.Window()), items0); ok == r.Some? && (ok ==> items == r.value)
    ensures ok ==> sub.left == 0 && sub.pos == old(sub.pos + sub.left)
  {
    items := items0;
    while sub.left > 0 && |items| < f.arraySize
      invariant sub.Valid() && sub.pos + sub.left == old(sub.pos + sub.left)
      invariant DecodePacked(f, old(sub.Window()), items0) == DecodePacked(f, sub.Window(), items)
      decreases sub.left
    {
      var v;
      ok, v := DecodeScalarFrom(sub, f);
      if !ok {
        return;
      }
      items := items + [v];
    }
    ok := sub.left == 0;
  }

  /** At most ten bytes of a scalar, copied out for a callback. */
  method ReadRaw(s: IStream, wireType: nat) returns (ok: bool, bs: seq<byte>)
    requires s.Valid()
    modifies s
    ensures s.Read(TakeRaw(wireType, old(s.Window())), ok)
    ensures ok ==> bs == TakeRaw(wireType, old(s.Window())).v
  {
    bs := [];
    if wireType == WT_VARINT {
      ok, bs := ReadRawVarint(s);
    } else if wireType == WT_64BIT {
      ok, bs := s.Take(8);
    } else if wireType == WT_32BIT {
      ok, bs := s.Take(4);
    } else {
      ok := false;
    }
  }

  lemma TakeVarintUnfolds(w: seq<byte>)
    ensures w == [] ==> TakeVarint(w).Fail?
    ensures w != [] && w[0] < 128 ==> TakeVarint(w) == Ok([w[0]], w[1..])
    ensures w != [] && w[0] >= 128 ==>
              if TakeVarint(w[1..]).Fail? then TakeVarint(w).Fail?
              else TakeVarint(w) == Ok([w[0]] + TakeVarint(w[1..]).v, TakeVarint(w[1..]).rest)
  {
    if w != [] { assert w[..1] == [w[0]]; }
  }

  method ReadRawVarint(s: IStream) returns (ok: bool, bs: seq<byte>)
    requires s.Valid()
    modifies s
    ensures s.Read(TakeRaw(WT_VARINT, old(s.Window())), ok)
    ensures ok ==> bs == TakeRaw(WT_VARINT, old(s.Window())).v
  {
    hide TakeVarint;
    bs := [];
    while true
      invariant s.Valid() && s.left <= old(s.left) && s.pos + s.left == old(s.pos + s.left)
      invariant |bs| <= 10
      invariant var r, r0 := TakeVarint(s.Window()), TakeVarint(old(s.Window()));
                r.Ok? == r0.Ok? && (r.Ok? ==> r0.v == bs + r.v && r0.rest == r.rest)
      decreases s.left
    {
      if |bs| + 1 > 10 {
        return false, bs;
      }
      TakeVarintUnfolds(s.Window());
      var b;
      ok, b := s.ReadByte();
      if !ok {
        return;
      }
      bs := bs + [b];
      if b < 128 {
        return true, bs;
      }
    }
  }

  /** Draining in chunks of sixteen, as the bundle callback does. */
  method Drain(s: IStream, count: nat) returns (ok: bool)
    requires s.Valid() && count <= s.left
    modifies s
    ensures s.Valid() && ok && s.pos == old(s.pos) + count && s.left == old(s.left) - count
  {
    var n: nat, chunk := count, [];
    while n > 16
      invariant s.Valid() && n <= s.left
      invariant s.pos == old(s.pos) + (count - n) && s.left == old(s.left) - (count - n)
    {
      ok, chunk := s.Take(16);
      n := n - 16;
    }
    ok, chunk := s.Take(n);
  }

  /** The bundle callback: remember where the data is and how much, then drain it. */
  method GetBytesPointer(sub: IStream) returns (ok: bool, bundle: seq<byte>)
    requires sub.Valid()
    modifies sub
    ensures sub.Valid() && ok && bundle == old(sub.Window())
    ensures sub.left == 0 && sub.pos == old(sub.pos + sub.left)
  {
    bundle := sub.data[sub.pos..sub.pos + sub.left];
    ok := Drain(sub, sub.left);
  }

  method DecodeHookFrom(s: IStream, wireType: nat, slot: Slot) returns (ok: bool, slot': Slot)
    requires s.Valid()
    modifies s
    ensures s.Read(DecodeHook(wireType, old(s.Window()), slot), ok)
    ensures ok ==> slot' == DecodeHook(wireType, old(s.Window()), slot).v
  {
    slot' := slot;
    if !slot.Hook? || slot.bundle.None? {
      ok := Skip(s, wireType);
      return;
    }
    var bs;
    if wireType == WT_STRING {
      var sub;
      ok, sub := MakeSubstream(s);
      if !ok {
        return;
      }
      ok, bs := GetBytesPointer(sub);
      CloseSubstream(s, sub);
    } else {
      ok, bs := ReadRaw(s, wireType);
    }
    slot' := Hook(Some(bs));
  }

  // ---- Messages

  /** Initialising a struct field by field. */
  method SetToDefaults(fields: seq<Field>, dest: seq<Slot>) returns (slots: seq<Slot>)
    requires |dest| == SlotCount(fields)
    ensures slots == Defaults(fields, dest)
    decreases fields
  {
    slots := dest;
    var iter := new FieldIterator(fields, 0);
    ghost var n := 0;
    var more := fields != [];
    while more
      invariant 0 <= n <= |fields| && iter.Valid() && fresh(iter) && iter.fields == fields
      invariant if more then iter.pos == n < |fields| else n == |fields|
      invariant slots == DefaultsUpTo(fields, n, dest)
      decreases |fields| - n
    {
      SlotInRange(fields, n, n);
      var slot := SetSlotToDefault(fields[iter.pos], slots[iter.slot]);
      slots := slots[iter.slot := slot];
      more := iter.Next();
      n := n + 1;
    }
  }

  method SetSlotToDefault(f: Field, was: Slot) returns (slot: Slot)
    ensures slot == DefaultSlot(f, was)
    decreases f
  {
    if f.atype.Callback? {
      return was;
    }
    if f.htype.Repeated? {
      return Many([]);
    }
    if f.htype.Oneof? {
      return Union(0, Int(0));
    }
    if f.ltype.LSubmessage? {
      var sub := SetToDefaults(f.ltype.fields, Inner(ValueOf(was), f.ltype.fields));
      return One(false, Msg(sub));
    }
    if f.dflt.Some? {
      return One(false, f.dflt.value);
    }
    return One(false, ZeroValue(f));
  }

  /** A submessage in a substream of its own; the parent resumes right after it. */
  method DecodeSubmessageFrom(s: IStream, f: Field, start: Value) returns (ok: bool, v: Value)
    requires s.Valid() && WellFormedField(f) && f.ltype.LSubmessage?
    modifies s
    ensures s.Read(DecodeValue(f, old(s.Window()), start), ok)
    ensures ok ==> v == DecodeValue(f, old(s.Window()), start).v
    decreases s.left, 0
  {
    var sub;
    v := start;
    ok, sub := MakeSubstream(s);
    if !ok {
      return;
    }
    ghost var end := sub.pos + sub.left;
    var slots;
    ok, slots := DecodeNoInitFrom(sub, f.ltype.fields, Inner(start, f.ltype.fields));
    if !ok {
      return;
    }
    CloseSubstream(s, sub);
    v := Msg(slots);
  }

  method DecodeValueFrom(s: IStream, f: Field, start: Value) returns (ok: bool, v: Value)
    requires s.Valid() && WellFormedField(f)
    modifies s
    ensures s.Read(DecodeValue(f, old(s.Window()), start), ok)
    ensures ok ==> v == DecodeValue(f, old(s.Window()), start).v
    decreases s.left, 1
  {
    if f.ltype.LSubmessage? {
      ok, v := DecodeSubmessageFrom(s, f, start);
    } else {
      ok, v := DecodeScalarFrom(s, f);
    }
  }

  method StartFor(f: Field, was: Value) returns (start: Value)
    ensures start == StartValue(f, was)
  {
    if !f.ltype.LSubmessage? {
      return was;
    }
    var sub := f.ltype.fields;
    if f.htype.Repeated? || f.htype.Oneof? {
      var slots := SetToDefaults(sub, ZeroMemory(sub));
      return Msg(slots);
    }
    return Msg(Inner(was, sub));
  }

  method DecodePackedField(s: IStream, f: Field, slot: Slot) returns (ok: bool, slot': Slot)
    requires s.Valid() && f.ltype.Packable()
    modifies s
    ensures s.Read(DecodeRepeated(f, WT_STRING, old(s.Window()), slot), ok)
    ensures ok ==> slot' == DecodeRepeated(f, WT_STRING, old(s.Window()), slot).v
  {
    var sub, items;
    slot' := slot;
    ok, sub := MakeSubstream(s);
    if !ok {
      return;
    }
    ok, items := DecodePackedFrom(sub, f, ItemsOf(slot));
    if !ok {
      return;
    }
    CloseSubstream(s, sub);
    slot' := Many(items);
  }

  method DecodeFieldFrom(s: IStream, f: Field, wireType: nat, slot: Slot) returns (ok: bool, slot': Slot)
    requires s.Valid() && WellFormedField(f)
    modifies s
    ensures s.Read(DecodeField(f, wireType, old(s.Window()), slot), ok)
    ensures ok ==> slot' == DecodeField(f, wireType, old(s.Window()), slot).v
    decreases s.left, 2
  {
    hide WellFormedField, DecodeValue, DecodeHook, StartValue;
    slot' := slot;
    if f.atype.Callback? {
      ok, slot' := DecodeHookFrom(s, wireType, slot);
      return;
    }
    if f.htype.Repeated? {
      if wireType == WT_STRING && f.ltype.Packable() {
        ok, slot' := DecodePackedField(s, f, slot);
        return;
      }
      if |ItemsOf(slot)| >= f.arraySize {
        return false, slot;
      }
      var start := StartFor(f, Int(0));
      var v;
      ok, v := DecodeValueFrom(s, f, start);
      return ok, Many(ItemsOf(slot) + [v]);
    }
    var start := StartFor(f, ValueOf(slot));
    var v;
    ok, v := DecodeValueFrom(s, f, start);
    if f.htype.Oneof? {
      return ok, Union(f.tag, v);
    }
    return ok, One((f.htype.Optional? && f.sizeOffset != 0) || (slot.One? && slot.has), v);
  }

  /** One field after its tag: found and read into its slot, or unknown and skipped. */
  method DecodeRecord(s: IStream, iter: FieldIterator, key: nat, slots: seq<Slot>, word0: nat, word1: nat, ghost log: seq<nat>)
    returns (ok: bool, slots': seq<Slot>, word0': nat, word1': nat, ghost log': seq<nat>)
    requires s.Valid() && iter.Valid() && WellFormed(iter.fields) && |slots| == SlotCount(iter.fields)
    requires Marks(iter.fields, log, word0, 0) && Marks(iter.fields, log, word1, 1)
    modifies s, iter
    ensures iter.Valid()
    ensures s.Read(Record(iter.fields, key, old(s.Window()), State(slots, log, false)), ok)
    ensures ok ==> Record(iter.fields, key, old(s.Window()), State(slots, log, false)).v == State(slots', log', false)
    ensures ok ==> Marks(iter.fields, log', word0', 0) && Marks(iter.fields, log', word1', 1)
    decreases s.left, 3
  {
    hide Marks, WellFormedField, DecodeField, SkipField;
    slots', word0', word1', log' := slots, word0, word1, log;
    var fields := iter.fields;
    var tag, wireType := key / 8, key % 8;
    var found := iter.Find(tag);
    if !found {
      var extended := iter.FindExtension();
      ok := Skip(s, wireType);
      return;
    }
    if fields == [] {
      // The terminator itself was found: no integer fits its size.
      ok, slots' := false, slots;
      return;
    }
    var i := iter.pos;
    SlotInRange(fields, i, i);
    assert WellFormedField(fields[i]);
    if fields[i].htype.Required? && iter.required < PB_MAX_REQUIRED_FIELDS {
      word0', word1' := Mark(fields, log, i, iter.required, word0, word1);
    } else {
      Unmarked(fields, log, i, word0, word1);
    }
    var slot;
    ok, slot := DecodeFieldFrom(s, fields[i], wireType, slots[iter.slot]);
    slots' := slots[iter.slot := slot];
    log' := log + [i];
  }

  method Mark(fields: seq<Field>, ghost log: seq<nat>, i: nat, required: nat, word0: nat, word1: nat)
    returns (word0': nat, word1': nat)
    requires i < |fields| && fields[i].htype.Required? && required == RequiredBefore(fields, i) < PB_MAX_REQUIRED_FIELDS
    requires Marks(fields, log, word0, 0) && Marks(fields, log, word1, 1)
    ensures Marks(fields, log + [i], word0', 0) && Marks(fields, log + [i], word1', 1)
  {
    var bit := Pow2(required % 32);
    if required / 32 == 0 {
      MarkSets(fields, log, i, word0, 0);
      MarkStays(fields, log, i, word1, 1);
      return BitOr(word0, bit), word1;
    } else {
      MarkSets(fields, log, i, word1, 1);
      MarkStays(fields, log, i, word0, 0);
      return word0, BitOr(word1, bit);
    }
  }

  lemma Unmarked(fields: seq<Field>, log: seq<nat>, i: nat, word0: nat, word1: nat)
    requires i < |fields| && !Tracked(fields, i)
    requires Marks(fields, log, word0, 0) && Marks(fields, log, word1, 1)
    ensures Marks(fields, log + [i], word0, 0) && Marks(fields, log + [i], word1, 1)
  {
    MarkStays(fields, log, i, word0, 0);
    MarkStays(fields, log, i, word1, 1);
  }

  /** How many required fields the decoder tracks: seeking to the end of the descriptor. */
  method CountTracked(iter: FieldIterator) returns (count: nat)
    requires iter.Valid()
    modifies iter
    ensures iter.Valid() && count == TrackedCount(iter.fields)
  {
    count := iter.required;
    var lastRequired := Entry(iter.fields, iter.pos).htype.Required?;
    var more := iter.Next();
    while more
      invariant iter.Valid()
      invariant if more then iter.pos < |iter.fields|
                else iter.fields == [] || (count == RequiredBefore(iter.fields, |iter.fields| - 1)
                                           && lastRequired == iter.fields[|iter.fields| - 1].htype.Required?)
      invariant iter.fields == [] ==> count == 0
      decreases more, |iter.fields| - iter.pos
    {
      count := iter.required;
      lastRequired := iter.fields[iter.pos].htype.Required?;
      more := iter.Next();
    }
    if lastRequired && iter.fields != [] {
      count := count + 1;
    }
    if count > PB_MAX_REQUIRED_FIELDS {
      count := PB_MAX_REQUIRED_FIELDS;
    }
  }

  /**
   * The field loop and the required-field check. It succeeds exactly when every field parses and each
   * of the first 64 required fields occurred.
   */
  method DecodeNoInitFrom(s: IStream, fields: seq<Field>, dest: seq<Slot>) returns (ok: bool, slots: seq<Slot>)
    requires s.Valid() && WellFormed(fields) && |dest| == SlotCount(fields)
    modifies s
    ensures s.Read(DecodeNoInit(fields, old(s.Window()), dest), ok)
    ensures ok ==> slots == DecodeNoInit(fields, old(s.Window()), dest).v
    decreases s.left, 4
  {
    hide Marks, WellFormedField, Record, Varint32, RequiredMet, RequiredMetFrom;
    slots := dest;
    var iter := new FieldIterator(fields, 0);
    var word0: nat, word1: nat := 0, 0;
    ghost var log: seq<nat> := [];
    NothingMarked(fields, 0);
    NothingMarked(fields, 1);
    while s.left > 0
      invariant s.Valid() && s.left <= old(s.left) && s.pos + s.left == old(s.pos + s.left)
      invariant iter.Valid() && fresh(iter) && iter.fields == fields && |slots| == SlotCount(fields)
      invariant Marks(fields, log, word0, 0) && Marks(fields, log, word1, 1)
      invariant DecodeFields(fields, old(s.Window()), State(dest, [], false))
             == DecodeFields(fields, s.Window(), State(slots, log, false))
      decreases s.left
    {
      var key;
      ok, key := s.DecodeVarint32();
      if !ok {
        return;
      }
      if key == 0 {
        break;
      }
      var next, w0, w1;
      ghost var grown;
      ok, next, w0, w1, grown := DecodeRecord(s, iter, key, slots, word0, word1, log);
      if !ok {
        return;
      }
      slots, word0, word1, log := next, w0, w1, grown;
    }
    RequiredMetTest(fields, log, 0);
    var count := CountTracked(iter);
    ok := CheckBitmap(fields, log, word0, word1, count);
    LoopResult(fields, log);
  }

  lemma LoopResult(fields: seq<Field>, log: seq<nat>)
    ensures RequiredMet(fields, log) <==> RequiredMetFrom(fields, log, 0)
  {
    RequiredMetTest(fields, log, 0);
  }

  method DecodeFrom(s: IStream, fields: seq<Field>, dest: seq<Slot>) returns (ok: bool, slots: seq<Slot>)
    requires s.Valid() && WellFormed(fields) && |dest| == SlotCount(fields)
    modifies s
    ensures s.Read(Decode(fields, old(s.Window()), dest), ok)
    ensures ok ==> slots == Decode(fields, old(s.Window()), dest).v
  {
    slots := SetToDefaults(fields, dest);
    ok, slots := DecodeNoInitFrom(s, fields, slots);
  }

  /** A length-prefixed message. Afterwards the cursor stands right after prefix and length. */
  method DecodeDelimitedFrom(s: IStream, fields: seq<Field>, dest: seq<Slot>) returns (ok: bool, slots: seq<Slot>)
    requires s.Valid() && WellFormed(fields) && |dest| == SlotCount(fields)
    modifies s
    ensures s.Read(DecodeDelimited(fields, old(s.Window()), dest), ok)
    ensures ok ==> slots == DecodeDelimited(fields, old(s.Window()), dest).v
  {
    slots := dest;
    var sub;
    ok, sub := MakeSubstream(s);
    if !ok {
      return;
    }
    ok, slots := DecodeFrom(sub, fields, dest);
    if !ok {
      return;
    }
    CloseSubstream(s, sub);
  }
}
