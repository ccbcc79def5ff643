/**
 * The Protocol Buffers wire format as its specification publishes it, and what a message looks like in it.
 * Nothing here refers to the encoder or the decoder: numbers are numerals.
 */
module Wire {
  import opened Bits
  import opened Options
  import opened Schema
  import opened Presence

  // ---- Reading records (section "Message Structure")

  /** What a record carries: a number, eight or four bytes read as a number, or bytes. */
  datatype Item = Num(v: nat) | Word8(w: nat) | Word4(x: nat) | Bytes(b: seq<byte>)

  datatype Rec = Rec(number: nat, wire: nat, item: Item)

  /** Base 128 varints: the low seven bits first, the top bit says that more follow. */
  function ReadVarint(bs: seq<byte>): Parse<nat> {
    if bs == [] then Fail
    else if bs[0] < 128 then Ok(bs[0], bs[1..])
    else
      match ReadVarint(bs[1..])
      case Fail => Fail
      case Ok(v, rest) => Ok(bs[0] - 128 + 128 * v, rest)
  }

  /** n bytes, the least significant first. */
  function ReadWord(bs: seq<byte>, n: nat): Parse<nat>
    decreases n
  {
    if n == 0 then Ok(0, bs)
    else if bs == [] then Fail
    else
      match ReadWord(bs[1..], n - 1)
      case Fail => Fail
      case Ok(v, rest) => Ok(bs[0] + 256 * v, rest)
  }

  /** Wire type 0 is a varint, 1 eight bytes, 2 a length and that many bytes, 5 four bytes. */
  function ReadItem(wire: nat, bs: seq<byte>): Parse<Item> {
    if wire == 0 then
      match ReadVarint(bs) case Fail => Fail case Ok(v, rest) => Ok(Num(v), rest)
    else if wire == 1 then
      match ReadWord(bs, 8) case Fail => Fail case Ok(v, rest) => Ok(Word8(v), rest)
    else if wire == 2 then
      match ReadVarint(bs)
      case Fail => Fail
      case Ok(n, rest) => if n > |rest| then Fail else Ok(Bytes(rest[..n]), rest[n..])
    else if wire == 5 then
      match ReadWord(bs, 4) case Fail => Fail case Ok(v, rest) => Ok(Word4(v), rest)
    else Fail
  }

  /** A key is a varint: eight times the field number, plus the wire type. */
  function ReadRec(bs: seq<byte>): Parse<Rec> {
    match ReadVarint(bs)
    case Fail => Fail
    case Ok(key, rest) =>
      match ReadItem(key % 8, rest)
      case Fail => Fail
      case Ok(item, rest') => Ok(Rec(key / 8, key % 8, item), rest')
  }

  lemma {:induction false} VarintShrinks(bs: seq<byte>)
    ensures ReadVarint(bs).Ok? ==> |ReadVarint(bs).rest| < |bs|
  {
    if bs != [] { VarintShrinks(bs[1..]); }
  }

  lemma {:induction false} WordShrinks(bs: seq<byte>, n: nat)
    ensures ReadWord(bs, n).Ok? ==> |ReadWord(bs, n).rest| <= |bs|
    decreases n
  {
    if n > 0 && bs != [] { WordShrinks(bs[1..], n - 1); }
  }

  lemma ItemShrinks(wire: nat, bs: seq<byte>)
    ensures ReadItem(wire, bs).Ok? ==> |ReadItem(wire, bs).rest| <= |bs|
  {
    VarintShrinks(bs);
    WordShrinks(bs, 8);
    WordShrinks(bs, 4);
  }

  lemma RecShrinks(bs: seq<byte>)
    ensures ReadRec(bs).Ok? ==> |ReadRec(bs).rest| < |bs|
  {
    VarintShrinks(bs);
    if ReadVarint(bs).Ok? { ItemShrinks(ReadVarint(bs).v % 8, ReadVarint(bs).rest); }
  }

  /** A message is records one after the other. */
  function ReadAll(bs: seq<byte>): Option<seq<Rec>>
    decreases |bs|
  {
    if bs == [] then Some([])
    else
      match ReadRec(bs)
      case Fail => None
      case Ok(r, rest) =>
        RecShrinks(bs);
        var more := ReadAll(rest);
        if more.None? then None else Some([r] + more.value)
  }

  /** The items of a packed array, of the given wire type (section "Packed Repeated Fields"). */
  function ReadItems(wire: nat, bs: seq<byte>): Option<seq<Item>>
    decreases |bs|
  {
    if bs == [] then Some([])
    else
      match ReadItem(wire, bs)
      case Fail => None
      case Ok(item, rest) =>
        if |rest| >= |bs| then None
        else
          var more := ReadItems(wire, rest);
          if more.None? then None else Some([item] + more.value)
  }

  // ---- What a message means in records

  function NumericWire(t: LType): nat {
    match t
    case LFixed64 => 1
    case LFixed32 => 5
    case _ => 0
  }

  /** A number of each type: int32 and int64 sign-extended to 64 bits, sint32 and sint64 in zigzag order 0, -1, 1, -2, 2. */
  predicate NumericItem(t: LType, i: int, item: Item) {
    match t
    case LVarint => item.Num? && item.v == if i < 0 then i + 0x1_0000_0000_0000_0000 else i
    case LUvarint => item.Num? && item.v == i
    case LSvarint => item.Num? && (if i < 0 then item.v + 1 == 2 * (-i) else item.v == 2 * i)
    case LFixed64 => item.Word8? && item.w == i
    case LFixed32 => item.Word4? && item.x == i
    case _ => false
  }

  /** Record r is field f with value v. */
  ghost predicate Means(f: Field, v: Value, r: Rec)
    decreases f, 0
  {
    && r.number == f.tag
    && if Numeric(f.ltype) then r.wire == NumericWire(f.ltype) && v.Int? && NumericItem(f.ltype, v.i, r.item)
       else
         && r.wire == 2 && r.item.Bytes?
         && match f.ltype
            case LString => v == Text(r.item.b)
            case LSubmessage(sub) =>
              v.Msg? && |v.slots| == SlotCount(sub) && ReadAll(r.item.b).Some?
              && MessageMeans(sub, |sub|, v.slots, ReadAll(r.item.b).value)
            case _ => v == Blob(r.item.b)
  }

  /** Record r is the packed array of f with these items. */
  ghost predicate PackedMeans(f: Field, items: seq<Value>, r: Rec) {
    && r.number == f.tag && r.wire == 2 && r.item.Bytes?
    && var parts := ReadItems(NumericWire(f.ltype), r.item.b);
    && parts.Some? && |parts.value| == |items|
    && forall j :: 0 <= j < |items| ==> items[j].Int? && NumericItem(f.ltype, items[j].i, parts.value[j])
  }

  /** The records of one field, given what its slot holds. */
  ghost predicate FieldMeans(f: Field, s: Slot, rs: seq<Rec>)
    decreases f, 1
  {
    if f.atype.Callback? then
      s.Hook? && rs == if s.bundle.Some? then [Rec(f.tag, 2, Bytes(s.bundle.value))] else []
    else if f.htype.Repeated? then
      && s.Many?
      && if s.items == [] then rs == []
         else if Numeric(f.ltype) then |rs| == 1 && PackedMeans(f, s.items, rs[0])
         else |rs| == |s.items| && forall j :: 0 <= j < |rs| ==> Means(f, s.items[j], rs[j])
    else if Says(f, s) then |rs| == 1 && Means(f, ValueOf(s), rs[0])
    else rs == []
  }

  /** The records of the first n fields, one field after the other. */
  ghost predicate MessageMeans(fields: seq<Field>, n: nat, msg: seq<Slot>, rs: seq<Rec>)
    requires n <= |fields| && |msg| == SlotCount(fields)
    decreases fields, n
  {
    if n == 0 then rs == []
    else
      SlotInRange(fields, n - 1, n - 1);
      exists k :: 0 <= k <= |rs| && MessageMeans(fields, n - 1, msg, rs[..k])
                  && FieldMeans(fields[n - 1], msg[SlotOf(fields, n - 1)], rs[k..])
  }
}
