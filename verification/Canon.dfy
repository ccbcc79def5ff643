/**
 * What survives the wire. Fields that are not written come back as the destination's defaults; every
 * field that is written comes back as it was.
 */
module Canon {
  import opened Options
  import opened Schema
  import opened Presence
  import opened Decoding

  /** Whether anything is to be written for the field. */
  predicate Written(f: Field, s: Slot) {
    if f.atype.Callback? then s.Hook? && s.bundle.Some?
    else if f.htype.Repeated? then |ItemsOf(s)| > 0
    else Says(f, s)
  }

  /** The value v as decoded over start. */
  function CanonValue(f: Field, v: Value, start: Value): Value
    decreases f, 0
  {
    if f.ltype.LSubmessage? then
      var sub := f.ltype.fields;
      Msg(Overlay(sub, |sub|, Inner(v, sub), Inner(start, sub)))
    else v
  }

  /** The first n items of an array, each decoded into a fresh entry. */
  function CanonItems(f: Field, items: seq<Value>, n: nat): (r: seq<Value>)
    requires n <= |items|
    ensures |r| == n
    decreases f, 1, n
  {
    if n == 0 then []
    else CanonItems(f, items, n - 1) + [CanonValue(f, items[n - 1], StartValue(f, Int(0)))]
  }

  /** The slot s, written and read back over base. */
  function CanonSlot(f: Field, s: Slot, base: Slot): Slot
    decreases f, 2
  {
    if f.atype.Callback? then
      if base.Hook? && base.bundle.Some? && s.Hook? then s else base
    else match f.htype
      case Repeated => Many(CanonItems(f, ItemsOf(s), |ItemsOf(s)|))
      case Oneof => Union(f.tag, CanonValue(f, ValueOf(s), StartValue(f, ValueOf(base))))
      case _ =>
        One((f.htype.Optional? && f.sizeOffset != 0) || (base.One? && base.has),
            CanonValue(f, ValueOf(s), StartValue(f, ValueOf(base))))
  }

  /** base with the first n fields of msg written over it. */
  function Overlay(fields: seq<Field>, n: nat, msg: seq<Slot>, base: seq<Slot>): (r: seq<Slot>)
    requires n <= |fields| && |msg| == |base| == SlotCount(fields)
    ensures |r| == |base|
    decreases fields, n
  {
    if n == 0 then base
    else
      var done := Overlay(fields, n - 1, msg, base);
      SlotInRange(fields, n - 1, n - 1);
      var k := SlotOf(fields, n - 1);
      if Written(fields[n - 1], msg[k]) then done[k := CanonSlot(fields[n - 1], msg[k], done[k])]
      else done
  }

  // ---- Which messages decode

  /** Every string that is written leaves room for its terminator. */
  predicate TerminatedValue(f: Field, v: Value)
    decreases f, 0
  {
    match f.ltype
    case LString => v.Text? && |v.s| < f.dataSize
    case LSubmessage(sub) => Decodable(sub, 0, Inner(v, sub))
    case _ => true
  }

  predicate TerminatedItems(f: Field, items: seq<Value>, from: nat)
    requires from <= |items|
    decreases f, 1, |items| - from
  {
    from == |items| || (TerminatedValue(f, items[from]) && TerminatedItems(f, items, from + 1))
  }

  predicate DecodableSlot(f: Field, s: Slot)
    decreases f, 2
  {
    if f.atype.Callback? then true
    else if f.htype.Repeated? then TerminatedItems(f, ItemsOf(s), 0)
    else Says(f, s) ==> TerminatedValue(f, ValueOf(s))
  }

  /** From field `from` on: strings are terminated and tracked required fields are written. */
  predicate Decodable(fields: seq<Field>, from: nat, msg: seq<Slot>)
    requires from <= |fields| && |msg| == SlotCount(fields)
    decreases fields, |fields| - from
  {
    from == |fields| ||
    (SlotInRange(fields, from, from);
     var s := msg[SlotOf(fields, from)];
     && DecodableSlot(fields[from], s)
     && (Tracked(fields, from) ==> Written(fields[from], s))
     && Decodable(fields, from + 1, msg))
  }

  lemma {:induction false} DecodableAt(fields: seq<Field>, from: nat, msg: seq<Slot>, i: nat)
    requires |msg| == SlotCount(fields) && from <= i < |fields| && Decodable(fields, from, msg)
    ensures SlotOf(fields, i) < |msg|
    ensures DecodableSlot(fields[i], msg[SlotOf(fields, i)])
    ensures Tracked(fields, i) ==> Written(fields[i], msg[SlotOf(fields, i)])
    decreases i - from
  {
    SlotInRange(fields, i, i);
    if from < i { DecodableAt(fields, from + 1, msg, i); }
  }

  lemma {:induction false} TerminatedAt(f: Field, items: seq<Value>, from: nat, i: nat)
    requires from <= i < |items| && TerminatedItems(f, items, from)
    ensures TerminatedValue(f, items[i])
    decreases i - from
  {
    if from < i { TerminatedAt(f, items, from + 1, i); }
  }

  // ---- Freshly initialised memory

  /** Arrays are empty, here and in every submessage that is merged in place. */
  ghost predicate Fresh(fields: seq<Field>, slots: seq<Slot>)
    requires |slots| == SlotCount(fields)
    decreases fields, 1
  {
    forall i :: 0 <= i < |fields| ==> FreshAt(fields, slots, i)
  }

  ghost predicate FreshAt(fields: seq<Field>, slots: seq<Slot>, i: nat)
    requires |slots| == SlotCount(fields) && i < |fields|
    decreases fields, 0
  {
    SlotInRange(fields, i, i);
    FreshSlot(fields[i], slots[SlotOf(fields, i)])
  }

  ghost predicate FreshSlot(f: Field, s: Slot)
    decreases f, 1
  {
    f.atype.Static? ==>
      match f.htype
      case Repeated => ItemsOf(s) == []
      case Oneof => true
      case _ => FreshValue(f, ValueOf(s))
  }

  ghost predicate FreshValue(f: Field, v: Value)
    decreases f, 0
  {
    f.ltype.LSubmessage? ==> Fresh(f.ltype.fields, Inner(v, f.ltype.fields))
  }

  lemma {:induction false} DefaultValueFresh(f: Field, was: Value)
    ensures FreshValue(f, DefaultValue(f, was))
    decreases f, 0
  {
    if f.ltype.LSubmessage? {
      DefaultsFresh(f.ltype.fields, Inner(was, f.ltype.fields));
    }
  }

  lemma {:induction false} DefaultSlotFresh(f: Field, was: Slot)
    ensures FreshSlot(f, DefaultSlot(f, was))
    decreases f, 1
  {
    DefaultValueFresh(f, ValueOf(was));
  }

  /** Initialising the first n fields leaves those fields fresh. */
  lemma {:induction false} DefaultsUpToFresh(fields: seq<Field>, n: nat, was: seq<Slot>, i: nat)
    requires n <= |fields| && |was| == SlotCount(fields) && i < n
    ensures FreshAt(fields, DefaultsUpTo(fields, n, was), i)
    decreases fields, 0, n
  {
    var done := DefaultsUpTo(fields, n - 1, was);
    SlotInRange(fields, n - 1, n - 1);
    SlotInRange(fields, i, n - 1);
    var k := SlotOf(fields, n - 1);
    if i == n - 1 {
      DefaultSlotFresh(fields[n - 1], done[k]);
    } else {
      DefaultsUpToFresh(fields, n - 1, was, i);
      if !fields[n - 1].htype.Oneof? {
        SlotIsNew(fields, i, n - 1);
      } else if SlotOf(fields, i) == k {
        SharedSlotIsOneof(fields, i, n - 1);
      }
    }
  }

  /** Two fields that share a slot are both members of a union. */
  lemma {:induction false} SharedSlotIsOneof(fields: seq<Field>, i: nat, j: nat)
    requires i < j < |fields| && SlotOf(fields, i) == SlotOf(fields, j)
    ensures fields[i].htype.Oneof? && fields[j].htype.Oneof?
  {
    SlotInRange(fields, i, j - 1);
    assert Joined(fields, j);
    if i < j - 1 { SharedSlotIsOneof(fields, i, j - 1); }
  }

  /** Whatever the memory held, initialising a message leaves it fresh. */
  lemma {:induction false} DefaultsFresh(fields: seq<Field>, was: seq<Slot>)
    requires |was| == SlotCount(fields)
    ensures Fresh(fields, Defaults(fields, was))
    decreases fields, 1
  {
    forall i | 0 <= i < |fields| ensures FreshAt(fields, Defaults(fields, was), i) {
      DefaultsUpToFresh(fields, |fields|, was, i);
    }
  }

  // ---- The defaults, by what they are

  /** A value after initialisation: the declared default, else zero, empty, or a message of initialised fields. */
  ghost predicate InitialValue(f: Field, v: Value, was: Value)
    decreases f, 0
  {
    if f.ltype.LSubmessage? then
      v.Msg? && |v.slots| == SlotCount(f.ltype.fields) && Initial(f.ltype.fields, v.slots, Inner(was, f.ltype.fields))
    else if f.dflt.Some? then v == f.dflt.value
    else match f.ltype
      case LBytes => v == Blob([])
      case LString => v == Text([])
      case LFixedBytes => v.Blob? && |v.b| == f.dataSize && forall j :: 0 <= j < |v.b| ==> v.b[j] == 0
      case _ => v == Int(0)
  }

  /** A slot after initialisation: has-flag off, array empty, union unselected, callback as it was. */
  ghost predicate InitialSlot(f: Field, s: Slot, was: Slot)
    decreases f, 1
  {
    if f.htype.Oneof? then f.atype.Static? ==> s.Union? && s.which == 0
    else if f.atype.Callback? then s == was
    else if f.htype.Repeated? then s == Many([])
    else s.One? && !s.has && InitialValue(f, s.v, ValueOf(was))
  }

  ghost predicate Initial(fields: seq<Field>, slots: seq<Slot>, was: seq<Slot>)
    requires |slots| == |was| == SlotCount(fields)
    decreases fields, 1
  {
    forall i :: 0 <= i < |fields| ==> InitialAt(fields, slots, was, i)
  }

  ghost predicate InitialAt(fields: seq<Field>, slots: seq<Slot>, was: seq<Slot>, i: nat)
    requires |slots| == |was| == SlotCount(fields) && i < |fields|
    decreases fields, 0
  {
    SlotInRange(fields, i, i);
    InitialSlot(fields[i], slots[SlotOf(fields, i)], was[SlotOf(fields, i)])
  }

  lemma {:induction false} DefaultsUntouched(fields: seq<Field>, n: nat, was: seq<Slot>, i: nat)
    requires n <= i < |fields| && |was| == SlotCount(fields) && !fields[i].htype.Oneof?
    ensures SlotOf(fields, i) < |was|
    ensures DefaultsUpTo(fields, n, was)[SlotOf(fields, i)] == was[SlotOf(fields, i)]
    decreases n
  {
    SlotInRange(fields, i, i);
    if n > 0 {
      DefaultsUntouched(fields, n - 1, was, i);
      SlotIsNew(fields, n - 1, i);
    }
  }

  lemma {:induction false} DefaultSlotInitial(f: Field, done: Slot, was: Slot)
    requires f.htype.Oneof? || done == was
    ensures InitialSlot(f, DefaultSlot(f, done), was)
    decreases f, 1
  {
    if f.ltype.LSubmessage? && !f.htype.Oneof? {
      DefaultsInitial(f.ltype.fields, Inner(ValueOf(was), f.ltype.fields));
    }
  }

  /** Initialising the first n fields initialises each of them. */
  lemma {:induction false} DefaultsUpToInitial(fields: seq<Field>, n: nat, was: seq<Slot>, i: nat)
    requires n <= |fields| && |was| == SlotCount(fields) && i < n
    ensures InitialAt(fields, DefaultsUpTo(fields, n, was), was, i)
    decreases fields, 0, n
  {
    hide InitialSlot, DefaultSlot;
    var done := DefaultsUpTo(fields, n - 1, was);
    SlotInRange(fields, n - 1, n - 1);
    SlotInRange(fields, i, n - 1);
    var k := SlotOf(fields, n - 1);
    if i == n - 1 {
      if !fields[i].htype.Oneof? { DefaultsUntouched(fields, i, was, i); }
      DefaultSlotInitial(fields[n - 1], done[k], was[k]);
    } else {
      DefaultsUpToInitial(fields, n - 1, was, i);
      if SlotOf(fields, i) == k {
        SharedSlotIsOneof(fields, i, n - 1);
        SharedInitial(fields[i], fields[n - 1], done[k], was[k]);
      }
    }
  }

  lemma SharedInitial(f: Field, g: Field, done: Slot, was: Slot)
    requires f.htype.Oneof? && g.htype.Oneof? && InitialSlot(f, done, was)
    ensures InitialSlot(f, DefaultSlot(g, done), was)
  {
  }

  /** Initialising a message initialises every field at every depth. */
  lemma {:induction false} DefaultsInitial(fields: seq<Field>, was: seq<Slot>)
    requires |was| == SlotCount(fields)
    ensures Initial(fields, Defaults(fields, was), was)
    decreases fields, 1
  {
    forall i | 0 <= i < |fields| ensures InitialAt(fields, Defaults(fields, was), was, i) {
      DefaultsUpToInitial(fields, |fields|, was, i);
    }
  }

  /** What initialising leaves in the slot of one field. */
  lemma DefaultsAt(fields: seq<Field>, was: seq<Slot>, i: nat)
    requires |was| == SlotCount(fields) && i < |fields|
    ensures SlotOf(fields, i) < |was|
    ensures InitialSlot(fields[i], Defaults(fields, was)[SlotOf(fields, i)], was[SlotOf(fields, i)])
  {
    SlotInRange(fields, i, i);
    DefaultsInitial(fields, was);
    assert InitialAt(fields, Defaults(fields, was), was, i);
  }

  /** Writing earlier fields leaves the slot of a field outside a union alone. */
  lemma {:induction false} OverlayUntouched(fields: seq<Field>, n: nat, msg: seq<Slot>, base: seq<Slot>, i: nat)
    requires n <= i < |fields| && |msg| == |base| == SlotCount(fields) && !fields[i].htype.Oneof?
    ensures SlotOf(fields, i) < |base|
    ensures Overlay(fields, n, msg, base)[SlotOf(fields, i)] == base[SlotOf(fields, i)]
    decreases n
  {
    SlotInRange(fields, i, i);
    if n > 0 {
      OverlayUntouched(fields, n - 1, msg, base, i);
      SlotIsNew(fields, n - 1, i);
    }
  }
}
