/** Pending events: a list of elements, and a bitmap that says at once which types are in it. */
module EventQueue {
  import opened Options

  const EVENT_TIMEOUT_FOREVER: bv32 := 0xFFFFFFFF
  const MBLUE_OK: int := 0
  const MBLUE_ELEMENT_EXIT: int := -1
  const MBLUE_ERR_UNKNOWN: int := -60
  const MBLUE_ERR_INVALID_PARAMETER: int := -55

  const CALL_START: nat := 0
  const CALL_WAKEUP: nat := 1
  const CALL_CANCEL: nat := 2
  const CALL_FINISH: nat := 3
  const CALL_CHAIN_MAX: nat := 4

  /** chain holds the callbacks of the four slots; timer says whether a timer was started. */
  datatype Element = Element(kind: bv32, period: bv32, chain: seq<Option<nat>>, timer: bool)

  datatype Queue = Queue(bm: bv32, elements: seq<Element>)

  // ---- Bits

  predicate Has(bm: bv32, t: bv32) { bm & t != 0 }
  function With(bm: bv32, t: bv32): bv32 { bm | t }
  function Clear(bm: bv32, t: bv32): bv32 { bm & !t }
  predicate SingleBit(t: bv32) { t != 0 && t & (t - 1) == 0 }

  lemma HasKept(a: bv32, b: bv32, t: bv32)
    requires !Has(With(a, b), t)
    ensures !Has(a, t) && !Has(b, t)
  {
  }

  lemma HasNeither(a: bv32, b: bv32, t: bv32)
    requires !Has(a, t) && !Has(b, t)
    ensures !Has(With(a, b), t)
  {
  }

  lemma HasWith(a: bv32, b: bv32, t: bv32)
    ensures Has(With(a, b), t) <==> Has(a, t) || Has(b, t)
  {
    hide Has, With;
    if !Has(With(a, b), t) {
      HasKept(a, b, t);
    } else if !Has(a, t) && !Has(b, t) {
      HasNeither(a, b, t);
    }
  }

  /** Single bits overlap only when they are the same. */
  lemma HasSingle(t: bv32, u: bv32)
    requires SingleBit(t) && SingleBit(u)
    ensures Has(t, u) <==> t == u
  {
  }

  lemma ClearWith(a: bv32, b: bv32, t: bv32)
    ensures Clear(With(a, b), t) == With(Clear(a, t), Clear(b, t))
  {
    assert (a | b) & !t == (a & !t) | (b & !t);
  }

  lemma ClearSingle(t: bv32, u: bv32)
    requires SingleBit(t) && SingleBit(u)
    ensures Clear(t, u) == if t == u then 0 else t
  {
  }

  lemma WithZero(a: bv32)
    ensures With(a, 0) == a && Clear(0, a) == 0 && !Has(0, a)
  {
  }

  lemma WithAssociative(a: bv32, b: bv32, c: bv32)
    ensures With(With(a, b), c) == With(a, With(b, c)) && With(a, b) == With(b, a)
  {
  }

  // ---- The bitmap and the list

  /** All types in the list, or-ed together. */
  function Types(es: seq<Element>): bv32 {
    if es == [] then 0 else With(es[0].kind, Types(es[1..]))
  }

  ghost predicate Occurs(es: seq<Element>, t: bv32) { exists k :: 0 <= k < |es| && es[k].kind == t }

  /** Single-bit types, each at most once. */
  ghost predicate Distinct(es: seq<Element>) {
    && (forall k :: 0 <= k < |es| ==> SingleBit(es[k].kind))
    && (forall j, k :: 0 <= j < k < |es| ==> es[j].kind != es[k].kind)
  }

  ghost predicate Agrees(q: Queue) { q.bm == Types(q.elements) && Distinct(q.elements) }

  /** The bit test answers what a search of the list would. */
  lemma {:induction false} TestIsSearch(es: seq<Element>, t: bv32)
    requires Distinct(es) && SingleBit(t)
    ensures Has(Types(es), t) <==> Occurs(es, t)
  {
    hide Has, With, SingleBit;
    if es == [] {
      WithZero(t);
    } else {
      TestIsSearch(es[1..], t);
      HasWith(es[0].kind, Types(es[1..]), t);
      HasSingle(es[0].kind, t);
      assert es == [es[0]] + es[1..];
      assert Occurs(es[1..], t) ==> Occurs(es, t) by {
        if k :| 0 <= k < |es| - 1 && es[1..][k].kind == t { assert es[k + 1].kind == t; }
      }
    }
  }

  lemma {:induction false} TypesConcat(a: seq<Element>, b: seq<Element>)
    ensures Types(a + b) == With(Types(a), Types(b))
  {
    hide With;
    WithZero(Types(b));
    WithAssociative(0, Types(b), 0);
    if a == [] {
      assert a + b == b;
    } else {
      assert (a + b)[1..] == a[1..] + b;
      TypesConcat(a[1..], b);
      WithAssociative(a[0].kind, Types(a[1..]), Types(b));
    }
  }

  // ---- Operations

  /** The list without the elements of a type. */
  function Without(es: seq<Element>, t: bv32): seq<Element> {
    if es == [] then []
    else (if es[0].kind == t then [] else [es[0]]) + Without(es[1..], t)
  }

  function Timed(e: Element): Element {
    e.(timer := e.period != 0 && e.period != EVENT_TIMEOUT_FOREVER)
  }

  /** At the end, unless the type is pending already. */
  function Add(q: Queue, e: Element): Queue {
    if Has(q.bm, e.kind) then q else Queue(With(q.bm, e.kind), q.elements + [Timed(e)])
  }

  ghost function Delete(q: Queue, t: bv32): Queue {
    if Occurs(q.elements, t) then Queue(Clear(q.bm, t), Without(q.elements, t)) else q
  }

  /** Wakeup removes the element when its callbacks say that it is done. */
  ghost function Wake(q: Queue, t: bv32, done: bool): Queue {
    if Has(q.bm, t) && done then Delete(q, t) else q
  }

  function Scheduled(period: bv32, t: bv32, callback: nat): Element {
    Element(t, period, [None, Some(callback), None, None], false)
  }

  ghost function Schedule(q: Queue, period: bv32, t: bv32, callback: nat): Queue {
    if Has(q.bm, t) then q else Add(q, Scheduled(period, t, callback))
  }

  ghost function Reschedule(q: Queue, period: bv32, t: bv32, callback: nat): Queue {
    Schedule(if Has(q.bm, t) then Delete(q, t) else q, period, t, callback)
  }

  /** An element as schedule queues it: only the wakeup callback set, a timer unless the period is 0 or forever. */
  ghost predicate Pends(e: Element, t: bv32, period: bv32, callback: nat) {
    && e.kind == t && e.period == period
    && |e.chain| == 4 && e.chain[CALL_WAKEUP] == Some(callback)
    && e.chain[CALL_START].None? && e.chain[CALL_CANCEL].None? && e.chain[CALL_FINISH].None?
    && (e.timer <==> period != 0 && period != 0xFFFFFFFF)
  }

  /** One more element at the end, the others as they were. */
  ghost predicate Appended(es: seq<Element>, es': seq<Element>) {
    |es'| == |es| + 1 && es'[..|es|] == es
  }

  /** A type that is pending is left alone; any other is queued last with the period and callback asked for. */
  lemma ScheduleAppends(q: Queue, period: bv32, t: bv32, callback: nat)
    ensures var q' := Schedule(q, period, t, callback);
            if Has(q.bm, t) then q' == q
            else Appended(q.elements, q'.elements) && Pends(q'.elements[|q.elements|], t, period, callback)
  {
    hide Has, With;
  }

  // ---- What they keep

  lemma AddAgrees(q: Queue, e: Element)
    requires Agrees(q) && SingleBit(e.kind)
    ensures Agrees(Add(q, e)) && Occurs(Add(q, e).elements, e.kind)
  {
    hide Has, With, SingleBit, Types;
    TestIsSearch(q.elements, e.kind);
    if !Has(q.bm, e.kind) {
      var es := q.elements + [Timed(e)];
      TypesConcat(q.elements, [Timed(e)]);
      TypesOne(Timed(e));
      assert es[|q.elements|].kind == e.kind;
    }
  }

  lemma TypesOne(e: Element)
    ensures Types([e]) == e.kind
  {
    hide With;
    assert Types([]) == 0;
    assert Types([e]) == With(e.kind, Types([e][1..]));
    WithZero(e.kind);
  }

  lemma OccursCons(e: Element, es: seq<Element>, u: bv32)
    ensures Occurs([e] + es, u) <==> e.kind == u || Occurs(es, u)
  {
    var all := [e] + es;
    if e.kind == u { assert all[0].kind == u; }
    if Occurs(es, u) {
      var k :| 0 <= k < |es| && es[k].kind == u;
      assert all[k + 1].kind == u;
    }
  }

  lemma DistinctCons(e: Element, es: seq<Element>)
    ensures Distinct([e] + es) <==> SingleBit(e.kind) && Distinct(es) && !Occurs(es, e.kind)
  {
    hide SingleBit;
    var all := [e] + es;
    assert forall k :: 0 <= k < |es| ==> all[k + 1] == es[k];
    if Distinct(all) {
      assert SingleBit(all[0].kind);
      forall k | 0 <= k < |es| ensures SingleBit(es[k].kind) && es[k].kind != e.kind {
        assert SingleBit(all[k + 1].kind) && all[0].kind != all[k + 1].kind;
      }
      forall j, k | 0 <= j < k < |es| ensures es[j].kind != es[k].kind {
        assert all[j + 1].kind != all[k + 1].kind;
      }
    }
    if SingleBit(e.kind) && Distinct(es) && !Occurs(es, e.kind) {
      forall k | 0 <= k < |all| ensures SingleBit(all[k].kind) {
        if k > 0 { assert SingleBit(es[k - 1].kind); }
      }
      forall j, k | 0 <= j < k < |all| ensures all[j].kind != all[k].kind {
        assert j > 0 ==> es[j - 1].kind != es[k - 1].kind;
      }
    }
  }

  lemma {:induction false} WithoutOccurs(es: seq<Element>, t: bv32, u: bv32)
    ensures Occurs(Without(es, t), u) <==> u != t && Occurs(es, u)
  {
    hide Occurs;
    if es == [] {
      NothingOccurs(u);
    } else {
      WithoutOccurs(es[1..], t, u);
      assert es == [es[0]] + es[1..];
      OccursCons(es[0], es[1..], u);
      if es[0].kind == t {
        assert Without(es, t) == Without(es[1..], t);
      } else {
        OccursCons(es[0], Without(es[1..], t), u);
      }
    }
  }

  lemma {:induction false} WithoutStaysFrom(es: seq<Element>, from: nat, t: bv32) returns (pos: seq<nat>)
    requires from <= |es|
    ensures |pos| == |Without(es[from..], t)|
    ensures forall k :: 0 <= k < |pos| ==> from <= pos[k] < |es| && Without(es[from..], t)[k] == es[pos[k]]
    ensures forall j, k :: 0 <= j < k < |pos| ==> pos[j] < pos[k]
    ensures forall i :: from <= i < |es| ==> (i in pos <==> es[i].kind != t)
    decreases |es| - from
  {
    if from == |es| {
      pos := [];
    } else {
      assert es[from..][1..] == es[from + 1..];
      var rest := WithoutStaysFrom(es, from + 1, t);
      assert from !in rest;
      pos := (if es[from].kind == t then [] else [from]) + rest;
    }
  }

  /** What stays is what has another type, in the old order: pos says where each element was. */
  lemma WithoutStays(es: seq<Element>, t: bv32) returns (pos: seq<nat>)
    ensures |pos| == |Without(es, t)|
    ensures forall k :: 0 <= k < |pos| ==> pos[k] < |es| && Without(es, t)[k] == es[pos[k]]
    ensures forall j, k :: 0 <= j < k < |pos| ==> pos[j] < pos[k]
    ensures forall i :: 0 <= i < |es| ==> (i in pos <==> es[i].kind != t)
  {
    pos := WithoutStaysFrom(es, 0, t);
    assert es[0..] == es;
  }

  lemma NothingOccurs(u: bv32)
    ensures !Occurs([], u)
  {
  }

  lemma {:induction false} WithoutDistinct(es: seq<Element>, t: bv32)
    requires Distinct(es)
    ensures Distinct(Without(es, t))
  {
    hide Occurs, SingleBit;
    if es != [] {
      assert es == [es[0]] + es[1..];
      DistinctCons(es[0], es[1..]);
      WithoutDistinct(es[1..], t);
      hide Distinct;
      if es[0].kind == t {
        assert Without(es, t) == Without(es[1..], t);
      } else {
        WithoutOccurs(es[1..], t, es[0].kind);
        DistinctCons(es[0], Without(es[1..], t));
      }
    }
  }

  lemma {:induction false} WithoutTypes(es: seq<Element>, t: bv32)
    requires Distinct(es) && SingleBit(t)
    ensures Types(Without(es, t)) == Clear(Types(es), t)
  {
    hide With, Clear, SingleBit;
    if es == [] {
      WithZero(t);
    } else {
      var rest := Without(es[1..], t);
      WithoutTypes(es[1..], t);
      ClearWith(es[0].kind, Types(es[1..]), t);
      ClearSingle(es[0].kind, t);
      if es[0].kind == t {
        assert Without(es, t) == rest;
        WithZero(Types(rest));
        WithAssociative(0, Types(rest), 0);
      } else {
        assert ([es[0]] + rest)[1..] == rest;
      }
    }
  }

  /** The bit goes with the elements. */
  lemma DeleteAgrees(q: Queue, t: bv32)
    requires Agrees(q)
    ensures Agrees(Delete(q, t)) && !Occurs(Delete(q, t).elements, t)
    ensures forall u :: u != t ==> (Occurs(Delete(q, t).elements, u) <==> Occurs(q.elements, u))
  {
    hide SingleBit, Types, Without, Clear;
    if Occurs(q.elements, t) {
      var k :| 0 <= k < |q.elements| && q.elements[k].kind == t;
      WithoutTypes(q.elements, t);
      WithoutDistinct(q.elements, t);
      forall u ensures Occurs(Without(q.elements, t), u) <==> u != t && Occurs(q.elements, u) {
        WithoutOccurs(q.elements, t, u);
      }
    }
  }

  /** How many elements have type t. */
  function Count(es: seq<Element>, t: bv32): nat {
    if es == [] then 0 else (if es[0].kind == t then 1 else 0) + Count(es[1..], t)
  }

  lemma {:induction false} CountConcat(a: seq<Element>, b: seq<Element>, t: bv32)
    ensures Count(a + b, t) == Count(a, t) + Count(b, t)
  {
    if a == [] {
      assert a + b == b;
    } else {
      assert (a + b)[1..] == a[1..] + b;
      CountConcat(a[1..], b, t);
    }
  }

  lemma {:induction false} CountNone(es: seq<Element>, t: bv32)
    requires !Occurs(es, t)
    ensures Count(es, t) == 0
  {
    if es != [] {
      assert es == [es[0]] + es[1..];
      OccursCons(es[0], es[1..], t);
      CountNone(es[1..], t);
    }
  }

  /** Rescheduling leaves exactly one element of the type, the last, with the new period; the others are as before. */
  lemma RescheduleLeavesOne(q: Queue, period: bv32, t: bv32, callback: nat)
    requires Agrees(q) && SingleBit(t)
    ensures var q' := Reschedule(q, period, t, callback);
            && Agrees(q') && Count(q'.elements, t) == 1
            && Appended(Without(q.elements, t), q'.elements)
            && Pends(q'.elements[|q'.elements| - 1], t, period, callback)
  {
    hide SingleBit, Types, Has, Clear, With;
    var q1 := if Has(q.bm, t) then Delete(q, t) else q;
    TestIsSearch(q.elements, t);
    DeleteAgrees(q, t);
    NotThere(q.elements, t);
    TestIsSearch(q1.elements, t);
    var e := Scheduled(period, t, callback);
    AddAgrees(q1, e);
    CountConcat(q1.elements, [Timed(e)], t);
    CountNone(q1.elements, t);
    ScheduleAppends(q1, period, t, callback);
    assert Count([Timed(e)], t) == 1 + Count([], t);
  }

  /** Nothing to take out, nothing changes. */
  lemma {:induction false} NotThere(es: seq<Element>, t: bv32)
    ensures !Occurs(es, t) ==> Without(es, t) == es
  {
    if es != [] {
      assert es == [es[0]] + es[1..];
      OccursCons(es[0], es[1..], t);
      NotThere(es[1..], t);
    }
  }

  // ---- Over every sequence of operations

  datatype Op =
    | DoAdd(e: Element)
    | DoDelete(t: bv32)
    | DoWake(t: bv32, done: bool)
    | DoSchedule(period: bv32, t: bv32, callback: nat)
    | DoReschedule(period: bv32, t: bv32, callback: nat)

  /** What is put into the queue has a single-bit type; what is taken out may be asked for by any. */
  predicate Allowed(op: Op) {
    match op
    case DoAdd(e) => SingleBit(e.kind)
    case DoDelete(_) => true
    case DoWake(_, _) => true
    case DoSchedule(_, t, _) => SingleBit(t)
    case DoReschedule(_, t, _) => SingleBit(t)
  }

  ghost function Apply(q: Queue, op: Op): Queue {
    match op
    case DoAdd(e) => Add(q, e)
    case DoDelete(t) => Delete(q, t)
    case DoWake(t, done) => Wake(q, t, done)
    case DoSchedule(period, t, callback) => Schedule(q, period, t, callback)
    case DoReschedule(period, t, callback) => Reschedule(q, period, t, callback)
  }

  ghost function ApplyAll(q: Queue, ops: seq<Op>): Queue {
    if ops == [] then q else Apply(ApplyAll(q, ops[..|ops| - 1]), ops[|ops| - 1])
  }

  lemma ApplyAgrees(q: Queue, op: Op)
    requires Agrees(q) && Allowed(op)
    ensures Agrees(Apply(q, op))
  {
    hide Agrees, Has, Delete, Add, SingleBit, Scheduled;
    match op {
      case DoAdd(e) => AddAgrees(q, e);
      case DoDelete(t) => DeleteAgrees(q, t);
      case DoWake(t, done) => DeleteAgrees(q, t);
      case DoSchedule(period, t, callback) => ScheduleAgrees(q, period, t, callback);
      case DoReschedule(period, t, callback) => RescheduleLeavesOne(q, period, t, callback);
    }
  }

  lemma ScheduleAgrees(q: Queue, period: bv32, t: bv32, callback: nat)
    requires Agrees(q) && SingleBit(t)
    ensures Agrees(Schedule(q, period, t, callback)) && Occurs(Schedule(q, period, t, callback).elements, t)
  {
    hide SingleBit, Types, Has, With;
    TestIsSearch(q.elements, t);
    AddAgrees(q, Scheduled(period, t, callback));
  }

  /** After any operations the bitmap is the or of the queued types, no type is queued twice, and the test is the search. */
  lemma {:induction false} BitmapAgrees(ops: seq<Op>, t: bv32)
    requires forall i :: 0 <= i < |ops| ==> Allowed(ops[i])
    ensures var q := ApplyAll(Queue(0, []), ops);
            && q.bm == Types(q.elements) && Distinct(q.elements)
            && (SingleBit(t) ==> (Has(q.bm, t) <==> Occurs(q.elements, t)))
    decreases |ops|
  {
    hide Apply, Has, SingleBit;
    var q := ApplyAll(Queue(0, []), ops);
    if ops != [] {
      BitmapAgrees(ops[..|ops| - 1], t);
      ApplyAgrees(ApplyAll(Queue(0, []), ops[..|ops| - 1]), ops[|ops| - 1]);
    }
    if SingleBit(t) { TestIsSearch(q.elements, t); }
  }

  // ---- The queue as an object

  lemma {:induction false} WithoutConcat(a: seq<Element>, b: seq<Element>, t: bv32)
    ensures Without(a + b, t) == Without(a, t) + Without(b, t)
  {
    if a == [] {
      assert a + b == b;
    } else {
      assert (a + b)[1..] == a[1..] + b;
      WithoutConcat(a[1..], b, t);
    }
  }

  lemma WithoutSelf(e: Element)
    ensures Without([e], e.kind) == []
  {
    assert Without([e], e.kind) == Without([e][1..], e.kind);
  }

  /** Taking out one element of the type first makes no difference. */
  lemma WithoutDrop(es: seq<Element>, k: nat)
    requires k < |es|
    ensures Without(es[..k] + es[k + 1..], es[k].kind) == Without(es, es[k].kind)
  {
    hide Without;
    var t := es[k].kind;
    WithoutSelf(es[k]);
    assert es == es[..k] + ([es[k]] + es[k + 1..]);
    WithoutConcat(es[..k], [es[k]] + es[k + 1..], t);
    WithoutConcat([es[k]], es[k + 1..], t);
    WithoutConcat(es[..k], es[k + 1..], t);
  }

  lemma DropIsWithout(es: seq<Element>, k: nat)
    requires k < |es| && Distinct(es)
    ensures es[..k] + es[k + 1..] == Without(es, es[k].kind)
  {
    hide Without, SingleBit;
    var rest := es[..k] + es[k + 1..];
    WithoutDrop(es, k);
    forall j | 0 <= j < |rest| ensures rest[j].kind != es[k].kind {
      assert rest[j] == if j < k then es[j] else es[j + 1];
    }
    NotThere(rest, es[k].kind);
  }

  /**
   * What the callbacks of an element answer to a wakeup; reply(slot, n) is the answer of the callback in a
   * slot when it is the n-th to be called.
   */
  function Verdict(e: Element, reply: (nat, nat) -> int): int
    requires |e.chain| == CALL_CHAIN_MAX
  {
    if e.chain[CALL_WAKEUP].Some? then
      var r := reply(CALL_WAKEUP, 0);
      if 0 < r < CALL_CHAIN_MAX && e.chain[r].Some? then reply(r, 1) else r
    else if e.chain[CALL_FINISH].Some? then reply(CALL_FINISH, 0)
    else if e.chain[CALL_CANCEL].Some? then reply(CALL_CANCEL, 0)
    else MBLUE_ELEMENT_EXIT
  }

  /** The verdict by cases, with the slots of the chain as numerals: 1 wakeup, 2 cancel, 3 finish. */
  lemma VerdictByCases(e: Element, reply: (nat, nat) -> int)
    requires |e.chain| == CALL_CHAIN_MAX && reply(1, 0) < 4
    ensures var r := reply(1, 0);
            var exits := Verdict(e, reply) == -1;
            && (e.chain[1].Some? && r <= 0 ==> (exits <==> r == -1))
            && (e.chain[1].Some? && r > 0 && e.chain[r].Some? ==> (exits <==> reply(r, 1) == -1))
            && (e.chain[1].Some? && r > 0 && e.chain[r].None? ==> !exits)
            && (e.chain[1].None? && e.chain[3].Some? ==> (exits <==> reply(3, 0) == -1))
            && (e.chain[1].None? && e.chain[3].None? && e.chain[2].Some? ==> (exits <==> reply(2, 0) == -1))
            && (e.chain[1].None? && e.chain[3].None? && e.chain[2].None? ==> exits)
  {
  }

  /** The element of a type, if there is one, says that it is done. */
  ghost predicate Done(es: seq<Element>, t: bv32, reply: (nat, nat) -> int) {
    forall k :: 0 <= k < |es| && es[k].kind == t && |es[k].chain| == CALL_CHAIN_MAX ==> Verdict(es[k], reply) == MBLUE_ELEMENT_EXIT
  }

  class EventQueueHead {
    var bm: bv32
    var elements: seq<Element>

    ghost function Value(): Queue
      reads this
    {
      Queue(bm, elements)
    }

    ghost predicate Valid()
      reads this
    {
      Agrees(Value()) && forall k :: 0 <= k < |elements| ==> |elements[k].chain| == CALL_CHAIN_MAX
    }

    constructor ()
      ensures Valid() && Value() == Queue(0, [])
    {
      bm, elements := 0, [];
    }

    method GetElement(t: bv32) returns (r: Option<nat>)
      ensures r.Some? <==> Occurs(elements, t)
      ensures r.Some? ==> r.value < |elements| && elements[r.value].kind == t
    {
      var k := 0;
      while k < |elements|
        invariant 0 <= k <= |elements| && forall j :: 0 <= j < k ==> elements[j].kind != t
      {
        if elements[k].kind == t {
          return Some(k);
        }
        k := k + 1;
      }
      return None;
    }

    /** started is what the start callback, if there is one, answers. */
    method AddEvent(e: Element, started: int) returns (r: int)
      requires Valid() && SingleBit(e.kind) && |e.chain| == CALL_CHAIN_MAX
      modifies this
      ensures Valid() && Value() == Add(old(Value()), e)
      ensures !Has(old(bm), e.kind) ==>
        (Appended(old(elements), elements)
         && var last := elements[|old(elements)|];
            last.kind == e.kind && last.period == e.period && last.chain == e.chain
            && (last.timer <==> e.period != 0 && e.period != 0xFFFFFFFF))
      ensures r == if Has(old(bm), e.kind) then MBLUE_ERR_UNKNOWN else if e.chain[CALL_START].Some? then started else MBLUE_OK
    {
      hide Has, With, SingleBit, Types;
      AddAgrees(Value(), e);
      if Has(bm, e.kind) {
        return MBLUE_ERR_UNKNOWN;
      }
      r := MBLUE_OK;
      bm := With(bm, e.kind);
      elements := elements + [Timed(e)];
      if e.chain[CALL_START].Some? {
        r := started;
      }
    }

    method DeleteEvent(t: bv32) returns (r: int)
      requires Valid()
      modifies this
      ensures Valid() && Value() == Delete(old(Value()), t)
      ensures r == if Occurs(old(elements), t) then MBLUE_OK else MBLUE_ERR_UNKNOWN
    {
      hide Clear, Types, SingleBit, Distinct;
      DeleteAgrees(Value(), t);
      ghost var es, map0 := elements, bm;
      r := MBLUE_ERR_UNKNOWN;
      var k := 0;
      while k < |elements|
        invariant 0 <= k <= |elements|
        invariant forall j :: 0 <= j < k ==> elements[j].kind != t
        invariant forall j :: 0 <= j < |elements| ==> |elements[j].chain| == CALL_CHAIN_MAX
        invariant Without(elements, t) == Without(es, t)
        invariant if r == MBLUE_OK then bm == Clear(map0, t) && Occurs(es, t) else r == MBLUE_ERR_UNKNOWN && bm == map0 && elements == es
        decreases |elements| - k
      {
        if elements[k].kind == t {
          WithoutDrop(elements, k);
          ClearTwice(map0, t);
          r := MBLUE_OK;
          bm := Clear(bm, t);
          elements := elements[..k] + elements[k + 1..];
        } else {
          k := k + 1;
        }
      }
      NotThere(elements, t);
    }

    method Wakeup(t: bv32, reply: (nat, nat) -> int) returns (r: int)
      requires Valid() && reply(CALL_WAKEUP, 0) < CALL_CHAIN_MAX
      modifies this
      ensures Valid() && Value() == Wake(old(Value()), t, Done(old(elements), t, reply))
      ensures r == if Has(old(bm), t) then MBLUE_OK else MBLUE_ERR_UNKNOWN
    {
      hide Has, Clear, Types, SingleBit, Without;
      DeleteAgrees(Value(), t);
      if !Has(bm, t) {
        return MBLUE_ERR_UNKNOWN;
      }
      r := MBLUE_OK;
      var k := 0;
      while k < |elements|
        invariant 0 <= k <= |elements| && unchanged(this) && forall j :: 0 <= j < k ==> elements[j].kind != t
      {
        if elements[k].kind == t {
          var e := elements[k];
          var ret := MBLUE_ELEMENT_EXIT;
          if e.chain[CALL_WAKEUP].Some? {
            ret := reply(CALL_WAKEUP, 0);
            if ret == MBLUE_OK {
              return;
            }
            if ret > 0 && e.chain[ret].Some? {
              ret := reply(ret, 1);
            }
          } else if e.chain[CALL_FINISH].Some? {
            ret := reply(CALL_FINISH, 0);
          } else if e.chain[CALL_CANCEL].Some? {
            ret := reply(CALL_CANCEL, 0);
          }
          DropIsWithout(elements, k);
          OnlyOne(elements, k, reply);
          if ret == MBLUE_ELEMENT_EXIT {
            bm := Clear(bm, e.kind);
            elements := elements[..k] + elements[k + 1..];
          }
          return;
        }
        k := k + 1;
      }
    }

    method ScheduleDelayed(period: bv32, t: bv32, callback: nat) returns (r: int)
      requires Valid() && SingleBit(t)
      modifies this
      ensures Valid() && Value() == Schedule(old(Value()), period, t, callback) && r == MBLUE_OK
      ensures !Has(old(bm), t) ==> Appended(old(elements), elements) && Pends(elements[|old(elements)|], t, period, callback)
    {
      hide Has, SingleBit, Agrees;
      if !Has(bm, t) {
        r := AddEvent(Scheduled(period, t, callback), 0);
        return;
      }
      return MBLUE_OK;
    }

    method RescheduleDelayed(period: bv32, t: bv32, callback: nat) returns (r: int)
      requires Valid() && SingleBit(t)
      modifies this
      ensures Valid() && Value() == Reschedule(old(Value()), period, t, callback) && r == MBLUE_OK
      ensures Appended(Without(old(elements), t), elements) && Pends(elements[|elements| - 1], t, period, callback)
    {
      RescheduleLeavesOne(Value(), period, t, callback);
      hide Has, SingleBit, Agrees, Delete, Schedule;
      if Has(bm, t) {
        var _ := DeleteEvent(t);
      }
      r := ScheduleDelayed(period, t, callback);
    }

    method CancelDelayed(t: bv32) returns (r: int)
      requires Valid()
      modifies this
      ensures Valid() && Value() == if Has(old(bm), t) then Delete(old(Value()), t) else old(Value())
      ensures r == if !Has(old(bm), t) then MBLUE_ERR_INVALID_PARAMETER
                   else if Occurs(old(elements), t) then MBLUE_OK else MBLUE_ERR_UNKNOWN
    {
      hide Has, SingleBit, Agrees, Delete;
      if Has(bm, t) {
        r := DeleteEvent(t);
        return;
      }
      return MBLUE_ERR_INVALID_PARAMETER;
    }
  }

  lemma OnlyOne(es: seq<Element>, k: nat, reply: (nat, nat) -> int)
    requires k < |es| && Distinct(es) && |es[k].chain| == CALL_CHAIN_MAX
    ensures Done(es, es[k].kind, reply) <==> Verdict(es[k], reply) == MBLUE_ELEMENT_EXIT
  {
    hide SingleBit;
  }

  lemma ClearTwice(b: bv32, t: bv32)
    ensures Clear(Clear(b, t), t) == Clear(b, t)
  {
  }
}
