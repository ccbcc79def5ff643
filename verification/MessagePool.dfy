/** The pool of messages: a free list, reference counts, and who owns what. */
module MessagePool {

  const MBLUE_MAX_MESSAGE_NUM: nat := 32
  const SEQUENCE_LIMIT: nat := 0x8000

  datatype Kind = Subscribe | Signal | SyncCall | AsyncCall | CallReturn
  {
    predicate IsCall() { SyncCall? || AsyncCall? }
  }

  /**
   * One message. src is the sending task, dst the segment it is addressed to, major the segment a call
   * or signal is about, pn whether a notifier is attached. issue numbers the call it belongs to: the
   * program itself only has seqno.
   */
  datatype Message = Message(
    seqno: nat, ref: nat, kind: Kind, major: nat, src: nat, dst: nat, payload: int, pn: bool, issue: nat)

  datatype Pool = Pool(msgs: seq<Message>, free: seq<nat>, count: int)

  /** The next sequence number: 15 bits. */
  function NextSequence(sequence: nat): (r: nat)
    ensures sequence < SEQUENCE_LIMIT ==> r == (sequence + 1) % SEQUENCE_LIMIT
  {
    if sequence + 1 >= SEQUENCE_LIMIT then 0 else sequence + 1
  }

  // ---- Operations

  predicate CanAlloc(p: Pool) { p.count > 0 && p.free != [] && p.free[0] < |p.msgs| }

  /** Take the first free message and fill it in. */
  function Alloc(p: Pool, m: Message): Pool
    requires CanAlloc(p)
  {
    Pool(p.msgs[p.free[0] := m], p.free[1..], p.count - 1)
  }

  function Get(p: Pool, id: nat): Pool
    requires id < |p.msgs|
  {
    p.(msgs := p.msgs[id := p.msgs[id].(ref := p.msgs[id].ref + 1)])
  }

  function Address(p: Pool, id: nat, dst: nat): Pool
    requires id < |p.msgs|
  {
    p.(msgs := p.msgs[id := p.msgs[id].(dst := dst)])
  }

  /** The reference count after one reference is dropped. */
  function Lowered(ref: nat): nat { if ref > 0 then ref - 1 else 0 }

  /** Drop a reference; when none is left, put the message back. */
  function Release(p: Pool, id: nat): Pool
    requires id < |p.msgs|
  {
    var ref := Lowered(p.msgs[id].ref);
    var msgs := p.msgs[id := p.msgs[id].(ref := ref)];
    if ref == 0 then Pool(msgs, p.free + [id], p.count + 1) else p.(msgs := msgs)
  }

  // ---- Ownership

  ghost predicate NoRepeats(s: seq<nat>) {
    forall i, j :: 0 <= i < j < |s| ==> s[i] != s[j]
  }

  /** How many owners a message with this count has while it is in use. */
  function Owners(m: Message): nat { if m.ref > 1 then m.ref else 1 }

  ghost predicate OwnedRight(p: Pool, held: nat -> nat, id: nat)
    requires id < |p.msgs|
  {
    held(id) == if id in p.free then 0 else Owners(p.msgs[id])
  }

  /**
   * held counts the places that hold each message. The pool's count is the length of the free list, a
   * free message is held nowhere, and a message in use is held in as many places as its count says.
   */
  ghost predicate Sound(p: Pool, held: nat -> nat) {
    && |p.msgs| == MBLUE_MAX_MESSAGE_NUM
    && p.count == |p.free| && NoRepeats(p.free)
    && (forall k :: 0 <= k < |p.free| ==> p.free[k] < |p.msgs|)
    && (forall id :: |p.msgs| <= id ==> held(id) == 0)
    && (forall id :: 0 <= id < |p.msgs| ==> OwnedRight(p, held, id))
  }

  /** No place holds anything. */
  ghost function Nobody(): nat -> nat { x => 0 }

  /** Whatever is held somewhere is not free. */
  lemma HeldNotFree(p: Pool, held: nat -> nat, id: nat)
    requires Sound(p, held) && held(id) > 0
    ensures id < |p.msgs| && id !in p.free
  {
    assert id < |p.msgs| ==> OwnedRight(p, held, id);
  }

  /** after is before with one more place for id. */
  ghost predicate OneMore(before: nat -> nat, after: nat -> nat, id: nat) {
    forall x: nat :: after(x) == before(x) + (if x == id then 1 else 0)
  }

  lemma AllocSound(p: Pool, held: nat -> nat, m: Message, after: nat -> nat)
    requires Sound(p, held) && p.free != [] && m.ref <= 1 && OneMore(held, after, p.free[0])
    ensures CanAlloc(p) && held(p.free[0]) == 0
    ensures Sound(Alloc(p, m), after)
  {
    var id := p.free[0];
    var q := Alloc(p, m);
    assert OwnedRight(p, held, id);
    assert forall k :: 0 <= k < |q.free| ==> q.free[k] == p.free[k + 1];
    forall x | 0 <= x < |q.msgs| ensures OwnedRight(q, after, x) {
      assert OwnedRight(p, held, x);
      assert x in p.free <==> x == id || x in q.free;
    }
  }

  /** One more place holds a message that is already held: its count goes up by one. */
  lemma GetSound(p: Pool, held: nat -> nat, id: nat, after: nat -> nat)
    requires Sound(p, held) && held(id) > 0 && id < |p.msgs| && p.msgs[id].ref >= 1 && OneMore(held, after, id)
    ensures Sound(Get(p, id), after)
  {
    HeldNotFree(p, held, id);
    var q := Get(p, id);
    forall x | 0 <= x < |q.msgs| ensures OwnedRight(q, after, x) {
      assert OwnedRight(p, held, x);
    }
  }

  lemma AddressSound(p: Pool, held: nat -> nat, id: nat, dst: nat)
    requires Sound(p, held) && id < |p.msgs|
    ensures Sound(Address(p, id, dst), held)
  {
    var q := Address(p, id, dst);
    forall x | 0 <= x < |q.msgs| ensures OwnedRight(q, held, x) {
      assert OwnedRight(p, held, x);
    }
  }

  /** One place lets go of a message. It was not free, and it becomes free only with its last owner. */
  lemma ReleaseSound(p: Pool, held: nat -> nat, id: nat, after: nat -> nat)
    requires Sound(p, held) && held(id) > 0 && OneMore(after, held, id)
    ensures id < |p.msgs| && id !in p.free
    ensures Sound(Release(p, id), after)
    ensures id in Release(p, id).free <==> held(id) == 1
  {
    HeldNotFree(p, held, id);
    var q := Release(p, id);
    assert OwnedRight(p, held, id);
    assert q.free == p.free || q.free == p.free + [id];
    forall x | 0 <= x < |q.msgs| ensures OwnedRight(q, after, x) {
      assert OwnedRight(p, held, x);
    }
  }

  // ---- The pool as an object

  class MessageList {
    var msgs: seq<Message>
    var free: seq<nat>
    var count: int
    var sequence: nat

    function Contents(): Pool
      reads this
    {
      Pool(msgs, free, count)
    }

    /** All messages are free. */
    constructor (blank: Message)
      requires blank.ref == 0
      ensures Sound(Contents(), Nobody()) && |free| == MBLUE_MAX_MESSAGE_NUM && sequence == 0
    {
      msgs := seq(MBLUE_MAX_MESSAGE_NUM, _ => blank);
      sequence := 0;
      count := MBLUE_MAX_MESSAGE_NUM;
      free := [];
      new;
      var i := 0;
      while i < MBLUE_MAX_MESSAGE_NUM
        modifies `free
        invariant 0 <= i <= MBLUE_MAX_MESSAGE_NUM && |free| == i
        invariant forall k :: 0 <= k < i ==> free[k] == k
      {
        free := free + [i];
        i := i + 1;
      }
      forall id | 0 <= id < |msgs| ensures OwnedRight(Contents(), Nobody(), id) {
        assert free[id] == id;
      }
    }

    method GetSequence() returns (r: nat)
      modifies `sequence
      ensures sequence == NextSequence(old(sequence)) && r == sequence
    {
      sequence := sequence + 1;
      if sequence >= SEQUENCE_LIMIT {
        sequence := 0;
      }
      r := sequence;
    }

    /** None left, or the first of the free list, filled in. */
    method Take(m: Message, ghost held: nat -> nat, ghost after: nat -> nat) returns (id: int)
      requires Sound(Contents(), held) && m.ref <= 1 && (free != [] ==> OneMore(held, after, free[0]))
      modifies `msgs, `free, `count
      ensures id == -1 <==> old(count) == 0
      ensures id == -1 ==> Contents() == old(Contents())
      ensures id != -1 ==> id >= 0 && CanAlloc(old(Contents())) && id == old(free[0]) && held(id) == 0
      ensures id != -1 ==> Contents() == Alloc(old(Contents()), m) && Sound(Contents(), after)
    {
      if count == 0 {
        return -1;
      }
      AllocSound(Contents(), held, m, after);
      id := free[0];
      count := count - 1;
      free := free[1..];
      msgs := msgs[id := m];
    }

    /** Give up one of the places that hold id. */
    method Put(id: nat, ghost held: nat -> nat, ghost after: nat -> nat)
      requires Sound(Contents(), held) && held(id) > 0 && OneMore(after, held, id)
      modifies `msgs, `free, `count
      ensures id < |old(msgs)| && id !in old(free)
      ensures Contents() == Release(old(Contents()), id) && Sound(Contents(), after)
    {
      ReleaseSound(Contents(), held, id, after);
      var ref := msgs[id].ref;
      if ref > 0 {
        ref := ref - 1;
      }
      msgs := msgs[id := msgs[id].(ref := ref)];
      if ref == 0 {
        free := free + [id];
        count := count + 1;
      }
    }
  }
}
