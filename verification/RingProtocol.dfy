/**
 * The ring between one writer and one reader that are not locked against each other. Each side looks at
 * the other's index, copies byte by byte, and then publishes its own index; the steps of the two
 * interleave in any order.
 *
 * The minimum of the requested length and the free or used space is a macro that may compute the space
 * twice: once to compare, and once more when the space was not larger than the request. Both looks at
 * the other's index are steps of their own here.
 */
module RingProtocol {
  import opened Bits
  import opened RingBuffer

  /**
   * A put of len bytes from memory: after the first look, which saw no more than len bytes free, or copying
   * data, of which done bytes are in the buffer.
   */
  datatype Writer = WIdle | Comparing(memory: seq<byte>, len: nat, seen: nat) | Copying(data: seq<byte>, done: nat)

  /** A get of at most max bytes: after the first look, or taking len bytes, of which got has been taken. */
  datatype Reader = RIdle | Weighing(max: nat, seen: nat) | Taking(len: nat, got: seq<byte>)

  /** written and read are history: everything ever published by the writer and taken by the reader. */
  datatype State = State(
    size: nat, buffer: seq<byte>, inIndex: nat, outIndex: nat,
    writer: Writer, reader: Reader, written: seq<byte>, read: seq<byte>)

  datatype Step =
    | StartPut(memory: seq<byte>, len: nat) | LookAgainPut | PutByte | PublishIn
    | StartGet(max: nat) | LookAgainGet | GetByte | PublishOut

  /** Free and used space as the code computes them. */
  function Free(s: State): nat { Add32(Sub32(s.size, s.inIndex), s.outIndex) }
  function Used(s: State): nat { Sub32(s.inIndex, s.outIndex) }

  /** memory is what lies at and behind the caller's pointer; a put that reads beyond it is not modelled further. */
  predicate Enabled(s: State, e: Step) {
    s.size > 0 && |s.buffer| == s.size &&
    match e
    case StartPut(memory, len) => s.writer.WIdle? && len <= |memory|
    case LookAgainPut => s.writer.Comparing? && Free(s) <= |s.writer.memory|
    case PutByte =>
      s.writer.Copying? && s.writer.done < |s.writer.data|
      && CopyIndex(s.inIndex, s.writer.done, s.size, |s.writer.data|) < s.size
    case PublishIn => s.writer.Copying? && s.writer.done == |s.writer.data|
    case StartGet(_) => s.reader.RIdle?
    case LookAgainGet => s.reader.Weighing?
    case GetByte =>
      s.reader.Taking? && |s.reader.got| < s.reader.len
      && CopyIndex(s.outIndex, |s.reader.got|, s.size, s.reader.len) < s.size
    case PublishOut => s.reader.Taking? && |s.reader.got| == s.reader.len
  }

  function Next(s: State, e: Step): State
    requires Enabled(s, e)
  {
    match e
    case StartPut(memory, len) =>
      s.(writer := if len < Free(s) then Copying(memory[..len], 0) else Comparing(memory, len, Free(s)))
    case LookAgainPut =>
      s.(writer := Copying(s.writer.memory[..Free(s)], 0))
    case PutByte =>
      var Copying(data, done) := s.writer;
      s.(buffer := s.buffer[CopyIndex(s.inIndex, done, s.size, |data|) := data[done]], writer := Copying(data, done + 1))
    case PublishIn =>
      var data := s.writer.data;
      s.(inIndex := Add32(s.inIndex, |data|), writer := WIdle, written := s.written + data)
    case StartGet(max) =>
      s.(reader := if max < Used(s) then Taking(max, []) else Weighing(max, Used(s)))
    case LookAgainGet =>
      s.(reader := Taking(Used(s), []))
    case GetByte =>
      var Taking(len, got) := s.reader;
      s.(reader := Taking(len, got + [s.buffer[CopyIndex(s.outIndex, |got|, s.size, len)]]))
    case PublishOut =>
      s.(outIndex := Add32(s.outIndex, s.reader.len), reader := RIdle, read := s.read + s.reader.got)
  }

  ghost predicate Init(s: State) {
    && GoodSize(s.size) && |s.buffer| == s.size && s.inIndex == 0 && s.outIndex == 0
    && s.writer.WIdle? && s.reader.RIdle? && s.written == [] && s.read == []
  }

  ghost predicate Run(states: seq<State>, steps: seq<Step>) {
    && |states| == |steps| + 1 && Init(states[0])
    && forall i :: 0 <= i < |steps| ==> Enabled(states[i], steps[i]) && states[i + 1] == Next(states[i], steps[i])
  }

  // ---- What every step keeps

  /** The indices are the counts, wrapped. */
  ghost predicate IndicesOk(s: State) {
    && GoodSize(s.size) && |s.buffer| == s.size
    && s.inIndex == |s.written| % U32 && s.outIndex == |s.read| % U32
    && |s.read| <= |s.written| <= |s.read| + s.size
  }

  /** Bytes published and not yet taken are in their slots. */
  ghost predicate BytesOk(s: State)
    requires s.size > 0 && |s.buffer| == s.size
  {
    forall p :: |s.read| <= p < |s.written| ==> s.buffer[Slot(p, s.size)] == s.written[p]
  }

  /** The writer has room for what it copies, whatever the reader has done since; its bytes so far are in place. */
  ghost predicate WriterOk(s: State)
    requires s.size > 0 && |s.buffer| == s.size
  {
    && (s.writer.Comparing? ==>
          s.writer.seen <= s.writer.len && s.writer.len <= |s.writer.memory|
          && |s.written| + s.writer.seen <= |s.read| + s.size)
    && (s.writer.Copying? ==>
      && s.writer.done <= |s.writer.data| && |s.written| + |s.writer.data| <= |s.read| + s.size
      && forall j :: 0 <= j < s.writer.done ==> s.buffer[Slot(|s.written| + j, s.size)] == s.writer.data[j])
  }

  /** What the reader has so far is what comes next, and what it will take is published. */
  ghost predicate ReaderOk(s: State) {
    && (s.reader.Weighing? ==> s.reader.seen <= s.reader.max && |s.read| + s.reader.seen <= |s.written|)
    && (s.reader.Taking? ==>
      && |s.reader.got| <= s.reader.len && |s.read| + s.reader.len <= |s.written|
      && s.reader.got == s.written[|s.read|..|s.read| + |s.reader.got|])
  }

  ghost predicate Inv(s: State) {
    IndicesOk(s) && s.read <= s.written && BytesOk(s) && WriterOk(s) && ReaderOk(s)
  }

  lemma StartPutKeeps(s: State, e: Step)
    requires Inv(s) && Enabled(s, e) && (e.StartPut? || e.LookAgainPut?)
    ensures Inv(Next(s, e))
  {
    hide Slot, GoodSize, Add32, Sub32;
    Distances(s);
  }

  /** Free and used space are what they should be. */
  lemma Distances(s: State)
    requires IndicesOk(s)
    ensures Free(s) == s.size - (|s.written| - |s.read|) && Used(s) == |s.written| - |s.read|
  {
    hide Add32, Sub32, IsPowerOf2;
    Distance(|s.written|, |s.read|, s.size);
  }

  lemma PutByteKeeps(s: State)
    requires Inv(s) && Enabled(s, PutByte)
    ensures Inv(Next(s, PutByte))
  {
    hide Slot, GoodSize, CopyIndex;
    var s', w, j := Next(s, PutByte), |s.written|, s.writer.done;
    CopyIndexIsSlot(w, j, s.size, |s.writer.data|);
    assert s' == s.(buffer := s.buffer[Slot(w + j, s.size) := s.writer.data[j]], writer := Copying(s.writer.data, j + 1));
    assert BytesOk(s') by {
      forall p | |s.read| <= p < w ensures s'.buffer[Slot(p, s.size)] == s.written[p] { SlotsDiffer(p, w + j, s.size); }
    }
    assert WriterOk(s') by {
      forall i | 0 <= i < j + 1 ensures s'.buffer[Slot(w + i, s.size)] == s.writer.data[i] {
        if i < j { SlotsDiffer(w + i, w + j, s.size); }
      }
    }
  }

  lemma PublishInKeeps(s: State)
    requires Inv(s) && Enabled(s, PublishIn)
    ensures Inv(Next(s, PublishIn))
  {
    hide Slot, IsPowerOf2, Add32;
    Advance(|s.written|, |s.writer.data|);
    var s', w := Next(s, PublishIn), |s.written|;
    forall p | |s'.read| <= p < |s'.written| ensures s'.buffer[Slot(p, s.size)] == s'.written[p] {
      if p >= w { assert s.buffer[Slot(w + (p - w), s.size)] == s.writer.data[p - w]; }
    }
  }

  lemma StartGetKeeps(s: State, e: Step)
    requires Inv(s) && Enabled(s, e) && (e.StartGet? || e.LookAgainGet?)
    ensures Inv(Next(s, e))
  {
    hide Slot, GoodSize, Add32, Sub32;
    Distances(s);
  }

  lemma GetByteKeeps(s: State)
    requires Inv(s) && Enabled(s, GetByte)
    ensures Inv(Next(s, GetByte))
  {
    var r, j := |s.read|, |s.reader.got|;
    CopyIndexIsSlot(r, j, s.size, s.reader.len);
    hide Slot, IsPowerOf2, CopyIndex;
    assert s.buffer[Slot(r + j, s.size)] == s.written[r + j];
  }

  lemma PublishOutKeeps(s: State)
    requires Inv(s) && Enabled(s, PublishOut)
    ensures Inv(Next(s, PublishOut))
  {
    hide Slot, IsPowerOf2, Add32;
    Advance(|s.read|, s.reader.len);
    var s' := Next(s, PublishOut);
    assert s'.read == s.written[..|s'.read|];
  }

  lemma StepKeeps(s: State, e: Step)
    requires Inv(s) && Enabled(s, e)
    ensures Inv(Next(s, e))
  {
    hide Inv, Next, Enabled;
    match e {
      case StartPut(_, _) => StartPutKeeps(s, e);
      case LookAgainPut => StartPutKeeps(s, e);
      case PutByte => PutByteKeeps(s);
      case PublishIn => PublishInKeeps(s);
      case StartGet(_) => StartGetKeeps(s, e);
      case LookAgainGet => StartGetKeeps(s, e);
      case GetByte => GetByteKeeps(s);
      case PublishOut => PublishOutKeeps(s);
    }
  }

  lemma {:induction false} RunInv(states: seq<State>, steps: seq<Step>, n: nat)
    requires Run(states, steps) && n < |states|
    ensures Inv(states[n])
  {
    if n > 0 {
      RunInv(states, steps, n - 1);
      StepKeeps(states[n - 1], steps[n - 1]);
    }
  }

  // ---- Over every run

  /**
   * The bytes read are a prefix of the bytes written; what lies between is in the ring, at most size bytes
   * of it, and the difference of the indices is exactly their number, wherever the indices have wrapped.
   */
  lemma ReadIsPrefix(states: seq<State>, steps: seq<Step>, n: nat)
    requires Run(states, steps) && n < |states|
    ensures var s := states[n];
            && s.read <= s.written
            && |s.written| - |s.read| <= s.size
            && Sub32(s.inIndex, s.outIndex) == |s.written| - |s.read|
  {
    RunInv(states, steps, n);
    hide IsPowerOf2, Slot, Sub32, Add32;
    Distance(|states[n].written|, |states[n].read|, states[n].size);
  }

  /** The bytes of a put that have been accepted, in the order of the steps. */
  function Accepted(states: seq<State>, steps: seq<Step>): seq<byte>
    requires |states| == |steps| + 1
  {
    if steps == [] then []
    else
      var n := |steps| - 1;
      Accepted(states[..n + 1], steps[..n])
        + (if steps[n].PublishIn? && states[n].writer.Copying? then states[n].writer.data else [])
  }

  /** What gets have returned, in the order of the steps. */
  function Delivered(states: seq<State>, steps: seq<Step>): seq<byte>
    requires |states| == |steps| + 1
  {
    if steps == [] then []
    else
      var n := |steps| - 1;
      Delivered(states[..n + 1], steps[..n])
        + (if steps[n].PublishOut? && states[n].reader.Taking? then states[n].reader.got else [])
  }

  /** One step adds to the histories what it publishes. */
  lemma TrafficStep(s: State, e: Step)
    requires Enabled(s, e)
    ensures Next(s, e).written == s.written + (if e.PublishIn? && s.writer.Copying? then s.writer.data else [])
    ensures Next(s, e).read == s.read + (if e.PublishOut? && s.reader.Taking? then s.reader.got else [])
  {
    hide CopyIndex, Add32, Sub32;
  }

  lemma {:induction false} HistoryIsTraffic(states: seq<State>, steps: seq<Step>)
    requires Run(states, steps)
    ensures states[|steps|].written == Accepted(states, steps)
    ensures states[|steps|].read == Delivered(states, steps)
    decreases |steps|
  {
    if steps != [] {
      var n := |steps| - 1;
      hide Next, Enabled, Init;
      HistoryIsTraffic(states[..n + 1], steps[..n]);
      TrafficStep(states[n], steps[n]);
    }
  }

  /** What all gets return, strung together, is a prefix of what all puts accepted, strung together. */
  lemma DeliveredInOrder(states: seq<State>, steps: seq<Step>)
    requires Run(states, steps)
    ensures Delivered(states, steps) <= Accepted(states, steps)
  {
    HistoryIsTraffic(states, steps);
    ReadIsPrefix(states, steps, |steps|);
  }

  /**
   * Neither side is ever stuck in the middle of a copy: the next byte's index is inside the buffer. A put is
   * stuck between its looks exactly if the room it then sees reaches beyond the caller's memory.
   */
  lemma CopiesStayInside(states: seq<State>, steps: seq<Step>, n: nat)
    requires Run(states, steps) && n < |states|
    ensures states[n].writer.Comparing? ==> (Enabled(states[n], LookAgainPut) <==> Free(states[n]) <= |states[n].writer.memory|)
    ensures states[n].writer.Copying? ==> Enabled(states[n], PutByte) || Enabled(states[n], PublishIn)
    ensures states[n].reader.Weighing? ==> Enabled(states[n], LookAgainGet)
    ensures states[n].reader.Taking? ==> Enabled(states[n], GetByte) || Enabled(states[n], PublishOut)
  {
    var s := states[n];
    RunInv(states, steps, n);
    Distances(s);
    if s.writer.Copying? && s.writer.done < |s.writer.data| {
      CopyIndexIsSlot(|s.written|, s.writer.done, s.size, |s.writer.data|);
    }
    if s.reader.Taking? && |s.reader.got| < s.reader.len {
      CopyIndexIsSlot(|s.read|, |s.reader.got|, s.size, s.reader.len);
    }
  }

  // ---- How much is accepted and delivered

  /** How many bytes a step that ends a comparison lets a put accept. */
  function Grants(s: State, e: Step): nat
    requires Enabled(s, e)
  {
    if Next(s, e).writer.Copying? then |Next(s, e).writer.data| else 0
  }

  /**
   * What a put accepts. When the first look sees more room than the request, exactly the request. Else all
   * the room of the second look: never more than is free, never less than the first look saw, the minimum
   * that was meant if both looks saw the same, and more than was requested exactly when the reader has
   * meanwhile made more room than that.
   */
  lemma PutAccepts(states: seq<State>, steps: seq<Step>, n: nat)
    requires Run(states, steps) && n < |steps|
    ensures var s, e := states[n], steps[n];
            var room := s.size - (|s.written| - |s.read|);
            && Enabled(s, e) && 0 <= room <= s.size
            && (e.StartPut? && e.len < room ==> Grants(s, e) == e.len)
            && (e.StartPut? && e.len >= room ==> states[n + 1].writer == Comparing(e.memory, e.len, room))
            && (e.LookAgainPut? ==>
                  && s.writer.Comparing? && s.writer.seen <= Grants(s, e) == room
                  && (s.writer.seen == room ==> Grants(s, e) == Min(s.writer.len, room)))
  {
    RunInv(states, steps, n);
    Distances(states[n]);
    hide Inv, Add32, Sub32, CopyIndex;
    Looked(states, steps, n);
  }

  /** A put that is between its looks has seen no more room than there is. */
  lemma Looked(states: seq<State>, steps: seq<Step>, n: nat)
    requires Run(states, steps) && n < |states|
    ensures states[n].writer.Comparing? ==>
              states[n].writer.seen <= states[n].size - (|states[n].written| - |states[n].read|)
    ensures states[n].reader.Weighing? ==> states[n].reader.seen <= |states[n].written| - |states[n].read|
  {
    RunInv(states, steps, n);
  }

  /** The same for a get: more than was asked for exactly when the second look sees more. */
  lemma GetDelivers(states: seq<State>, steps: seq<Step>, n: nat)
    requires Run(states, steps) && n < |steps|
    ensures var s, e := states[n], steps[n];
            var used := |s.written| - |s.read|;
            && Enabled(s, e) && 0 <= used <= s.size
            && (e.StartGet? && e.max < used ==> states[n + 1].reader == Taking(e.max, []))
            && (e.StartGet? && e.max >= used ==> states[n + 1].reader == Weighing(e.max, used))
            && (e.LookAgainGet? ==>
                  && s.reader.Weighing? && states[n + 1].reader == Taking(used, []) && s.reader.seen <= used)
  {
    RunInv(states, steps, n);
    Distances(states[n]);
    hide Inv, Add32, Sub32, CopyIndex;
    Looked(states, steps, n);
  }

  /** The put in progress was started in step j, and has not been published since. */
  ghost predicate PutFrom(steps: seq<Step>, n: nat, j: nat) {
    j < n <= |steps| && steps[j].StartPut? && forall i :: j < i < n ==> !steps[i].StartPut? && !steps[i].PublishIn?
  }

  /** What a put copies, and then publishes, is the beginning of its caller's memory. */
  lemma {:induction false} PutCopiesMemory(states: seq<State>, steps: seq<Step>, n: nat) returns (j: nat)
    requires Run(states, steps) && n < |states| && !states[n].writer.WIdle?
    ensures PutFrom(steps, n, j)
    ensures states[n].writer.Comparing? ==> states[n].writer.memory == steps[j].memory && states[n].writer.len == steps[j].len
    ensures states[n].writer.Copying? ==> states[n].writer.data <= steps[j].memory
  {
    if n > 0 {
      var s, e := states[n - 1], steps[n - 1];
      assert Enabled(s, e) && states[n] == Next(s, e);
      hide CopyIndex, Add32, Sub32, Run;
      if e.StartPut? {
        j := n - 1;
      } else {
        j := PutCopiesMemory(states, steps, n - 1);
      }
    }
  }

  // ---- A put that accepts more than was requested

  const MEMORY: seq<byte> := [1, 2, 3]

  /** A ring of two bytes after a put of both. */
  function Full(writer: Writer, reader: Reader): State {
    State(2, [1, 2], 2, 0, writer, reader, [1, 2], [])
  }

  const ASKED: Writer := Comparing(MEMORY, 1, 0)
  const R0: State := State(2, [0, 0], 0, 0, WIdle, RIdle, [], [])
  const R1: State := R0.(writer := Comparing(MEMORY, 2, 2))
  const R2: State := R0.(writer := Copying([1, 2], 0))
  const R3: State := R0.(buffer := [1, 0], writer := Copying([1, 2], 1))
  const R4: State := R0.(buffer := [1, 2], writer := Copying([1, 2], 2))
  const R5: State := Full(WIdle, RIdle)
  const R6: State := Full(ASKED, RIdle)
  const R7: State := Full(ASKED, Weighing(3, 2))
  const R8: State := Full(ASKED, Taking(2, []))
  const R9: State := Full(ASKED, Taking(2, [1]))
  const R10: State := Full(ASKED, Taking(2, [1, 2]))
  const R11: State := State(2, [1, 2], 2, 2, ASKED, RIdle, [1, 2], [1, 2])
  const R12: State := R11.(writer := Copying([1, 2], 0))

  ghost predicate Takes(s: State, e: Step, s': State) { Enabled(s, e) && Next(s, e) == s' }

  lemma FirstPut()
    ensures Takes(R0, StartPut(MEMORY, 2), R1) && Takes(R1, LookAgainPut, R2) && Takes(R2, PutByte, R3)
    ensures Takes(R3, PutByte, R4) && Takes(R4, PublishIn, R5)
  {
    assert MEMORY[..2] == [1, 2];
  }

  lemma SecondPutAndGet()
    ensures Takes(R5, StartPut(MEMORY, 1), R6) && Takes(R6, StartGet(3), R7) && Takes(R7, LookAgainGet, R8)
    ensures Takes(R8, GetByte, R9) && Takes(R9, GetByte, R10) && Takes(R10, PublishOut, R11)
    ensures Takes(R11, LookAgainPut, R12)
  {
    assert MEMORY[..2] == [1, 2];
    var none: seq<byte>, one: seq<byte> := [], [1];
    assert none + [1] == one && one + [2] == [1, 2] && none + [1, 2] == [1, 2];
  }

  const STATES: seq<State> := [R0, R1, R2, R3, R4, R5, R6, R7, R8, R9, R10, R11, R12]
  const STEPS: seq<Step> := [
    StartPut(MEMORY, 2), LookAgainPut, PutByte, PutByte, PublishIn, StartPut(MEMORY, 1),
    StartGet(3), LookAgainGet, GetByte, GetByte, PublishOut, LookAgainPut]

  /** One byte is to be put into a full ring of two; the reader empties it between the looks; two bytes are accepted. */
  lemma MoreThanRequested()
    ensures Run(STATES, STEPS)
    ensures STATES[|STEPS| - 1].writer == Comparing(MEMORY, 1, 0)
    ensures STATES[|STEPS|].writer.Copying? && |STATES[|STEPS|].writer.data| == 2
  {
    FirstPut();
    SecondPutAndGet();
    assert Init(R0) by { PowersPass(1); }
    hide Init, Enabled, Next;
    forall i | 0 <= i < |STEPS| ensures Takes(STATES[i], STEPS[i], STATES[i + 1]) {
    }
  }

  // ---- A get that takes more than was asked for

  /** The reader has looked at an empty ring and found nothing; the writer's steps are those of before. */
  function Waiting(s: State): State { s.(reader := Weighing(1, 0)) }

  lemma PutMeanwhile()
    ensures Takes(Waiting(R0), StartPut(MEMORY, 2), Waiting(R1)) && Takes(Waiting(R1), LookAgainPut, Waiting(R2))
    ensures Takes(Waiting(R2), PutByte, Waiting(R3)) && Takes(Waiting(R3), PutByte, Waiting(R4))
    ensures Takes(Waiting(R4), PublishIn, Waiting(R5))
  {
    assert MEMORY[..2] == [1, 2];
  }

  const GET_STATES: seq<State> := [
    R0, Waiting(R0), Waiting(R1), Waiting(R2), Waiting(R3), Waiting(R4), Waiting(R5), R5.(reader := Taking(2, []))]
  const GET_STEPS: seq<Step> := [
    StartGet(1), StartPut(MEMORY, 2), LookAgainPut, PutByte, PutByte, PublishIn, LookAgainGet]

  /** One byte is asked for while the ring is empty; the writer fills it between the looks; two bytes are taken. */
  lemma MoreThanAskedFor()
    ensures Run(GET_STATES, GET_STEPS)
    ensures GET_STATES[|GET_STEPS| - 1].reader == Weighing(1, 0)
    ensures GET_STATES[|GET_STEPS|].reader == Taking(2, [])
  {
    PutMeanwhile();
    assert Takes(R0, StartGet(1), Waiting(R0)) && Takes(Waiting(R5), LookAgainGet, R5.(reader := Taking(2, [])));
    assert Init(R0) by { PowersPass(1); }
    hide Init, Enabled, Next;
    forall i | 0 <= i < |GET_STEPS| ensures Takes(GET_STATES[i], GET_STEPS[i], GET_STATES[i + 1]) {
    }
  }
}
