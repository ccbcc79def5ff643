/**
 * The system bus as a transition system: tasks with bounded queues, the message pool, the bus's lists
 * of pending calls, and the semaphore a synchronous caller waits on. Every step is a piece of one task's
 * code; steps of different tasks interleave freely.
 *
 * Here a task that has posted a synchronous call waits for its reply. The code finds out whether and where
 * to wait by looking at the posted message once more: that look is a step of its own in BusLook.
 *
 * Segment 0 is the bus itself, and it runs in task 0.
 */
module Bus {
  import opened Options
  import opened MessagePool

  /**
   * What a task's thread is doing with a message it has taken off its queue. Fresh, Retiring and
   * Casting are the bus's own: before a message is dispatched, between waking a caller and dropping
   * its entry, and while a signal goes out to the subscribers that are left.
   */
  datatype Handling =
    | Idle
    | Fresh(m: nat)
    | Busy(m: nat)
    | Retiring(m: nat, major: nat, k: nat)
    | Casting(m: nat, left: seq<nat>)

  /**
   * A task: its queue, a message it has built and is about to post, what it is handling, the call it
   * is inside of, the tokens of its call semaphore, and the variable a reply is stored to.
   */
  datatype Task = Task(queue: seq<nat>, held: Option<nat>, handling: Handling, call: Option<nat>, callSem: nat, out: int)

  /**
   * How far a call has come: with its caller or the bus, on its way to the service, there, answered, over.
   * A lost call has no entry and no message left that could bring it an answer.
   */
  datatype Phase = Requested | Recorded | Serving | Answered(reply: nat) | Closed | Lost

  datatype Call = Call(sync: bool, notify: bool, src: nat, major: nat, msg: nat, seqno: nat, phase: Phase)
  {
    predicate Open() { !phase.Closed? }
    /** A reply to it may still be compared with the entries, or an entry of it with replies. */
    predicate Live() { Open() && !phase.Lost? }
    /** Synchronous calls and asynchronous ones with a notifier have an entry in the bus's list. */
    predicate Wants() { sync || notify }
    predicate Listed() { Wants() && !phase.Requested? && Live() }
  }

  datatype Pending = Pending(msg: nat, sync: bool, issue: nat)

  /**
   * home maps a segment to its task. The last components are history: the calls by issue number, what
   * services replied, what callers got, which notifiers fired, references that were lost, and whether every
   * task so far has waited where it should.
   */
  datatype State = State(
    home: seq<nat>, capacity: nat,
    pool: Pool, sequence: nat, tasks: seq<Task>, lists: seq<seq<Pending>>, subs: seq<seq<nat>>,
    issued: nat, calls: map<nat, Call>, replied: map<nat, int>, returned: map<nat, int>,
    fired: multiset<nat>, leaked: multiset<nat>, sound: bool)

  datatype Step =
    | IssueCall(t: nat, sync: bool, notify: bool, major: nat, payload: int)
    | IssueFails(t: nat)
    | IssueSignal(t: nat, subscribe: bool, dst: nat, major: nat, payload: int)
    | Post(t: nat)
    | Receive(t: nat)
    | BusRecord
    | BusMatch
    | BusRetire
    | BusSignal
    | BusReplicate
    | BusSubscribe
    | Reply(t: nat, issue: nat, payload: int)
    | Finish(t: nat)
    | Abandon(t: nat)
    | Wake(t: nat)

  // ---- When a step can happen

  /** The configuration does not change: segments live in tasks, the bus in task 0. */
  predicate Configured(s: State) {
    && |s.home| > 0 && s.home[0] == 0
    && (forall g :: 0 <= g < |s.home| ==> s.home[g] < |s.tasks|)
    && |s.lists| == |s.subs| == |s.home|
  }

  /** The thread is running and not about to post or waiting for a reply. */
  predicate CanAct(s: State, t: nat) {
    t < |s.tasks| && s.tasks[t].held.None? && s.tasks[t].call.None?
  }

  /** No call that can still be matched stays so while 32768 more sequence numbers are taken. */
  ghost predicate SequenceIsFresh(s: State) {
    forall i :: i in s.calls && s.calls[i].Live() ==> s.issued + 1 < i + SEQUENCE_LIMIT
  }

  /** The bus task is handling a message of this kind that it has just taken. */
  predicate BusHas(s: State, kind: Kind) {
    CanAct(s, 0) && s.tasks[0].handling.Fresh? && s.tasks[0].handling.m < |s.pool.msgs|
    && s.pool.msgs[s.tasks[0].handling.m].kind == kind
    && s.pool.msgs[s.tasks[0].handling.m].major < |s.home|
  }

  /** The bus has taken up a message about one of its segments. */
  predicate TakenUp(s: State) {
    && |s.tasks| > 0 && s.tasks[0].handling.Fresh? && s.tasks[0].handling.m < |s.pool.msgs|
    && s.pool.msgs[s.tasks[0].handling.m].major < |s.lists|
  }

  /** The entry to drop is there. */
  predicate RetiresEntry(s: State, h: Handling)
    requires h.Retiring?
  {
    h.major < |s.lists| && h.k < |s.lists[h.major]| && s.lists[h.major][h.k].msg < |s.pool.msgs|
  }

  ghost predicate Enabled(s: State, e: Step) {
    Configured(s) &&
    match e
    case IssueCall(t, sync, notify, major, _) =>
      CanAct(s, t) && 0 < major < |s.home| && CanAlloc(s.pool) && SequenceIsFresh(s)
    case IssueFails(t) => CanAct(s, t) && s.pool.free == []
    case IssueSignal(t, subscribe, dst, major, payload) =>
      CanAct(s, t) && dst < |s.home| && major < |s.home| && CanAlloc(s.pool)
      && (subscribe ==> dst == 0 && 0 < payload < |s.home|)
    case Post(t) =>
      t < |s.tasks| && s.tasks[t].held.Some? && s.tasks[t].held.value < |s.pool.msgs|
      && s.pool.msgs[s.tasks[t].held.value].dst < |s.home|
    case Receive(t) =>
      CanAct(s, t) && s.tasks[t].handling.Idle? && s.tasks[t].queue != [] && s.tasks[t].queue[0] < |s.pool.msgs|
    case BusRecord => BusHas(s, SyncCall) || BusHas(s, AsyncCall)
    case BusMatch => BusHas(s, CallReturn)
    case BusRetire => CanAct(s, 0) && s.tasks[0].handling.Retiring? && RetiresEntry(s, s.tasks[0].handling)
    case BusSignal => BusHas(s, Signal)
    case BusReplicate =>
      CanAct(s, 0) && s.tasks[0].handling.Casting? && s.tasks[0].handling.left != []
      && s.tasks[0].handling.m < |s.pool.msgs| && s.pool.msgs[s.tasks[0].handling.m].kind.Signal? && CanAlloc(s.pool)
    case BusSubscribe =>
      BusHas(s, Subscribe) && 0 < s.pool.msgs[s.tasks[0].handling.m].payload < |s.home|
    case Reply(t, issue, _) =>
      CanAct(s, t) && issue in s.calls && s.calls[issue].phase.Serving?
      && s.calls[issue].major < |s.home| && s.home[s.calls[issue].major] == t && CanAlloc(s.pool)
    case Finish(t) =>
      CanAct(s, t) && s.tasks[t].handling != Idle && Finished(s.tasks[t].handling)
      && s.tasks[t].handling.m < |s.pool.msgs|
    case Abandon(t) =>
      CanAct(s, t) && s.tasks[t].handling.Busy? && s.tasks[t].handling.m < |s.pool.msgs|
      && s.pool.msgs[s.tasks[t].handling.m].kind.IsCall()
    case Wake(t) =>
      t < |s.tasks| && s.tasks[t].held.None? && s.tasks[t].call.Some? && s.tasks[t].callSem > 0
  }

  /** Nothing is left to do but to release the message. */
  predicate Finished(h: Handling) { h.Busy? || (h.Casting? && h.left == []) }

  // ---- What a step does

  /** The first entry whose message carries the sequence number. */
  function FindEntry(pool: Pool, list: seq<Pending>, seqno: nat, from: nat): (r: Option<nat>)
    requires from <= |list|
    ensures r.Some? ==> from <= r.value < |list| && list[r.value].msg < |pool.msgs| && pool.msgs[list[r.value].msg].seqno == seqno
    ensures r.None? ==> forall k :: from <= k < |list| && list[k].msg < |pool.msgs| ==> pool.msgs[list[k].msg].seqno != seqno
    decreases |list| - from
  {
    if from == |list| then None
    else if list[from].msg < |pool.msgs| && pool.msgs[list[from].msg].seqno == seqno then Some(from)
    else FindEntry(pool, list, seqno, from + 1)
  }

  function SetTask(s: State, t: nat, task: Task): State
    requires t < |s.tasks|
  {
    s.(tasks := s.tasks[t := task])
  }

  function CloseCall(calls: map<nat, Call>, issue: nat): map<nat, Call> {
    if issue in calls then calls[issue := calls[issue].(phase := Closed)] else calls
  }

  function SetPhase(calls: map<nat, Call>, issue: nat, phase: Phase): map<nat, Call> {
    if issue in calls then calls[issue := calls[issue].(phase := phase)] else calls
  }

  /** A call is built: a message with one reference, addressed to the bus. A synchronous caller is now inside it. */
  function DoIssueCall(s: State, t: nat, sync: bool, notify: bool, major: nat, payload: int): State
    requires t < |s.tasks| && CanAlloc(s.pool)
  {
    var issue, sequence, id := s.issued + 1, NextSequence(s.sequence), s.pool.free[0];
    var m := Message(sequence, 1, if sync then SyncCall else AsyncCall, major, t, 0, payload, notify, issue);
    SetTask(s, t, s.tasks[t].(held := Some(id), call := if sync then Some(issue) else None))
      .(pool := Alloc(s.pool, m), sequence := sequence, issued := issue,
        calls := s.calls[issue := Call(sync, notify, t, major, id, sequence, Requested)])
  }

  /** A signal or a subscription is built: no reference counted. It may go straight to a segment. */
  function DoIssueSignal(s: State, t: nat, subscribe: bool, dst: nat, major: nat, payload: int): State
    requires t < |s.tasks| && CanAlloc(s.pool)
  {
    var sequence, id := NextSequence(s.sequence), s.pool.free[0];
    var m := Message(sequence, 0, if subscribe then Subscribe else Signal, major, t, dst, payload, false, 0);
    SetTask(s, t, s.tasks[t].(held := Some(id)))
      .(pool := Alloc(s.pool, m), sequence := sequence, issued := s.issued + 1)
  }

  /** A call that has no entry is lost with its message: nothing will answer it any more. */
  function Forget(calls: map<nat, Call>, issue: nat): map<nat, Call> {
    if issue in calls && calls[issue].Open() && (calls[issue].phase.Requested? || !calls[issue].Wants())
    then SetPhase(calls, issue, Lost) else calls
  }

  /** Room is left in the queue of the task that hosts the destination. */
  predicate Accepts(s: State, t: nat)
    requires t < |s.tasks| && s.tasks[t].held.Some? && s.tasks[t].held.value < |s.pool.msgs|
    requires Configured(s) && s.pool.msgs[s.tasks[t].held.value].dst < |s.home|
  {
    |s.tasks[s.home[s.pool.msgs[s.tasks[t].held.value].dst]].queue| < s.capacity
  }

  /** Into the queue of the task that hosts the destination, or silently dropped when that is full. */
  function DoPost(s: State, t: nat): State
    requires t < |s.tasks| && s.tasks[t].held.Some? && s.tasks[t].held.value < |s.pool.msgs|
    requires Configured(s) && s.pool.msgs[s.tasks[t].held.value].dst < |s.home|
  {
    var m, s1 := s.pool.msgs[s.tasks[t].held.value], Deliver(s, t);
    if Accepts(s, t) || !(m.kind.IsCall() || m.kind.CallReturn?) then s1
    else s1.(calls := Forget(s1.calls, m.issue))
  }

  /** What posting does to queues and references. */
  function Deliver(s: State, t: nat): State
    requires t < |s.tasks| && s.tasks[t].held.Some? && s.tasks[t].held.value < |s.pool.msgs|
    requires Configured(s) && s.pool.msgs[s.tasks[t].held.value].dst < |s.home|
  {
    var id := s.tasks[t].held.value;
    var target := s.home[s.pool.msgs[id].dst];
    var s1 := SetTask(s, t, s.tasks[t].(held := None));
    if |s1.tasks[target].queue| < s.capacity
    then SetTask(s1, target, s1.tasks[target].(queue := s1.tasks[target].queue + [id]))
    else s1.(leaked := s1.leaked + multiset{id})
  }

  function DoReceive(s: State, t: nat): State
    requires t < |s.tasks| && s.tasks[t].queue != [] && s.tasks[t].queue[0] < |s.pool.msgs|
  {
    var id := s.tasks[t].queue[0];
    var m := s.pool.msgs[id];
    var task := s.tasks[t].(queue := s.tasks[t].queue[1..]);
    if m.dst == 0 then SetTask(s, t, task.(handling := Fresh(id)))
    else
      SetTask(s, t, task.(handling := Busy(id)))
        .(calls := if m.kind.IsCall() then SetPhase(s.calls, m.issue, Serving) else s.calls)
  }

  /**
   * The bus records a call in the list of the service's segment, takes a second reference and sends the
   * message on. A call that wants no reply gets no entry, and its second reference is never dropped.
   */
  function DoBusRecord(s: State): State
    requires |s.tasks| > 0 && s.tasks[0].handling.Fresh? && s.tasks[0].handling.m < |s.pool.msgs|
    requires s.pool.msgs[s.tasks[0].handling.m].major < |s.lists|
  {
    var id := s.tasks[0].handling.m;
    var m := s.pool.msgs[id];
    var entry := Pending(id, m.kind.SyncCall?, m.issue);
    var wants := m.kind.SyncCall? || m.pn;
    SetTask(s, 0, s.tasks[0].(handling := Idle, held := Some(id)))
      .(pool := Address(Get(s.pool, id), id, m.major),
        lists := if wants then s.lists[m.major := s.lists[m.major] + [entry]] else s.lists,
        leaked := if wants then s.leaked else s.leaked + multiset{id},
        calls := SetPhase(s.calls, m.issue, Recorded))
  }

  /** The reply is paired with the first entry that has its number, if any, and the call settled. */
  function DoBusMatch(s: State): State
    requires |s.tasks| > 0 && s.tasks[0].handling.Fresh? && s.tasks[0].handling.m < |s.pool.msgs|
    requires s.pool.msgs[s.tasks[0].handling.m].major < |s.lists|
  {
    var id := s.tasks[0].handling.m;
    var r := s.pool.msgs[id];
    var found := FindEntry(s.pool, s.lists[r.major], r.seqno, 0);
    if found.None? then
      SetTask(s, 0, s.tasks[0].(handling := Busy(id))).(calls := CloseCall(s.calls, r.issue))
    else
      var e := s.lists[r.major][found.value];
      var s1 := SetTask(s, 0, s.tasks[0].(handling := Retiring(id, r.major, found.value)))
                  .(calls := CloseCall(s.calls, e.issue));
      Settle(s1, e, r.payload)
  }

  /** A synchronous caller gets its answer and a token; for an asynchronous call the notifier is called. */
  function Settle(s: State, e: Pending, payload: int): State
    requires e.msg < |s.pool.msgs|
  {
    var src := s.pool.msgs[e.msg].src;
    if !e.sync then s.(fired := s.fired + multiset{e.issue})
    else if src >= |s.tasks| then s
    else SetTask(s, src, s.tasks[src].(out := payload, callSem := s.tasks[src].callSem + 1))
  }

  /** The entry is dropped together with its reference. */
  function DoBusRetire(s: State): State
    requires |s.tasks| > 0 && s.tasks[0].handling.Retiring? && RetiresEntry(s, s.tasks[0].handling)
  {
    var h := s.tasks[0].handling;
    var list := s.lists[h.major];
    SetTask(s, 0, s.tasks[0].(handling := Busy(h.m)))
      .(pool := Release(s.pool, list[h.k].msg), lists := s.lists[h.major := list[..h.k] + list[h.k + 1..]])
  }

  function DoBusSignal(s: State): State
    requires |s.tasks| > 0 && s.tasks[0].handling.Fresh? && s.tasks[0].handling.m < |s.pool.msgs|
    requires s.pool.msgs[s.tasks[0].handling.m].major < |s.subs|
  {
    var id := s.tasks[0].handling.m;
    SetTask(s, 0, s.tasks[0].(handling := Casting(id, s.subs[s.pool.msgs[id].major])))
  }

  /** A copy of the signal, with one reference, for the next subscriber. */
  function DoBusReplicate(s: State): State
    requires |s.tasks| > 0 && s.tasks[0].handling.Casting? && s.tasks[0].handling.left != []
    requires s.tasks[0].handling.m < |s.pool.msgs| && CanAlloc(s.pool)
  {
    var h, id := s.tasks[0].handling, s.pool.free[0];
    var m := s.pool.msgs[h.m];
    SetTask(s, 0, s.tasks[0].(handling := Casting(h.m, h.left[1..]), held := Some(id)))
      .(pool := Alloc(s.pool, m.(ref := m.ref + 1, dst := h.left[0])))
  }

  function DoBusSubscribe(s: State): State
    requires |s.tasks| > 0 && s.tasks[0].handling.Fresh? && s.tasks[0].handling.m < |s.pool.msgs|
    requires s.pool.msgs[s.tasks[0].handling.m].major < |s.subs| && s.pool.msgs[s.tasks[0].handling.m].payload >= 0
  {
    var id := s.tasks[0].handling.m;
    var m := s.pool.msgs[id];
    SetTask(s, 0, s.tasks[0].(handling := Busy(id)))
      .(subs := s.subs[m.major := s.subs[m.major] + [m.payload]])
  }

  /** The service answers a call it has received, from its handler or later: once. */
  function DoReply(s: State, t: nat, issue: nat, payload: int): State
    requires t < |s.tasks| && issue in s.calls && CanAlloc(s.pool)
  {
    var id := s.pool.free[0];
    var m := Message(s.calls[issue].seqno, 0, CallReturn, s.calls[issue].major, t, 0, payload, false, issue);
    SetTask(s, t, s.tasks[t].(held := Some(id)))
      .(pool := Alloc(s.pool, m), calls := SetPhase(s.calls, issue, Answered(id)), replied := s.replied[issue := payload])
  }

  function DoFinish(s: State, t: nat): State
    requires t < |s.tasks| && s.tasks[t].handling != Idle && s.tasks[t].handling.m < |s.pool.msgs|
  {
    SetTask(s, t, s.tasks[t].(handling := Idle)).(pool := Release(s.pool, s.tasks[t].handling.m))
  }

  /** A payload that does not decode: the handler returns without an answer and without releasing the message. */
  function DoAbandon(s: State, t: nat): State
    requires t < |s.tasks| && s.tasks[t].handling.Busy? && s.tasks[t].handling.m < |s.pool.msgs|
  {
    var i, s1 := s.pool.msgs[s.tasks[t].handling.m].issue, LetGo(s, t);
    if i in s.calls && s.calls[i].phase.Serving? then s1.(calls := Forget(s1.calls, i)) else s1
  }

  function LetGo(s: State, t: nat): State
    requires t < |s.tasks| && s.tasks[t].handling.Busy?
  {
    SetTask(s, t, s.tasks[t].(handling := Idle)).(leaked := s.leaked + multiset{s.tasks[t].handling.m})
  }

  /** The wait ends and the caller takes what its variable holds. */
  function DoWake(s: State, t: nat): State
    requires t < |s.tasks| && s.tasks[t].call.Some? && s.tasks[t].callSem > 0
  {
    SetTask(s, t, s.tasks[t].(call := None, callSem := s.tasks[t].callSem - 1))
      .(returned := s.returned[s.tasks[t].call.value := s.tasks[t].out])
  }

  ghost function Next(s: State, e: Step): State
    requires Enabled(s, e)
  {
    match e
    case IssueCall(t, sync, notify, major, payload) => DoIssueCall(s, t, sync, notify, major, payload)
    case IssueFails(t) => s.(sequence := NextSequence(s.sequence), issued := s.issued + 1)
    case IssueSignal(t, subscribe, dst, major, payload) => DoIssueSignal(s, t, subscribe, dst, major, payload)
    case Post(t) => DoPost(s, t)
    case Receive(t) => DoReceive(s, t)
    case BusRecord => DoBusRecord(s)
    case BusMatch => DoBusMatch(s)
    case BusRetire => DoBusRetire(s)
    case BusSignal => DoBusSignal(s)
    case BusReplicate => DoBusReplicate(s)
    case BusSubscribe => DoBusSubscribe(s)
    case Reply(t, issue, payload) => DoReply(s, t, issue, payload)
    case Finish(t) => DoFinish(s, t)
    case Abandon(t) => DoAbandon(s, t)
    case Wake(t) => DoWake(s, t)
  }

  /** Where everything starts: all messages free, all queues and lists empty, nobody calling. */
  ghost predicate Init(s: State) {
    && Configured(s)
    && Sound(s.pool, Nobody()) && (forall x :: 0 <= x < |s.pool.msgs| ==> s.pool.msgs[x].ref == 0)
    && s.sequence == 0 && s.issued == 0
    && (forall t :: 0 <= t < |s.tasks| ==> s.tasks[t] == Task([], None, Idle, None, 0, s.tasks[t].out))
    && (forall g :: 0 <= g < |s.home| ==> s.lists[g] == [] && s.subs[g] == [])
    && s.calls == map[] && s.replied == map[] && s.returned == map[]
    && s.fired == multiset{} && s.leaked == multiset{} && s.sound
  }

  /** A run: a start and a sequence of steps, each enabled where it happens. */
  ghost predicate Run(states: seq<State>, steps: seq<Step>) {
    && |states| == |steps| + 1 && Init(states[0])
    && forall i :: 0 <= i < |steps| ==> Enabled(states[i], steps[i]) && states[i + 1] == Next(states[i], steps[i])
  }
}
