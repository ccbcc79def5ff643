/** Each step of the bus protocol keeps the invariant. */
module BusSteps {
  import opened Options
  import opened MessagePool
  import opened Bus
  import opened BusOwnership
  import opened BusCalls

  // ---- General facts

  /** Whatever a task has in flight is in flight once, and in order. */
  lemma TakenFlight(s: State, t: nat, x: nat)
    requires InFlightOk(s) && t < |s.tasks| && FlightCount(s.tasks[t], x) > 0
    ensures Flight(s.tasks, x) == 1 && FlightOk(s, x)
  {
    FlightAtMost(s.tasks, t, x);
  }

  /** A free message is not in flight. */
  lemma FreeNotFlying(s: State, id: nat)
    requires Owned(s) && id in s.pool.free
    ensures Flight(s.tasks, id) == 0
  {
    FlightHeld(s.tasks, id);
    if Held(s, id) > 0 { HeldNotFree(s.pool, Holders(s), id); }
  }

  /** A free message is no entry's. */
  lemma FreeNotListed(s: State, id: nat, g: nat, k: nat)
    requires Owned(s) && id in s.pool.free && g < |s.lists| && k < |s.lists[g]|
    ensures s.lists[g][k].msg != id
  {
    EntryHolds(s, g, k);
  }

  /** A free message is in no queue. */
  lemma FreeNotQueued(s: State, id: nat, t: nat, k: nat)
    requires Owned(s) && id in s.pool.free && t < |s.tasks| && k < |s.tasks[t].queue|
    ensures s.tasks[t].queue[k] != id
  {
    OccAt(s.tasks[t].queue, k);
    TaskHolds(s, t, s.tasks[t].queue[k]);
  }

  lemma FreeNotHandled(s: State, id: nat, t: nat)
    requires Owned(s) && id in s.pool.free && t < |s.tasks| && !s.tasks[t].handling.Idle?
    ensures s.tasks[t].handling.m != id
  {
    HandledCounts(s.tasks[t]);
    TaskHolds(s, t, s.tasks[t].handling.m);
  }

  /** What the bus needs to begin handling a call or a reply. */
  lemma InHand(s: State, e: Step)
    requires Enabled(s, e) && (e.BusRecord? || e.BusMatch?)
    ensures TakenUp(s)
  {
  }

  // ---- Building a message: what does not depend on its kind

  /** s' is s with message m built by task t, whose call is now `call`. */
  ghost predicate Built(s: State, s': State, t: nat, m: Message, call: Option<nat>) {
    && Inv(s) && t < |s.tasks| && s.tasks[t].held.None? && CanAlloc(s.pool)
    && s'.pool == Alloc(s.pool, m)
    && s'.tasks == s.tasks[t := s.tasks[t].(held := Some(s.pool.free[0]), call := call)]
    && s'.home == s.home && s'.capacity == s.capacity && s'.lists == s.lists && s'.subs == s.subs
    && s'.leaked == s.leaked && s'.fired == s.fired && s'.returned == s.returned && s'.sound == s.sound
    && m.ref <= 1
  }

  lemma BuiltOwned(s: State, s': State, t: nat, m: Message, call: Option<nat>)
    requires Built(s, s', t, m, call)
    ensures Owned(s') && Configured(s')
  {
    BuildOwned(s, t, s'.tasks[t], m, s');
  }

  lemma BuiltFlight(s: State, s': State, t: nat, m: Message, call: Option<nat>, x: nat)
    requires Built(s, s', t, m, call)
    ensures Flight(s'.tasks, x) == if x == s.pool.free[0] then 1 else Flight(s.tasks, x)
  {
    FlightUpdate(s.tasks, t, s'.tasks[t], x);
    FreeNotFlying(s, s.pool.free[0]);
  }

  /** The calls of s and what was replied to them are still there, except perhaps call i. */
  ghost predicate CallsKept(s: State, s': State, i: nat) {
    && s'.sound == s.sound
    && (forall j :: j in s.calls && j != i ==> j in s'.calls && s'.calls[j] == s.calls[j])
    && (forall j :: j in s'.calls && j != i ==> j in s.calls)
    && (forall j :: j != i ==> (j in s.replied <==> j in s'.replied) && (j in s.replied ==> s'.replied[j] == s.replied[j]))
  }

  /** Messages in flight that do not belong to call i stay in order. */
  lemma OtherFlightKept(s: State, s': State, x: nat, i: nat)
    requires FlightOk(s, x) && CallsKept(s, s', i) && s'.home == s.home
    requires x < |s'.pool.msgs| && s'.pool.msgs[x] == s.pool.msgs[x]
    requires var m := s.pool.msgs[x]; m.kind.IsCall() || m.kind.CallReturn? ==> m.issue != i
    ensures FlightOk(s', x)
  {
  }

  lemma BuiltInFlight(s: State, s': State, t: nat, m: Message, call: Option<nat>, i: nat)
    requires Built(s, s', t, m, call) && CallsKept(s, s', i)
    requires FlightOk(s', s.pool.free[0])
    requires NoFlightOf(s, i)
    ensures InFlightOk(s')
  {
    hide FlightOk, Flight;
    forall x: nat
      ensures Flight(s'.tasks, x) <= 1 && (Flight(s'.tasks, x) == 1 ==> FlightOk(s', x))
    {
      BuiltFlight(s, s', t, m, call, x);
      if x != s.pool.free[0] && Flight(s.tasks, x) == 1 {
        assert FlightOk(s, x);
        InRange(s, x);
        OtherFlightKept(s, s', x, i);
      }
    }
  }

  lemma InRange(s: State, x: nat)
    requires FlightOk(s, x)
    ensures x < |s.pool.msgs|
  {
  }

  /** Call i, if there was one, is still open and the same but for its phase. */
  ghost predicate StillOpen(s: State, s': State, i: nat) {
    i in s.calls ==>
      && i in s'.calls && s.calls[i].Open() && s'.calls[i].Open()
      && s'.calls[i].(phase := s.calls[i].phase) == s.calls[i]
  }

  lemma OthersWait(s: State, s': State, t: nat, task: Task, i: nat)
    requires WaitOk(s, t, task) && CallsKept(s, s', i) && StillOpen(s, s', i)
    ensures WaitOk(s', t, task)
  {
  }

  lemma BuiltHandling(s: State, s': State, t: nat, m: Message, call: Option<nat>, t2: nat)
    requires Built(s, s', t, m, call) && t2 < |s.tasks|
    ensures HandlingOk(s', t2, s'.tasks[t2].handling) && QueueOk(s', t2)
  {
    hide Owned, InFlightOk, CallsOk, EntriesOk, LiveDiffer, HistoryOk, WaitOk;
    var id := s.pool.free[0];
    assert TaskOk(s, t2);
    if !s.tasks[t2].handling.Idle? { FreeNotHandled(s, id, t2); }
    forall k | 0 <= k < |s'.tasks[t2].queue| ensures PlacedOk(s', t2, s'.tasks[t2].queue[k]) {
      FreeNotQueued(s, id, t2, k);
      assert PlacedOk(s, t2, s.tasks[t2].queue[k]);
    }
  }

  lemma BuiltTasks(s: State, s': State, t: nat, m: Message, call: Option<nat>, i: nat)
    requires Built(s, s', t, m, call) && CallsKept(s, s', i) && StillOpen(s, s', i)
    requires WaitOk(s', t, s'.tasks[t])
    ensures TasksOk(s')
  {
    hide WaitOk, HandlingOk, QueueOk, CallsKept, StillOpen;
    forall t2 | 0 <= t2 < |s'.tasks| ensures TaskOk(s', t2) {
      BuiltHandling(s, s', t, m, call, t2);
      assert TaskOk(s, t2);
      if t2 != t { OthersWait(s, s', t2, s.tasks[t2], i); }
    }
  }

  lemma BuiltEntries(s: State, s': State, t: nat, m: Message, call: Option<nat>, i: nat)
    requires Built(s, s', t, m, call) && CallsKept(s, s', i) && StillOpen(s, s', i)
    requires i in s'.calls && (s'.calls[i].phase.Requested? || s'.calls[i].phase.Lost?) ==> i !in s.calls
    ensures EntriesOk(s')
  {
    hide Owned, InFlightOk, CallsOk, TasksOk, LiveDiffer, HistoryOk;
    forall g, k | 0 <= g < |s'.lists| && 0 <= k < |s'.lists[g]| ensures EntryOk(s', g, k) {
      assert EntryOk(s, g, k);
      FreeNotListed(s, s.pool.free[0], g, k);
      assert s'.tasks[0].handling == s.tasks[0].handling;
    }
  }

  lemma BuiltHistory(s: State, s': State, t: nat, m: Message, call: Option<nat>, i: nat)
    requires Built(s, s', t, m, call) && CallsKept(s, s', i) && StillOpen(s, s', i)
    requires i !in s.calls ==> i !in s.replied && i !in s'.replied
    ensures HistoryOk(s') && SubsOk(s')
  {
    hide Owned, InFlightOk, CallsOk, TasksOk, LiveDiffer, EntriesOk;
  }

  // ---- Issuing a call

  lemma NewIssue(s: State)
    requires Inv(s)
    ensures s.issued + 1 !in s.calls && s.issued + 1 !in s.replied
    ensures NextSequence(s.sequence) == (s.issued + 1) % SEQUENCE_LIMIT
  {
    forall i | i in s.calls ensures i <= s.issued { assert CallOk(s, i); }
  }

  lemma IssueCallCalls(s: State, e: Step)
    requires Inv(s) && e.IssueCall? && Enabled(s, e)
    ensures CallsOk(Next(s, e)) && LiveDiffer(Next(s, e))
  {
    hide Owned, InFlightOk, TasksOk, EntriesOk, HistoryOk;
    NewIssue(s);
    var s', i := Next(s, e), s.issued + 1;
    forall j | j in s'.calls ensures CallOk(s', j) {
      if j != i {
        assert CallOk(s, j);
        assert HasEntry(s, s.calls[j].major, j) ==> HasEntry(s', s.calls[j].major, j);
      }
    }
    forall j, k | j in s'.calls && k in s'.calls && s'.calls[j].Live() && s'.calls[k].Live() && j != k
      ensures j % SEQUENCE_LIMIT != k % SEQUENCE_LIMIT
    {
      if j == i || k == i {
        var o := if j == i then k else j;
        assert CallOk(s, o) && s.issued + 1 < o + SEQUENCE_LIMIT;
        DifferWithin(o, i);
      }
    }
  }

  lemma DifferWithin(o: nat, i: nat)
    requires o < i < o + SEQUENCE_LIMIT
    ensures o % SEQUENCE_LIMIT != i % SEQUENCE_LIMIT
  {
  }

  lemma IssueCallBuilds(s: State, e: Step)
    requires Inv(s) && e.IssueCall? && Enabled(s, e)
    ensures var s', i, id := Next(s, e), s.issued + 1, s.pool.free[0];
            var m, call := s'.pool.msgs[id], s'.tasks[e.t].call;
            && Built(s, s', e.t, m, call) && CallsKept(s, s', i) && StillOpen(s, s', i)
            && WaitOk(s', e.t, s'.tasks[e.t]) && FlightOk(s', id) && NoFlightOf(s, i)
  {
    hide Owned, CallsOk, LiveDiffer, EntriesOk, Flight, InFlightOk, HistoryOk, SubsOk, QueueOk, HandlingOk;
    NewIssue(s);
    NoFlightOfNew(s, s.issued + 1);
    assert TaskOk(s, e.t);
  }

  lemma NoFlightOfNew(s: State, i: nat)
    requires InFlightOk(s) && i !in s.calls
    ensures NoFlightOf(s, i)
  {
    hide Flight;
    forall x: nat | Flight(s.tasks, x) == 1 && x < |s.pool.msgs|
      ensures var y := s.pool.msgs[x]; y.kind.IsCall() || y.kind.CallReturn? ==> y.issue != i
    {
      assert FlightOk(s, x);
    }
  }

  /** No message in flight belongs to call i. */
  ghost predicate NoFlightOf(s: State, i: nat) {
    forall x: nat :: Flight(s.tasks, x) == 1 && x < |s.pool.msgs| ==>
      var y := s.pool.msgs[x]; y.kind.IsCall() || y.kind.CallReturn? ==> y.issue != i
  }

  /** A call that is being served has no message in flight. */
  lemma ServedNotFlying(s: State, i: nat)
    requires InFlightOk(s) && i in s.calls && s.calls[i].phase.Serving?
    ensures NoFlightOf(s, i)
  {
    hide Flight;
    forall x: nat | Flight(s.tasks, x) == 1 && x < |s.pool.msgs|
      ensures var y := s.pool.msgs[x]; y.kind.IsCall() || y.kind.CallReturn? ==> y.issue != i
    {
      assert FlightOk(s, x);
    }
  }

  lemma IssueCallKeeps(s: State, e: Step)
    requires Inv(s) && e.IssueCall? && Enabled(s, e)
    ensures Inv(Next(s, e))
  {
    NewIssue(s);
    var s', i, id := Next(s, e), s.issued + 1, s.pool.free[0];
    var m, call := s'.pool.msgs[id], s'.tasks[e.t].call;
    IssueCallCalls(s, e);
    IssueCallBuilds(s, e);
    hide Owned, InFlightOk, CallsOk, TasksOk, LiveDiffer, EntriesOk, HistoryOk, SubsOk, Built, CallsKept, StillOpen, FlightOk, WaitOk;
    BuiltOwned(s, s', e.t, m, call);
    BuiltInFlight(s, s', e.t, m, call, i);
    BuiltTasks(s, s', e.t, m, call, i);
    BuiltEntries(s, s', e.t, m, call, i);
    BuiltHistory(s, s', e.t, m, call, i);
  }

  // ---- Steps that leave calls and waiting callers alone

  /** Nothing about calls, entries, subscribers or waiting callers has changed. */
  ghost predicate Quiet(s: State, s': State) {
    && s'.home == s.home && s'.lists == s.lists && s'.subs == s.subs
    && s'.calls == s.calls && s'.replied == s.replied && s'.returned == s.returned && s'.fired == s.fired && s'.sound == s.sound
    && s'.issued >= s.issued && |s'.tasks| == |s.tasks|
    && forall t :: 0 <= t < |s.tasks| ==>
         s'.tasks[t].call == s.tasks[t].call && s'.tasks[t].callSem == s.tasks[t].callSem && s'.tasks[t].out == s.tasks[t].out
  }

  lemma QuietCalls(s: State, s': State)
    requires Configured(s) && CallsOk(s) && LiveDiffer(s) && HistoryOk(s) && SubsOk(s) && Quiet(s, s')
    ensures CallsOk(s') && LiveDiffer(s') && HistoryOk(s') && SubsOk(s') && Configured(s')
  {
    forall i | i in s'.calls ensures CallOk(s', i) { assert CallOk(s, i); }
  }

  lemma QuietWaits(s: State, s': State, t: nat)
    requires Quiet(s, s') && t < |s.tasks| && WaitOk(s, t, s.tasks[t])
    ensures WaitOk(s', t, s'.tasks[t])
  {
  }

  /** The two messages differ at most in reference count and destination. */
  predicate SameCall(a: Message, b: Message) { a.(ref := b.ref, dst := b.dst) == b }

  lemma QuietEntries(s: State, s': State)
    requires EntriesOk(s) && Quiet(s, s') && |s'.pool.msgs| == |s.pool.msgs|
    requires |s.tasks| > 0 && (s.tasks[0].handling == s'.tasks[0].handling
                               || (!s.tasks[0].handling.Retiring? && !s'.tasks[0].handling.Retiring?))
    requires forall g, k :: 0 <= g < |s.lists| && 0 <= k < |s.lists[g]| && s.lists[g][k].msg < |s.pool.msgs| ==>
               SameCall(s'.pool.msgs[s.lists[g][k].msg], s.pool.msgs[s.lists[g][k].msg])
    ensures EntriesOk(s')
  {
    forall g, k | 0 <= g < |s'.lists| && 0 <= k < |s'.lists[g]| ensures EntryOk(s', g, k) { assert EntryOk(s, g, k); }
  }

  /** A message in flight that is untouched stays in order. */
  lemma QuietFlight(s: State, s': State, x: nat)
    requires Quiet(s, s') && FlightOk(s, x) && x < |s'.pool.msgs| && s'.pool.msgs[x] == s.pool.msgs[x]
    ensures FlightOk(s', x)
  {
  }

  // ---- Issuing a signal, a subscription, or nothing

  lemma IssueFailsKeeps(s: State, e: Step)
    requires Inv(s) && e.IssueFails? && Enabled(s, e)
    ensures Inv(Next(s, e))
  {
    var s' := Next(s, e);
    assert Owned(s') by { hide Held; SameCountsOwned(s, s'); }
    hide Owned, Flight, Occ, CallsOk, HistoryOk, LiveDiffer, SubsOk, EntriesOk, FlightOk, HandlingOk, QueueOk, WaitOk;
    QuietCalls(s, s');
    QuietEntries(s, s');
    forall t | 0 <= t < |s'.tasks| ensures TaskOk(s', t) {
      assert TaskOk(s, t);
      QuietWaits(s, s', t);
      SameHandling(s, s', t);
    }
    forall x: nat ensures Flight(s'.tasks, x) <= 1 && (Flight(s'.tasks, x) == 1 ==> FlightOk(s', x)) {
      if Flight(s.tasks, x) == 1 { InRange(s, x); QuietFlight(s, s', x); }
    }
  }

  lemma SameHandling(s: State, s': State, t: nat)
    requires t < |s.tasks| == |s'.tasks| && TaskOk(s, t) && s'.tasks[t] == s.tasks[t]
    requires s'.pool == s.pool && s'.home == s.home && s'.lists == s.lists
    ensures HandlingOk(s', t, s'.tasks[t].handling) && QueueOk(s', t)
  {
    forall k | 0 <= k < |s'.tasks[t].queue| ensures PlacedOk(s', t, s'.tasks[t].queue[k]) {
      assert PlacedOk(s, t, s.tasks[t].queue[k]);
    }
  }

  lemma IssueSignalKeeps(s: State, e: Step)
    requires Inv(s) && e.IssueSignal? && Enabled(s, e)
    ensures Inv(Next(s, e))
  {
    var s', id := Next(s, e), s.pool.free[0];
    var m, call := s'.pool.msgs[id], s'.tasks[e.t].call;
    hide Owned, InFlightOk, CallsOk, TasksOk, LiveDiffer, EntriesOk, HistoryOk, SubsOk;
    assert Built(s, s', e.t, m, call);
    QuietBuilt(s, s', e.t, m, call);
  }

  lemma TaskWaits(s: State, t: nat)
    requires TasksOk(s) && t < |s.tasks|
    ensures WaitOk(s, t, s.tasks[t]) && HandlingOk(s, t, s.tasks[t].handling) && QueueOk(s, t)
  {
    assert TaskOk(s, t);
  }

  lemma QuietKept(s: State, s': State, i: nat)
    requires Quiet(s, s') && i !in s.calls
    ensures CallsKept(s, s', i) && StillOpen(s, s', i)
  {
  }

  /** Building a message that belongs to no call. */
  lemma QuietBuilt(s: State, s': State, t: nat, m: Message, call: Option<nat>)
    requires Built(s, s', t, m, call) && Quiet(s, s') && s'.sequence == s'.issued % SEQUENCE_LIMIT
    requires FlightOk(s', s.pool.free[0]) && !m.kind.IsCall() && !m.kind.CallReturn?
    ensures Inv(s')
  {
    hide Owned, InFlightOk, CallsOk, TasksOk, LiveDiffer, EntriesOk, HistoryOk, SubsOk, CallsKept, StillOpen, FlightOk, WaitOk, Flight;
    NewIssue(s);
    NoFlightOfNew(s, s.issued + 1);
    QuietKept(s, s', s.issued + 1);
    QuietCalls(s, s');
    assert WaitOk(s, t, s.tasks[t]) by { TaskWaits(s, t); }
    QuietWaits(s, s', t);
    BuiltOwned(s, s', t, m, call);
    BuiltInFlight(s, s', t, m, call, s.issued + 1);
    BuiltTasks(s, s', t, m, call, s.issued + 1);
    BuiltEntries(s, s', t, m, call, s.issued + 1);
  }

  // ---- Posting and receiving

  /** What posting changes. */
  lemma PostQuiet(s: State, t: nat)
    requires Enabled(s, Post(t))
    ensures var s' := Deliver(s, t);
            Quiet(s, s') && s'.pool == s.pool && s'.sequence == s.sequence && s'.issued == s.issued
  {
    PostFrame(s, t);
    hide Enabled, Deliver;
  }

  lemma PostFrame(s: State, t: nat)
    requires t < |s.tasks| && s.tasks[t].held.Some? && s.tasks[t].held.value < |s.pool.msgs|
    requires Configured(s) && s.pool.msgs[s.tasks[t].held.value].dst < |s.home|
    ensures var s' := Deliver(s, t);
            && s' == s.(tasks := s'.tasks, leaked := s'.leaked) && |s'.tasks| == |s.tasks|
            && forall u :: 0 <= u < |s.tasks| ==> s'.tasks[u] == s.tasks[u].(held := s'.tasks[u].held, queue := s'.tasks[u].queue)
  {
  }

  lemma PostShape(s: State, t: nat)
    requires Enabled(s, Post(t))
    ensures var s', id := Deliver(s, t), s.tasks[t].held.value;
            && Quiet(s, s') && s'.pool == s.pool && s'.sequence == s.sequence && s'.issued == s.issued
            && forall t2 :: 0 <= t2 < |s.tasks| ==> PostedTask(s, s', id, t2)
  {
    PostQuiet(s, t);
    hide PostedTask, Deliver, Quiet;
    forall t2 | 0 <= t2 < |s.tasks| ensures PostedTask(s, Deliver(s, t), s.tasks[t].held.value, t2) {
      PostShapeAt(s, t, t2);
    }
  }

  lemma PostShapeAt(s: State, t: nat, t2: nat)
    requires Enabled(s, Post(t)) && t2 < |s.tasks|
    ensures PostedTask(s, Deliver(s, t), s.tasks[t].held.value, t2)
  {
  }

  ghost predicate PostedTask(s: State, s': State, id: nat, t: nat)
    requires t < |s.tasks|
  {
    && t < |s'.tasks| && s'.tasks[t].handling == s.tasks[t].handling
    && (s'.tasks[t].queue == s.tasks[t].queue
        || (s'.tasks[t].queue == s.tasks[t].queue + [id] && PlacedOk(s', t, id)))
  }

  /** Posting moves a message from hand to queue, or loses it. */
  lemma PostFlight(s: State, t: nat, x: nat)
    requires Enabled(s, Post(t))
    ensures Flight(Deliver(s, t).tasks, x) <= Flight(s.tasks, x)
  {
    var s' := Deliver(s, t);
    var id := s.tasks[t].held.value;
    var task1 := s.tasks[t].(held := None);
    var s1 := SetTask(s, t, task1);
    var target := s.home[s.pool.msgs[id].dst];
    FlightUpdate(s.tasks, t, task1, x);
    if |s1.tasks[target].queue| < s.capacity {
      AppendFlight(s1.tasks[target], id, x);
      FlightUpdate(s1.tasks, target, s'.tasks[target], x);
    }
  }

  lemma AppendFlight(task: Task, id: nat, x: nat)
    ensures FlightCount(task.(queue := task.queue + [id]), x) == FlightCount(task, x) + (if x == id then 1 else 0)
  {
    OccConcat(task.queue, [id], x);
  }

  lemma PostTask(s: State, s': State, id: nat, t: nat)
    requires Quiet(s, s') && s'.pool == s.pool && t < |s.tasks| && TaskOk(s, t) && PostedTask(s, s', id, t)
    ensures TaskOk(s', t)
  {
    QuietWaits(s, s', t);
    forall k | 0 <= k < |s'.tasks[t].queue| ensures PlacedOk(s', t, s'.tasks[t].queue[k]) {
      if k < |s.tasks[t].queue| {
        assert PlacedOk(s, t, s.tasks[t].queue[k]);
      }
    }
  }

  lemma DeliverKeeps(s: State, e: Step)
    requires Inv(s) && e.Post? && Enabled(s, e)
    ensures Inv(Deliver(s, e.t))
  {
    hide Owned, Flight, CallsOk, HistoryOk, LiveDiffer, SubsOk, EntriesOk, FlightOk, TaskOk, Deliver, Quiet, PostedTask;
    var s' := Deliver(s, e.t);
    PostOwned(s, e.t);
    PostShape(s, e.t);
    QuietCalls(s, s');
    assert PostedTask(s, s', s.tasks[e.t].held.value, 0);
    SameBus(s, s', s.tasks[e.t].held.value);
    QuietEntries(s, s');
    forall t | 0 <= t < |s'.tasks| ensures TaskOk(s', t) { PostTask(s, s', s.tasks[e.t].held.value, t); }
    forall x: nat ensures Flight(s'.tasks, x) <= 1 && (Flight(s'.tasks, x) == 1 ==> FlightOk(s', x)) {
      PostFlight(s, e.t, x);
      if Flight(s.tasks, x) == 1 { InRange(s, x); QuietFlight(s, s', x); }
    }
  }

  lemma SameBus(s: State, s': State, id: nat)
    requires |s.tasks| > 0 && PostedTask(s, s', id, 0) && Quiet(s, s')
    ensures s'.tasks[0].handling == s.tasks[0].handling && |s'.tasks| == |s.tasks|
  {
  }

  /** The bus takes up a message: it stays in flight. */
  lemma ReceiveFlight(s: State, t: nat, x: nat)
    requires Inv(s) && Enabled(s, Receive(t))
    ensures var id := s.tasks[t].queue[0];
            && Flight(s.tasks, id) == 1 && FlightOk(s, id)
            && Flight(DoReceive(s, t).tasks, x)
               == if x == id && s.pool.msgs[id].dst != 0 then 0 else Flight(s.tasks, x)
  {
    hide Owned, CallsOk, TasksOk, LiveDiffer, EntriesOk, HistoryOk, SubsOk;
    var s', id := DoReceive(s, t), s.tasks[t].queue[0];
    TakenFlight(s, t, id);
    FlightUpdate(s.tasks, t, s'.tasks[t], x);
  }

  lemma ReceiveTask(s: State, t: nat, t2: nat)
    requires Inv(s) && Enabled(s, Receive(t)) && t2 < |s.tasks|
    ensures var s' := DoReceive(s, t);
            HandlingOk(s', t2, s'.tasks[t2].handling) && QueueOk(s', t2)
  {
    hide Owned, InFlightOk, CallsOk, LiveDiffer, EntriesOk, HistoryOk, SubsOk, WaitOk, HandlingOk;
    assert TaskOk(s, t2) && TaskOk(s, t);
    assert PlacedOk(s, t, s.tasks[t].queue[0]);
    hide Inv, Enabled, DoReceive, QueueOk;
    ReceiveTaskAt(s, t, t2);
  }

  lemma ReceiveTaskAt(s: State, t: nat, t2: nat)
    requires t < |s.tasks| && t2 < |s.tasks| && s.tasks[t].queue != [] && PlacedOk(s, t, s.tasks[t].queue[0])
    requires |s.home| > 0 && s.home[0] == 0 && HandlingOk(s, t2, s.tasks[t2].handling) && QueueOk(s, t2)
    ensures var s' := DoReceive(s, t);
            |s'.tasks| == |s.tasks| && HandlingOk(s', t2, s'.tasks[t2].handling) && QueueOk(s', t2)
  {
    var s' := DoReceive(s, t);
    forall k | 0 <= k < |s'.tasks[t2].queue| ensures PlacedOk(s', t2, s'.tasks[t2].queue[k]) {
      assert PlacedOk(s, t2, s.tasks[t2].queue[if t2 == t then k + 1 else k]);
    }
  }

  lemma ReceiveShape(s: State, t: nat)
    requires Enabled(s, Receive(t))
    requires var m := s.pool.msgs[s.tasks[t].queue[0]]; m.dst == 0 || !m.kind.IsCall()
    ensures var s' := DoReceive(s, t);
            && Quiet(s, s') && s'.pool == s.pool && |s'.tasks| == |s.tasks| > 0 && s'.sequence == s.sequence && s'.issued == s.issued
            && (s.tasks[0].handling == s'.tasks[0].handling
                || (!s.tasks[0].handling.Retiring? && !s'.tasks[0].handling.Retiring?))
  {
  }

  lemma ReceiveKeepsQuiet(s: State, t: nat)
    requires Inv(s) && Enabled(s, Receive(t))
    requires var m := s.pool.msgs[s.tasks[t].queue[0]]; m.dst == 0 || !m.kind.IsCall()
    ensures Inv(DoReceive(s, t))
  {
    var s' := DoReceive(s, t);
    ReceiveOwned(s, t);
    ReceiveShape(s, t);
    hide Owned, Flight, CallsOk, HistoryOk, LiveDiffer, SubsOk, EntriesOk, FlightOk, WaitOk, HandlingOk, QueueOk, DoReceive, Quiet;
    QuietCalls(s, s');
    QuietEntries(s, s');
    forall t2 | 0 <= t2 < |s'.tasks| ensures TaskOk(s', t2) {
      ReceiveTask(s, t, t2);
      TaskWaits(s, t2);
      QuietWaits(s, s', t2);
    }
    forall x: nat ensures Flight(s'.tasks, x) <= 1 && (Flight(s'.tasks, x) == 1 ==> FlightOk(s', x)) {
      ReceiveFlight(s, t, x);
      if Flight(s.tasks, x) == 1 { InRange(s, x); QuietFlight(s, s', x); }
    }
  }

  /** Only the phase of call i differs, and it goes from one live phase past Requested to another. */
  ghost predicate PhaseMoved(s: State, s': State, i: nat) {
    && i in s.calls && s.calls[i].Live() && !s.calls[i].phase.Requested?
    && i in s'.calls && s'.calls == s.calls[i := s.calls[i].(phase := s'.calls[i].phase)]
    && s'.calls[i].Live() && !s'.calls[i].phase.Requested?
    && s'.home == s.home && s'.lists == s.lists && s'.subs == s.subs && s'.issued == s.issued
    && s'.returned == s.returned && s'.fired == s.fired && s'.sound == s.sound && |s'.tasks| == |s.tasks|
    && forall t :: 0 <= t < |s.tasks| ==>
         s'.tasks[t].call == s.tasks[t].call && s'.tasks[t].callSem == s.tasks[t].callSem && s'.tasks[t].out == s.tasks[t].out
  }

  /** Replies to other calls are as before. */
  ghost predicate RepliesKept(s: State, s': State, i: nat) {
    forall j :: j != i ==> (j in s'.replied <==> j in s.replied) && (j in s.replied ==> s'.replied[j] == s.replied[j])
  }

  lemma MovedCalls(s: State, s': State, i: nat)
    requires Configured(s) && CallsOk(s) && LiveDiffer(s) && SubsOk(s) && PhaseMoved(s, s', i) && RepliesKept(s, s', i)
    requires !s'.calls[i].phase.Answered? ==> i !in s'.replied
    ensures CallsOk(s') && LiveDiffer(s') && SubsOk(s') && Configured(s')
  {
    forall j | j in s'.calls ensures CallOk(s', j) {
      assert CallOk(s, j);
    }
  }

  lemma MovedHistory(s: State, s': State, i: nat)
    requires HistoryOk(s) && PhaseMoved(s, s', i) && RepliesKept(s, s', i)
    ensures HistoryOk(s')
  {
  }

  lemma MovedWaits(s: State, s': State, i: nat, t: nat)
    requires PhaseMoved(s, s', i) && RepliesKept(s, s', i) && t < |s.tasks| && WaitOk(s, t, s.tasks[t])
    ensures WaitOk(s', t, s'.tasks[t])
  {
  }

  lemma MovedEntries(s: State, s': State, i: nat)
    requires EntriesOk(s) && PhaseMoved(s, s', i) && s'.pool == s.pool
    requires |s.tasks| > 0 && (s.tasks[0].handling == s'.tasks[0].handling
                               || (!s.tasks[0].handling.Retiring? && !s'.tasks[0].handling.Retiring?))
    ensures EntriesOk(s')
  {
    forall g, k | 0 <= g < |s'.lists| && 0 <= k < |s'.lists[g]| ensures EntryOk(s', g, k) { assert EntryOk(s, g, k); }
  }

  /** The phase of call i moves on; a message in flight that is not its request or its reply stays in order. */
  lemma MovedFlight(s: State, s': State, i: nat, x: nat)
    requires PhaseMoved(s, s', i) && RepliesKept(s, s', i) && FlightOk(s, x)
    requires x < |s'.pool.msgs| && s'.pool.msgs[x] == s.pool.msgs[x]
    requires x != s.calls[i].msg && !s.calls[i].phase.Answered?
    ensures FlightOk(s', x)
  {
  }

  /** A service takes up a call. */
  lemma ReceiveKeepsCall(s: State, t: nat)
    requires Inv(s) && Enabled(s, Receive(t))
    requires var m := s.pool.msgs[s.tasks[t].queue[0]]; m.dst != 0 && m.kind.IsCall()
    ensures Inv(DoReceive(s, t))
  {
    hide Owned, Flight, CallsOk, HistoryOk, LiveDiffer, SubsOk, EntriesOk, WaitOk, HandlingOk, QueueOk, PhaseMoved, RepliesKept, FlightOk;
    var s', id := DoReceive(s, t), s.tasks[t].queue[0];
    var i := s.pool.msgs[id].issue;
    ReceiveOwned(s, t);
    ReceiveFlight(s, t, id);
    ReceiveMoves(s, t);
    MovedCalls(s, s', i);
    MovedHistory(s, s', i);
    BusNotRetiring(s, s', t);
    MovedEntries(s, s', i);
    forall t2 | 0 <= t2 < |s'.tasks| ensures TaskOk(s', t2) {
      ReceiveTask(s, t, t2);
      TaskWaits(s, t2);
      MovedWaits(s, s', i, t2);
    }
    forall x: nat ensures Flight(s'.tasks, x) <= 1 && (Flight(s'.tasks, x) == 1 ==> FlightOk(s', x)) {
      ReceiveFlight(s, t, x);
      if x != id && Flight(s.tasks, x) == 1 { InRange(s, x); MovedFlight(s, s', i, x); }
    }
  }

  lemma BusNotRetiring(s: State, s': State, t: nat)
    requires Enabled(s, Receive(t)) && s' == DoReceive(s, t)
    ensures |s.tasks| > 0 && |s'.tasks| == |s.tasks|
    ensures s.tasks[0].handling == s'.tasks[0].handling
            || (!s.tasks[0].handling.Retiring? && !s'.tasks[0].handling.Retiring?)
  {
  }

  lemma ReceiveMoves(s: State, t: nat)
    requires Enabled(s, Receive(t)) && CallsOk(s)
    requires var id := s.tasks[t].queue[0]; FlightOk(s, id) && s.pool.msgs[id].dst != 0 && s.pool.msgs[id].kind.IsCall()
    ensures var s', id := DoReceive(s, t), s.tasks[t].queue[0];
            var i := s.pool.msgs[id].issue;
            && PhaseMoved(s, s', i) && RepliesKept(s, s', i) && s.calls[i].msg == id && s.calls[i].phase.Recorded?
            && s'.calls[i].phase.Serving? && i !in s'.replied && s'.pool == s.pool
  {
    assert CallOk(s, s.pool.msgs[s.tasks[t].queue[0]].issue);
  }

  // ---- The bus records a call

  /** A message the bus has just taken up is in nobody's queue. */
  lemma FreshNotQueued(s: State, t: nat, k: nat)
    requires InFlightOk(s) && |s.tasks| > 0 && s.tasks[0].handling.Fresh? && t < |s.tasks| && k < |s.tasks[t].queue|
    ensures s.tasks[t].queue[k] != s.tasks[0].handling.m
  {
    var id := s.tasks[0].handling.m;
    OccAt(s.tasks[t].queue, k);
    assert Flight(s.tasks, id) <= 1;
    FlightAtMost(s.tasks, 0, id);
    if t > 0 { FlightTwo(s.tasks, t, id); }
  }

  lemma {:induction false} FlightTwo(tasks: seq<Task>, t: nat, x: nat)
    requires 0 < t < |tasks|
    ensures FlightCount(tasks[0], x) + FlightCount(tasks[t], x) <= Flight(tasks, x)
  {
    FlightAtMost(tasks[1..], t - 1, x);
  }

  /** What is known when the bus has a call in hand. */
  lemma RecordKnows(s: State)
    requires Inv(s) && Enabled(s, BusRecord)
    ensures var id := s.tasks[0].handling.m;
            && Flight(s.tasks, id) == 1 && FlightOk(s, id)
            && var m := s.pool.msgs[id];
            && m.dst == 0 && m.ref == 1 && CallFlight(s, id, m) && s.calls[m.issue].phase.Requested? && CallOk(s, m.issue)
  {
    hide Owned, CallsOk, LiveDiffer, EntriesOk, HistoryOk, SubsOk, QueueOk, WaitOk, Flight;
    var id := s.tasks[0].handling.m;
    TakenFlight(s, 0, id);
    TaskWaits(s, 0);
    assert CallOk(s, s.pool.msgs[id].issue) by { CallAt(s, s.pool.msgs[id].issue); }
  }

  lemma CallAt(s: State, i: nat)
    requires CallsOk(s) && i in s.calls
    ensures CallOk(s, i)
  {
  }

  lemma RecordFlight(s: State, x: nat)
    requires Enabled(s, BusRecord)
    ensures Flight(DoBusRecord(s).tasks, x) == Flight(s.tasks, x)
  {
    FlightUpdate(s.tasks, 0, DoBusRecord(s).tasks[0], x);
  }

  lemma RecordKept(s: State)
    requires Enabled(s, BusRecord) && s.pool.msgs[s.tasks[0].handling.m].issue in s.calls
    requires s.calls[s.pool.msgs[s.tasks[0].handling.m].issue].phase.Requested?
    ensures var s', i := DoBusRecord(s), s.pool.msgs[s.tasks[0].handling.m].issue;
            && CallsKept(s, s', i) && StillOpen(s, s', i) && i in s'.calls && s'.calls[i].phase.Recorded?
  {
  }

  /** No other message in flight belongs to the call whose request id is. */
  lemma OnlyRequest(s: State, id: nat, x: nat)
    requires FlightOk(s, id) && FlightOk(s, x) && x != id
    requires s.pool.msgs[id].kind.IsCall()
    ensures var m := s.pool.msgs[x]; m.kind.IsCall() || m.kind.CallReturn? ==> m.issue != s.pool.msgs[id].issue
  {
  }

  lemma RecordInFlight(s: State)
    requires Inv(s) && Enabled(s, BusRecord)
    ensures InFlightOk(DoBusRecord(s))
  {
    RecordKnows(s);
    RecordKept(s);
    var s', id := DoBusRecord(s), s.tasks[0].handling.m;
    var i := s.pool.msgs[id].issue;
    assert FlightOk(s', id);
    assert forall x :: 0 <= x < |s.pool.msgs| && x != id ==> s'.pool.msgs[x] == s.pool.msgs[x];
    assert |s'.pool.msgs| == |s.pool.msgs| && s'.home == s.home;
    hide Inv, FlightOk, Flight, CallsKept, StillOpen, DoBusRecord;
    forall x: nat ensures Flight(s'.tasks, x) <= 1 && (Flight(s'.tasks, x) == 1 ==> FlightOk(s', x)) {
      RecordFlight(s, x);
      FlyingOk(s, x);
      if x != id && Flight(s.tasks, x) == 1 {
        InRange(s, x);
        OnlyRequest(s, id, x);
        OtherFlightKept(s, s', x, i);
      }
    }
  }

  lemma FlyingOk(s: State, x: nat)
    requires Inv(s)
    ensures Flight(s.tasks, x) <= 1 && (Flight(s.tasks, x) == 1 ==> FlightOk(s, x))
  {
    hide Owned, CallsOk, TasksOk, LiveDiffer, EntriesOk, HistoryOk, SubsOk, FlightOk;
  }

  lemma RecordTask(s: State, t: nat)
    requires Inv(s) && Enabled(s, BusRecord) && t < |s.tasks|
    ensures TaskOk(DoBusRecord(s), t)
  {
    RecordKnows(s);
    RecordKept(s);
    hide Owned, CallsOk, LiveDiffer, EntriesOk, HistoryOk, SubsOk, FlightOk, CallFlight, CallOk, WaitOk, CallsKept, StillOpen, Flight, InFlightOk;
    var s', id := DoBusRecord(s), s.tasks[0].handling.m;
    TaskWaits(s, t);
    OthersWait(s, s', t, s.tasks[t], s.pool.msgs[id].issue);
    assert WaitOk(s', t, s'.tasks[t]) by { SameWait(s', t, s.tasks[t], s'.tasks[t]); }
    forall k | 0 <= k < |s'.tasks[t].queue| ensures PlacedOk(s', t, s'.tasks[t].queue[k]) {
      FreshNotQueued(s, t, k);
      assert PlacedOk(s, t, s.tasks[t].queue[k]);
    }
  }

  lemma SameWait(s: State, t: nat, a: Task, b: Task)
    requires WaitOk(s, t, a) && a.call == b.call && a.callSem == b.callSem && a.out == b.out
    ensures WaitOk(s, t, b)
  {
  }

  /** An entry that was there stays what it was, and belongs to another call. */
  lemma RecordOldEntry(s: State, g: nat, k: nat)
    requires Enabled(s, BusRecord) && g < |s.lists| && k < |s.lists[g]| && EntryOk(s, g, k)
    requires s.pool.msgs[s.tasks[0].handling.m].issue in s.calls
    requires s.calls[s.pool.msgs[s.tasks[0].handling.m].issue].phase.Requested?
    ensures k < |DoBusRecord(s).lists[g]| && DoBusRecord(s).lists[g][k] == s.lists[g][k]
    ensures EntryOk(DoBusRecord(s), g, k) && s.lists[g][k].issue != s.pool.msgs[s.tasks[0].handling.m].issue
  {
  }

  lemma RecordNewEntry(s: State, k: nat)
    requires Enabled(s, BusRecord) && var id := s.tasks[0].handling.m; var m := s.pool.msgs[id];
             && CallFlight(s, id, m) && m.dst == 0 && s.calls[m.issue].Wants() && k == |s.lists[m.major]|
    ensures var g, s' := s.pool.msgs[s.tasks[0].handling.m].major, DoBusRecord(s);
            && |s'.lists| == |s.lists| && |s'.lists[g]| == k + 1 && EntryOk(s', g, k)
            && s'.lists[g][k].issue == s.pool.msgs[s.tasks[0].handling.m].issue
  {
  }

  lemma RecordEntries(s: State)
    requires Inv(s) && Enabled(s, BusRecord)
    ensures EntriesOk(DoBusRecord(s))
  {
    RecordKnows(s);
    hide Owned, CallsOk, LiveDiffer, HistoryOk, SubsOk, InFlightOk, TasksOk, Flight, FlightOk, EntryOk;
    var s', id := DoBusRecord(s), s.tasks[0].handling.m;
    var m := s.pool.msgs[id];
    forall g, k | 0 <= g < |s'.lists| && 0 <= k < |s'.lists[g]|
      ensures EntryOk(s', g, k)
      ensures k < |s.lists[g]| ==> s'.lists[g][k] == s.lists[g][k] && s.lists[g][k].issue != m.issue
      ensures k >= |s.lists[g]| ==> s'.lists[g][k].issue == m.issue && k == |s.lists[g]|
    {
      if k < |s.lists[g]| { RecordOldEntry(s, g, k); } else { RecordNewEntry(s, k); }
    }
  }

  lemma RecordCalls(s: State)
    requires Inv(s) && Enabled(s, BusRecord)
    ensures CallsOk(DoBusRecord(s)) && LiveDiffer(DoBusRecord(s))
  {
    RecordKnows(s);
    hide Owned, EntriesOk, HistoryOk, SubsOk, InFlightOk, TasksOk, Flight, FlightOk;
    var s', id := DoBusRecord(s), s.tasks[0].handling.m;
    var m := s.pool.msgs[id];
    forall j | j in s'.calls ensures CallOk(s', j) {
      assert CallOk(s, j);
      var c := s.calls[j];
      if c.Listed() { EntriesGrow(s, s', c.major, j); }
      if j == m.issue && c.Wants() {
        assert s'.lists[m.major][|s.lists[m.major]|].issue == j;
      }
    }
  }

  lemma EntriesGrow(s: State, s': State, g: nat, i: nat)
    requires HasEntry(s, g, i) && |s'.lists| == |s.lists| && s.lists[g] <= s'.lists[g]
    ensures HasEntry(s', g, i)
  {
    var k :| 0 <= k < |s.lists[g]| && s.lists[g][k].issue == i;
    assert s'.lists[g][k].issue == i;
  }

  lemma RecordKeeps(s: State, e: Step)
    requires Inv(s) && e.BusRecord? && Enabled(s, e)
    ensures Inv(Next(s, e))
  {
    RecordKnows(s);
    RecordInFlight(s);
    RecordEntries(s);
    RecordCalls(s);
    RecordOwned(s);
    RecordHistory(s);
    hide Owned, CallsOk, LiveDiffer, EntriesOk, HistoryOk, SubsOk, InFlightOk, TaskOk;
    var s' := DoBusRecord(s);
    forall t | 0 <= t < |s'.tasks| ensures TaskOk(s', t) { RecordTask(s, t); }
  }

  /** One open call changes; the history does not. */
  lemma HistoryKept(s: State, s': State, i: nat)
    requires HistoryOk(s) && i in s.calls && s.calls[i].Open() && i in s'.calls && s'.calls == s.calls[i := s'.calls[i]]
    requires s'.replied == s.replied && s'.returned == s.returned && s'.fired == s.fired && s'.sound == s.sound
    ensures HistoryOk(s')
  {
  }

  lemma RecordHistory(s: State)
    requires Inv(s) && Enabled(s, BusRecord)
    ensures HistoryOk(DoBusRecord(s)) && SubsOk(DoBusRecord(s)) && Configured(DoBusRecord(s))
  {
    RecordKnows(s);
    hide Owned, CallsOk, LiveDiffer, EntriesOk, InFlightOk, TasksOk, FlightOk, Flight, HistoryOk;
    HistoryKept(s, DoBusRecord(s), s.pool.msgs[s.tasks[0].handling.m].issue);
  }

  // ---- The bus matches a reply with a pending call

  lemma MatchKnows(s: State)
    requires Inv(s) && Enabled(s, BusMatch)
    ensures var id := s.tasks[0].handling.m;
            && Flight(s.tasks, id) == 1 && FlightOk(s, id)
            && var r := s.pool.msgs[id];
            && ReplyFlight(s, id, r) && CallOk(s, r.issue)
  {
    hide Owned, CallsOk, LiveDiffer, EntriesOk, HistoryOk, SubsOk, QueueOk, WaitOk, Flight;
    var id := s.tasks[0].handling.m;
    TakenFlight(s, 0, id);
    assert CallOk(s, s.pool.msgs[id].issue) by { CallAt(s, s.pool.msgs[id].issue); }
  }

  /** The entry with the reply's sequence number, if any, is the entry of the very call that was answered. */
  lemma MatchFinds(s: State)
    requires Inv(s) && Enabled(s, BusMatch)
    ensures var r := s.pool.msgs[s.tasks[0].handling.m];
            var found := FindEntry(s.pool, s.lists[r.major], r.seqno, 0);
            && r.issue in s.calls
            && (found.Some? <==> s.calls[r.issue].Wants())
            && (found.Some? ==> s.lists[r.major][found.value].issue == r.issue && EntryOk(s, r.major, found.value))
  {
    MatchKnows(s);
    hide Owned, CallsOk, HistoryOk, SubsOk, InFlightOk, TasksOk, Flight, FlightOk;
    var r := s.pool.msgs[s.tasks[0].handling.m];
    var i := r.issue;
    var found := FindEntry(s.pool, s.lists[r.major], r.seqno, 0);
    if found.Some? {
      var e := s.lists[r.major][found.value];
      assert EntryOk(s, r.major, found.value);
      SeqnoAt(s, e.issue);
    }
    if s.calls[i].Wants() {
      var k :| 0 <= k < |s.lists[r.major]| && s.lists[r.major][k].issue == i;
      assert EntryOk(s, r.major, k);
    }
  }

  lemma SeqnoAt(s: State, i: nat)
    requires Inv(s) && i in s.calls
    ensures s.calls[i].seqno == i % SEQUENCE_LIMIT
  {
    hide Owned, LiveDiffer, EntriesOk, HistoryOk, SubsOk, InFlightOk, TasksOk;
    assert CallOk(s, i);
  }

  /** A task after a match: its handling may have moved on, and its answer may have come. */
  function MatchedTask(task: Task, h: Handling, answered: bool, payload: int): Task {
    if answered then task.(handling := h, out := payload, callSem := task.callSem + 1) else task.(handling := h)
  }

  /** What matching reply id changes, call by call and task by task. */
  ghost predicate Matched(s: State, s': State, id: nat) {
    && id < |s.pool.msgs| && var r := s.pool.msgs[id];
    && r.major < |s.lists| && r.issue in s.calls && var c := s.calls[r.issue];
    && s'.calls == s.calls[r.issue := c.(phase := Closed)]
    && s'.pool == s.pool && s'.lists == s.lists && s'.subs == s.subs && s'.home == s.home
    && s'.sequence == s.sequence && s'.issued == s.issued && s'.replied == s.replied && s'.returned == s.returned
    && s'.fired == (if c.Wants() && !c.sync then s.fired + multiset{r.issue} else s.fired) && s'.sound == s.sound
    && |s'.tasks| == |s.tasks| && c.src < |s.tasks| && (s.sound && c.sync ==> c.src != 0)
    && |s.tasks| > 0 && s.tasks[0].handling == Fresh(id) && s.tasks[0].call.None?
    && (forall t :: 0 <= t < |s.tasks| ==> s'.tasks[t] == MatchedTask(s.tasks[t], s'.tasks[t].handling, c.sync && t == c.src, r.payload))
    && (forall t :: 0 < t < |s.tasks| ==> s'.tasks[t].handling == s.tasks[t].handling)
    && var h := s'.tasks[0].handling;
    && (if c.Wants() then h.Retiring? && h.m == id && h.major == r.major && h.k < |s.lists[r.major]|
                          && s.lists[r.major][h.k].issue == r.issue && s.lists[r.major][h.k].msg < |s.pool.msgs|
        else h == Busy(id))
  }

  /** The reply in hand and the entry it finds belong together. */
  ghost predicate Pairs(s: State, r: Message, found: Option<nat>) {
    && r.issue in s.calls && r.major < |s.lists| && CallOk(s, r.issue) && s.calls[r.issue].Open()
    && (found.Some? <==> s.calls[r.issue].Wants())
    && (found.Some? ==> found.value < |s.lists[r.major]| && s.lists[r.major][found.value].issue == r.issue
                        && EntryOk(s, r.major, found.value))
  }

  lemma MatchShape(s: State)
    requires Inv(s) && Enabled(s, BusMatch)
    ensures Matched(s, DoBusMatch(s), s.tasks[0].handling.m)
  {
    MatchKnows(s);
    MatchFinds(s);
    hide Inv, Matched, DoBusMatch, Flight, FlightOk, FindEntry;
    MatchedBy(s);
  }

  lemma MatchedBy(s: State)
    requires Enabled(s, BusMatch)
    requires var r := s.pool.msgs[s.tasks[0].handling.m]; Pairs(s, r, FindEntry(s.pool, s.lists[r.major], r.seqno, 0))
    ensures Matched(s, DoBusMatch(s), s.tasks[0].handling.m)
  {
    hide FindEntry, Settle;
    var id := s.tasks[0].handling.m;
    var r := s.pool.msgs[id];
    var found := FindEntry(s.pool, s.lists[r.major], r.seqno, 0);
    if found.Some? {
      var e := s.lists[r.major][found.value];
      var s1 := SetTask(s, 0, s.tasks[0].(handling := Retiring(id, r.major, found.value))).(calls := CloseCall(s.calls, e.issue));
      SettleTasks(s1, e, r.payload);
      hide Enabled;
    } else {
      hide Enabled;
    }
  }

  lemma SettleTasks(s: State, e: Pending, payload: int)
    requires e.msg < |s.pool.msgs|
    ensures var s' := Settle(s, e, payload);
            && s' == s.(tasks := s'.tasks, fired := s'.fired) && |s'.tasks| == |s.tasks|
            && s'.fired == (if e.sync then s.fired else s.fired + multiset{e.issue})
            && forall t :: 0 <= t < |s.tasks| ==>
                 s'.tasks[t] == MatchedTask(s.tasks[t], s.tasks[t].handling, e.sync && t == s.pool.msgs[e.msg].src, payload)
  {
  }

  lemma MatchFlight(s: State, s': State, id: nat, x: nat)
    requires Matched(s, s', id)
    ensures Flight(s'.tasks, x) + (if x == id then 1 else 0) == Flight(s.tasks, x)
  {
    var c := s.calls[s.pool.msgs[id].issue];
    var s1 := SetTask(s, 0, s'.tasks[0]);
    FlightUpdate(s.tasks, 0, s'.tasks[0], x);
    if c.sync {
      FlightUpdate(s1.tasks, c.src, s'.tasks[c.src], x);
      assert s'.tasks == s1.tasks[c.src := s'.tasks[c.src]];
    } else {
      assert s'.tasks == s1.tasks;
    }
  }

  /** No other message in flight belongs to the call that reply id answers. */
  lemma OnlyReply(s: State, id: nat, x: nat)
    requires FlightOk(s, id) && FlightOk(s, x) && x != id && s.pool.msgs[id].kind.CallReturn?
    ensures var m := s.pool.msgs[x]; m.kind.IsCall() || m.kind.CallReturn? ==> m.issue != s.pool.msgs[id].issue
  {
  }

  lemma MatchKept(s: State, s': State, id: nat)
    requires Matched(s, s', id)
    ensures id < |s.pool.msgs| && CallsKept(s, s', s.pool.msgs[id].issue) && s'.pool == s.pool && s'.home == s.home
  {
  }

  lemma MatchInFlight(s: State, s': State, id: nat)
    requires Inv(s) && Matched(s, s', id) && FlightOk(s, id) && s.pool.msgs[id].kind.CallReturn?
    ensures InFlightOk(s')
  {
    hide Inv, FlightOk, Flight, CallsKept, Matched;
    MatchKept(s, s', id);
    var i := s.pool.msgs[id].issue;
    forall x: nat ensures Flight(s'.tasks, x) <= 1 && (Flight(s'.tasks, x) == 1 ==> FlightOk(s', x)) {
      MatchFlight(s, s', id, x);
      FlyingOk(s, x);
      if x != id && Flight(s.tasks, x) == 1 {
        InRange(s, x);
        OnlyReply(s, id, x);
        OtherFlightKept(s, s', x, i);
      }
    }
  }

  lemma MatchTask(s: State, s': State, id: nat, t: nat)
    requires Matched(s, s', id) && FlightOk(s, id) && s.pool.msgs[id].kind.CallReturn? && t < |s.tasks| && TaskOk(s, t)
    requires CallOk(s, s.pool.msgs[id].issue)
    ensures TaskOk(s', t)
  {
    forall k | 0 <= k < |s'.tasks[t].queue| ensures PlacedOk(s', t, s'.tasks[t].queue[k]) {
      assert PlacedOk(s, t, s.tasks[t].queue[k]);
    }
  }

  lemma MatchEntries(s: State, s': State, id: nat)
    requires EntriesOk(s) && Matched(s, s', id)
    ensures EntriesOk(s')
  {
    var r, h := s.pool.msgs[id], s'.tasks[0].handling;
    forall g, k | 0 <= g < |s'.lists| && 0 <= k < |s'.lists[g]| ensures EntryOk(s', g, k) {
      assert EntryOk(s, g, k);
      if s.calls[r.issue].Wants() {
        assert EntryOk(s, r.major, h.k);
        if g == r.major && k != h.k {
          assert s.lists[g][if k < h.k then k else h.k].issue != s.lists[g][if k < h.k then h.k else k].issue;
        }
      }
    }
  }

  lemma MatchCalls(s: State, s': State, id: nat)
    requires Configured(s) && CallsOk(s) && LiveDiffer(s) && SubsOk(s) && Matched(s, s', id)
    ensures CallsOk(s') && LiveDiffer(s') && SubsOk(s') && Configured(s')
  {
    forall j | j in s'.calls ensures CallOk(s', j) {
      assert CallOk(s, j);
    }
  }

  lemma FiredOnce(s: State, fired: multiset<nat>, i: nat)
    requires HistoryOk(s) && i in s.calls && s.calls[i].Open() && fired == s.fired + multiset{i}
    ensures forall j :: j in fired ==> fired[j] == 1 && (j == i || j in s.fired)
  {
    forall j | j in fired ensures fired[j] == 1 && (j == i || j in s.fired) {
      assert fired[j] == s.fired[j] + (if j == i then 1 else 0);
    }
  }

  lemma MatchHistory(s: State, s': State, id: nat)
    requires HistoryOk(s) && Matched(s, s', id) && s.calls[s.pool.msgs[id].issue].Open() && s.pool.msgs[id].issue in s.replied
    ensures HistoryOk(s')
  {
    var i := s.pool.msgs[id].issue;
    if s.calls[i].Wants() && !s.calls[i].sync { FiredOnce(s, s'.fired, i); }
  }

  lemma MatchKeeps(s: State, e: Step)
    requires Inv(s) && e.BusMatch? && Enabled(s, e)
    ensures Inv(Next(s, e))
  {
    var s', id := DoBusMatch(s), s.tasks[0].handling.m;
    MatchOwned(s);
    MatchShape(s);
    MatchKnows(s);
    MatchInFlight(s, s', id);
    hide Owned, CallsOk, LiveDiffer, EntriesOk, HistoryOk, SubsOk, InFlightOk, TaskOk, Matched, FlightOk, CallOk, Flight, DoBusMatch;
    MatchEntries(s, s', id);
    MatchCalls(s, s', id);
    MatchHistory(s, s', id);
    SameLength(s, s', id);
    forall t | 0 <= t < |s'.tasks| ensures TaskOk(s', t) { MatchTask(s, s', id, t); }
  }

  lemma SameLength(s: State, s': State, id: nat)
    requires Matched(s, s', id)
    ensures |s'.tasks| == |s.tasks| && s'.sequence == s.sequence && s'.issued == s.issued
  {
  }

  // ---- The bus drops an entry

  lemma RetireFlight(s: State, x: nat)
    requires Enabled(s, BusRetire)
    ensures Flight(DoBusRetire(s).tasks, x) == Flight(s.tasks, x)
  {
    FlightUpdate(s.tasks, 0, DoBusRetire(s).tasks[0], x);
  }

  /** The message of an entry whose call is over is not in flight. */
  lemma RetiredNotFlying(s: State, g: nat, k: nat, x: nat)
    requires g < |s.lists| && k < |s.lists[g]| && EntryOk(s, g, k) && Retires(s.tasks[0].handling, g, k) && FlightOk(s, x)
    ensures x != s.lists[g][k].msg
  {
  }

  /** Lists, handling and the pool have changed; nothing about calls and waiting callers has. */
  ghost predicate Dropped(s: State, s': State, g: nat, k: nat) {
    && g < |s.lists| && k < |s.lists[g]| && s.lists[g][k].msg < |s.pool.msgs|
    && s'.lists == s.lists[g := s.lists[g][..k] + s.lists[g][k + 1..]]
    && s'.pool == Release(s.pool, s.lists[g][k].msg)
    && s'.home == s.home && s'.subs == s.subs && s'.sequence == s.sequence && s'.issued == s.issued
    && s'.calls == s.calls && s'.replied == s.replied && s'.returned == s.returned && s'.fired == s.fired
    && s'.sound == s.sound && |s.tasks| > 0 && Retires(s.tasks[0].handling, g, k)
    && s'.tasks == s.tasks[0 := s.tasks[0].(handling := Busy(s.tasks[0].handling.m))]
  }

  lemma DropFlight(s: State, s': State, g: nat, k: nat, x: nat)
    requires Dropped(s, s', g, k) && FlightOk(s, x) && EntryOk(s, g, k)
    ensures FlightOk(s', x)
  {
    RetiredNotFlying(s, g, k, x);
  }

  lemma DropTask(s: State, s': State, g: nat, k: nat, t: nat)
    requires Dropped(s, s', g, k) && t < |s.tasks| && TaskOk(s, t)
    ensures TaskOk(s', t)
  {
    forall j | 0 <= j < |s'.tasks[t].queue| ensures PlacedOk(s', t, s'.tasks[t].queue[j]) {
      assert PlacedOk(s, t, s.tasks[t].queue[j]);
    }
  }

  lemma DropEntries(s: State, s': State, g: nat, k: nat)
    requires EntriesOk(s) && Dropped(s, s', g, k)
    ensures EntriesOk(s')
  {
    forall g2, j | 0 <= g2 < |s'.lists| && 0 <= j < |s'.lists[g2]|
      ensures EntryOk(s', g2, j)
      ensures var j2 := if g2 == g && j >= k then j + 1 else j; j2 < |s.lists[g2]| && s'.lists[g2][j] == s.lists[g2][j2]
    {
      var j2 := if g2 == g && j >= k then j + 1 else j;
      assert EntryOk(s, g2, j2);
    }
  }

  lemma DropCalls(s: State, s': State, g: nat, k: nat)
    requires Configured(s) && CallsOk(s) && LiveDiffer(s) && SubsOk(s) && EntriesOk(s) && HistoryOk(s) && Dropped(s, s', g, k)
    ensures CallsOk(s') && LiveDiffer(s') && SubsOk(s') && HistoryOk(s') && Configured(s')
  {
    assert EntryOk(s, g, k);
    forall i | i in s'.calls ensures CallOk(s', i) {
      assert CallOk(s, i);
      if s.calls[i].Listed() { StillListed(s, s', g, k, i); }
    }
  }

  lemma StillListed(s: State, s': State, g: nat, k: nat, i: nat)
    requires Dropped(s, s', g, k) && i in s.calls && HasEntry(s, s.calls[i].major, i) && s.lists[g][k].issue != i
    ensures HasEntry(s', s.calls[i].major, i)
  {
    var g2 := s.calls[i].major;
    var j :| 0 <= j < |s.lists[g2]| && s.lists[g2][j].issue == i;
    var j2 := if g2 == g && j > k then j - 1 else j;
    assert s'.lists[g2][j2] == s.lists[g2][j];
  }

  lemma RetireShape(s: State)
    requires Enabled(s, BusRetire)
    ensures Dropped(s, DoBusRetire(s), s.tasks[0].handling.major, s.tasks[0].handling.k)
  {
  }

  lemma RetireKeeps(s: State, e: Step)
    requires Inv(s) && e.BusRetire? && Enabled(s, e)
    ensures Inv(Next(s, e))
  {
    var s', h := DoBusRetire(s), s.tasks[0].handling;
    RetireOwned(s);
    RetireShape(s);
    assert EntryOk(s, h.major, h.k);
    hide Owned, CallsOk, LiveDiffer, EntriesOk, HistoryOk, SubsOk, TaskOk, Dropped, FlightOk, CallOk, Flight, EntryOk;
    DropEntries(s, s', h.major, h.k);
    DropCalls(s, s', h.major, h.k);
    forall t | 0 <= t < |s'.tasks| ensures TaskOk(s', t) { DropTask(s, s', h.major, h.k, t); }
    forall x: nat ensures Flight(s'.tasks, x) <= 1 && (Flight(s'.tasks, x) == 1 ==> FlightOk(s', x)) {
      RetireFlight(s, x);
      if Flight(s.tasks, x) == 1 { DropFlight(s, s', h.major, h.k, x); }
    }
  }

  // ---- The bus broadcasts, subscribes

  /** Only what the bus is handling has changed. */
  ghost predicate Rehandled(s: State, s': State) {
    && |s.tasks| > 0 && !s.tasks[0].handling.Idle?
    && Quiet(s, s') && s'.pool == s.pool && s'.sequence == s.sequence && s'.issued == s.issued && s'.leaked == s.leaked
    && s'.tasks == s.tasks[0 := s.tasks[0].(handling := s'.tasks[0].handling)]
    && !s'.tasks[0].handling.Idle? && s'.tasks[0].handling.m == s.tasks[0].handling.m
    && !s.tasks[0].handling.Retiring? && !s'.tasks[0].handling.Retiring? && !s'.tasks[0].handling.Fresh?
    && HandlingOk(s', 0, s'.tasks[0].handling)
  }

  lemma RehandledFlight(s: State, s': State, x: nat)
    requires Rehandled(s, s')
    ensures Flight(s'.tasks, x) <= Flight(s.tasks, x)
  {
    FlightUpdate(s.tasks, 0, s'.tasks[0], x);
  }

  lemma RehandledOwned(s: State, s': State)
    requires Owned(s) && Rehandled(s, s')
    ensures Owned(s')
  {
    hide Owned;
    TaskMoveOwned(s, 0, s'.tasks[0], s');
  }

  lemma RehandledTask(s: State, s': State, t: nat)
    requires Rehandled(s, s') && t < |s.tasks| && TaskOk(s, t)
    ensures TaskOk(s', t)
  {
    QuietWaits(s, s', t);
    forall j | 0 <= j < |s'.tasks[t].queue| ensures PlacedOk(s', t, s'.tasks[t].queue[j]) {
      assert PlacedOk(s, t, s.tasks[t].queue[j]);
    }
  }

  lemma RehandledKeeps(s: State, s': State)
    requires Inv(s) && Rehandled(s, s')
    ensures Inv(s')
  {
    hide Owned, CallsOk, LiveDiffer, EntriesOk, HistoryOk, SubsOk, TaskOk, FlightOk, Flight, Quiet;
    RehandledOwned(s, s');
    QuietCalls(s, s');
    QuietEntries(s, s');
    forall t | 0 <= t < |s'.tasks| ensures TaskOk(s', t) { RehandledTask(s, s', t); }
    forall x: nat ensures Flight(s'.tasks, x) <= 1 && (Flight(s'.tasks, x) == 1 ==> FlightOk(s', x)) {
      RehandledFlight(s, s', x);
      if Flight(s.tasks, x) == 1 { InRange(s, x); QuietFlight(s, s', x); }
    }
  }

  lemma SignalKeeps(s: State, e: Step)
    requires Inv(s) && e.BusSignal? && Enabled(s, e)
    ensures Inv(Next(s, e))
  {
    var s', id := DoBusSignal(s), s.tasks[0].handling.m;
    assert FlightOk(s, id) by { TakenFlight(s, 0, id); }
    TaskWaits(s, 0);
    hide Owned, CallsOk, LiveDiffer, EntriesOk, HistoryOk, TasksOk, InFlightOk;
    assert Rehandled(s, s');
    RehandledKeeps(s, s');
  }

  lemma SubscribeKeeps(s: State, e: Step)
    requires Inv(s) && e.BusSubscribe? && Enabled(s, e)
    ensures Inv(Next(s, e))
  {
    var s', id := DoBusSubscribe(s), s.tasks[0].handling.m;
    var mid := SetTask(s, 0, s.tasks[0].(handling := Busy(id)));
    hide Owned, CallsOk, LiveDiffer, EntriesOk, HistoryOk, InFlightOk, TasksOk, SubsOk;
    assert Rehandled(s, mid);
    RehandledKeeps(s, mid);
    assert s' == mid.(subs := s'.subs);
    assert SubsOk(s') by { NewSubscriber(s, s.pool.msgs[id].major, s.pool.msgs[id].payload); }
    SubsChange(mid, s');
  }

  lemma NewSubscriber(s: State, g: nat, sub: int)
    requires SubsOk(s) && g < |s.subs| && 0 < sub < |s.home|
    ensures SubsOk(s.(subs := s.subs[g := s.subs[g] + [sub]]))
  {
  }

  /** Nothing else looks at the subscribers. */
  lemma SubsChange(s: State, s': State)
    requires Inv(s) && s' == s.(subs := s'.subs) && SubsOk(s') && |s'.subs| == |s.subs|
    ensures Inv(s')
  {
    assert Owned(s') by { hide Held; SameCountsOwned(s, s'); }
    hide Owned, Flight;
    forall t | 0 <= t < |s'.tasks| ensures TaskOk(s', t) {
      assert TaskOk(s, t);
      SubsChangeTask(s, s', t);
    }
    assert InFlightOk(s') by {
      forall x: nat ensures Flight(s'.tasks, x) <= 1 && (Flight(s'.tasks, x) == 1 ==> FlightOk(s', x)) {
        FlyingOk(s, x);
        if Flight(s.tasks, x) == 1 { OtherFlightKept(s, s', x, 0); }
      }
    }
    hide InFlightOk, TasksOk, FlightOk, CallsOk, EntriesOk, HistoryOk, LiveDiffer;
    SubsChangeRest(s, s');
  }

  lemma SubsChangeRest(s: State, s': State)
    requires CallsOk(s) && EntriesOk(s) && HistoryOk(s) && LiveDiffer(s) && s' == s.(subs := s'.subs)
    ensures CallsOk(s') && EntriesOk(s') && HistoryOk(s') && LiveDiffer(s')
  {
    forall i | i in s'.calls ensures CallOk(s', i) { assert CallOk(s, i); }
    forall g, k | 0 <= g < |s'.lists| && 0 <= k < |s'.lists[g]| ensures EntryOk(s', g, k) { assert EntryOk(s, g, k); }
  }

  lemma SubsChangeTask(s: State, s': State, t: nat)
    requires s' == s.(subs := s'.subs) && t < |s.tasks| && TaskOk(s, t)
    ensures TaskOk(s', t)
  {
    forall j | 0 <= j < |s'.tasks[t].queue| ensures PlacedOk(s', t, s'.tasks[t].queue[j]) {
      assert PlacedOk(s, t, s.tasks[t].queue[j]);
    }
  }

  lemma ReplicateKeeps(s: State, e: Step)
    requires Inv(s) && e.BusReplicate? && Enabled(s, e)
    ensures Inv(Next(s, e))
  {
    var s', id := DoBusReplicate(s), s.pool.free[0];
    var h := s.tasks[0].handling;
    var mid := SetTask(s, 0, s.tasks[0].(handling := Casting(h.m, h.left[1..])));
    TaskWaits(s, 0);
    hide Owned, CallsOk, LiveDiffer, EntriesOk, HistoryOk, InFlightOk, TasksOk, SubsOk;
    assert Rehandled(s, mid);
    RehandledKeeps(s, mid);
    ReplicateBuilds(s, mid);
    hide Inv, Rehandled, Built, Quiet, FlightOk, DoBusReplicate;
    QuietBuilt(mid, s', 0, s'.pool.msgs[id], None);
  }

  /** Once the list of subscribers left is shorter, the replica is a message like any other. */
  lemma ReplicateBuilds(s: State, mid: State)
    requires Enabled(s, BusReplicate) && Inv(mid) && HandlingOk(s, 0, s.tasks[0].handling)
    requires var h := s.tasks[0].handling; mid == SetTask(s, 0, s.tasks[0].(handling := Casting(h.m, h.left[1..])))
    ensures var s', id := DoBusReplicate(s), s.pool.free[0];
            && id < |s'.pool.msgs| && var m := s'.pool.msgs[id];
            && Built(mid, s', 0, m, None) && Quiet(mid, s') && FlightOk(s', id) && !m.kind.IsCall() && !m.kind.CallReturn?
            && s'.sequence == s'.issued % SEQUENCE_LIMIT
  {
    hide Owned, CallsOk, LiveDiffer, EntriesOk, HistoryOk, InFlightOk, TasksOk, SubsOk;
  }

  // ---- A service replies

  lemma ReplyBuilds(s: State, e: Step)
    requires Inv(s) && e.Reply? && Enabled(s, e)
    ensures var s', i, id := Next(s, e), e.issue, s.pool.free[0];
            var m, call := s'.pool.msgs[id], s'.tasks[e.t].call;
            && Built(s, s', e.t, m, call) && CallsKept(s, s', i) && StillOpen(s, s', i)
            && PhaseMoved(s, s', i) && RepliesKept(s, s', i) && s'.calls[i].phase.Answered?
            && FlightOk(s', id) && call == s.tasks[e.t].call
  {
    hide Owned, LiveDiffer, EntriesOk, Flight, InFlightOk, HistoryOk, SubsOk, TasksOk;
    assert CallOk(s, e.issue);
  }

  /** A call the service is working on has no message in flight. */
  lemma ReplyKeeps(s: State, e: Step)
    requires Inv(s) && e.Reply? && Enabled(s, e)
    ensures Inv(Next(s, e))
  {
    var s', i, id := Next(s, e), e.issue, s.pool.free[0];
    var m, call := s'.pool.msgs[id], s'.tasks[e.t].call;
    ReplyBuilds(s, e);
    hide Owned, InFlightOk, CallsOk, TasksOk, LiveDiffer, EntriesOk, HistoryOk, SubsOk, Built, CallsKept, StillOpen, FlightOk, WaitOk, PhaseMoved, RepliesKept;
    ServedNotFlying(s, i);
    MovedCalls(s, s', i);
    MovedHistory(s, s', i);
    TaskWaits(s, e.t);
    MovedWaits(s, s', i, e.t);
    BuiltOwned(s, s', e.t, m, call);
    BuiltInFlight(s, s', e.t, m, call, i);
    BuiltTasks(s, s', e.t, m, call, i);
    BuiltEntries(s, s', e.t, m, call, i);
  }

  // ---- A handler finishes, or gives up

  lemma IdleFlight(s: State, t: nat, task: Task, x: nat)
    requires t < |s.tasks| && task == s.tasks[t].(handling := Idle) && !s.tasks[t].handling.Fresh?
    ensures Flight(s.tasks[t := task], x) == Flight(s.tasks, x)
  {
    FlightUpdate(s.tasks, t, task, x);
  }

  /** A message that is both handled and in flight has two owners, so letting go of it frees nothing. */
  lemma FinishFlight(s: State, t: nat, x: nat)
    requires Inv(s) && Enabled(s, Finish(t)) && Flight(s.tasks, x) == 1 && FlightOk(s, x)
    ensures FlightOk(DoFinish(s, t), x)
  {
    hide CallsOk, TasksOk, LiveDiffer, EntriesOk, HistoryOk, SubsOk, InFlightOk;
    var id := s.tasks[t].handling.m;
    if x == id {
      assert OwnedRight(s.pool, Holders(s), id);
      TwoPlaces(s, t);
      HandledCounts(s.tasks[t]);
      TaskHolds(s, t, id);
    }
  }

  lemma {:induction false} TwoPlacesIn(tasks: seq<Task>, t: nat, x: nat)
    requires t < |tasks| && !tasks[t].handling.Idle? && !tasks[t].handling.Fresh? && tasks[t].handling.m == x
    ensures Flight(tasks, x) + 1 <= TasksCount(tasks, x)
  {
    if t > 0 {
      TwoPlacesIn(tasks[1..], t - 1, x);
    } else {
      FlightHeld(tasks[1..], x);
    }
  }

  lemma TwoPlaces(s: State, t: nat)
    requires t < |s.tasks| && !s.tasks[t].handling.Idle? && !s.tasks[t].handling.Fresh?
    ensures Flight(s.tasks, s.tasks[t].handling.m) + 1 <= Held(s, s.tasks[t].handling.m)
  {
    TwoPlacesIn(s.tasks, t, s.tasks[t].handling.m);
  }

  lemma FinishTask(s: State, t: nat, t2: nat)
    requires Inv(s) && Enabled(s, Finish(t)) && t2 < |s.tasks|
    ensures TaskOk(DoFinish(s, t), t2)
  {
    hide Owned, CallsOk, LiveDiffer, EntriesOk, HistoryOk, SubsOk, InFlightOk, WaitOk;
    var s' := DoFinish(s, t);
    assert Quiet(s, s');
    TaskWaits(s, t2);
    QuietWaits(s, s', t2);
    forall j | 0 <= j < |s'.tasks[t2].queue| ensures PlacedOk(s', t2, s'.tasks[t2].queue[j]) {
      assert PlacedOk(s, t2, s.tasks[t2].queue[j]);
    }
  }

  lemma FinishShape(s: State, t: nat)
    requires Enabled(s, Finish(t))
    ensures Quiet(s, DoFinish(s, t)) && |DoFinish(s, t).pool.msgs| == |s.pool.msgs|
    ensures forall x :: 0 <= x < |s.pool.msgs| ==> SameCall(DoFinish(s, t).pool.msgs[x], s.pool.msgs[x])
  {
  }

  lemma FinishKeeps(s: State, e: Step)
    requires Inv(s) && e.Finish? && Enabled(s, e)
    ensures Inv(Next(s, e))
  {
    var s' := DoFinish(s, e.t);
    FinishOwned(s, e.t);
    FinishShape(s, e.t);
    hide Owned, CallsOk, LiveDiffer, EntriesOk, HistoryOk, SubsOk, TaskOk, FlightOk, Flight, Quiet, Release;
    QuietCalls(s, s');
    QuietEntries(s, s');
    forall t | 0 <= t < |s'.tasks| ensures TaskOk(s', t) { FinishTask(s, e.t, t); }
    forall x: nat ensures Flight(s'.tasks, x) <= 1 && (Flight(s'.tasks, x) == 1 ==> FlightOk(s', x)) {
      IdleFlight(s, e.t, s'.tasks[e.t], x);
      if Flight(s.tasks, x) == 1 { FinishFlight(s, e.t, x); }
    }
  }

  lemma AbandonTask(s: State, t: nat, t2: nat)
    requires Inv(s) && Enabled(s, Abandon(t)) && t2 < |s.tasks|
    ensures TaskOk(LetGo(s, t), t2)
  {
    hide Owned, CallsOk, LiveDiffer, EntriesOk, HistoryOk, SubsOk, InFlightOk, WaitOk;
    var s' := LetGo(s, t);
    assert Quiet(s, s');
    TaskWaits(s, t2);
    QuietWaits(s, s', t2);
    forall j | 0 <= j < |s'.tasks[t2].queue| ensures PlacedOk(s', t2, s'.tasks[t2].queue[j]) {
      assert PlacedOk(s, t2, s.tasks[t2].queue[j]);
    }
  }

  lemma AbandonShape(s: State, t: nat)
    requires Enabled(s, Abandon(t))
    ensures Quiet(s, LetGo(s, t)) && LetGo(s, t).pool == s.pool
  {
  }

  lemma LetGoKeeps(s: State, e: Step)
    requires Inv(s) && e.Abandon? && Enabled(s, e)
    ensures Inv(LetGo(s, e.t))
  {
    var s' := LetGo(s, e.t);
    AbandonOwned(s, e.t);
    AbandonShape(s, e.t);
    hide Owned, CallsOk, LiveDiffer, EntriesOk, HistoryOk, SubsOk, TaskOk, FlightOk, Flight, Quiet;
    QuietCalls(s, s');
    QuietEntries(s, s');
    forall t | 0 <= t < |s'.tasks| ensures TaskOk(s', t) { AbandonTask(s, e.t, t); }
    forall x: nat ensures Flight(s'.tasks, x) <= 1 && (Flight(s'.tasks, x) == 1 ==> FlightOk(s', x)) {
      IdleFlight(s, e.t, s'.tasks[e.t], x);
      if Flight(s.tasks, x) == 1 { InRange(s, x); QuietFlight(s, s', x); }
    }
  }

  // ---- A caller wakes

  lemma WakeFlight(s: State, t: nat, x: nat)
    requires Enabled(s, Wake(t))
    ensures Flight(DoWake(s, t).tasks, x) == Flight(s.tasks, x)
  {
    FlightUpdate(s.tasks, t, DoWake(s, t).tasks[t], x);
  }

  lemma WakeTask(s: State, t: nat, t2: nat)
    requires Inv(s) && Enabled(s, Wake(t)) && t2 < |s.tasks|
    ensures TaskOk(DoWake(s, t), t2)
  {
    hide Owned, CallsOk, LiveDiffer, EntriesOk, HistoryOk, SubsOk, InFlightOk;
    var s' := DoWake(s, t);
    TaskWaits(s, t2);
    forall j | 0 <= j < |s'.tasks[t2].queue| ensures PlacedOk(s', t2, s'.tasks[t2].queue[j]) {
      assert PlacedOk(s, t2, s.tasks[t2].queue[j]);
    }
  }

  lemma WakeCalls(s: State, t: nat)
    requires Inv(s) && Enabled(s, Wake(t))
    ensures CallsOk(DoWake(s, t)) && LiveDiffer(DoWake(s, t)) && HistoryOk(DoWake(s, t))
  {
    hide Owned, EntriesOk, SubsOk, InFlightOk, HistoryOk, CallsOk, LiveDiffer, WaitOk, HandlingOk, QueueOk;
    TaskWaits(s, t);
    hide Inv, DoWake;
    WakeHistory(s, t);
    WakeCallsOk(s, t);
  }

  lemma WakeCallsOk(s: State, t: nat)
    requires Enabled(s, Wake(t)) && CallsOk(s) && LiveDiffer(s) && WaitOk(s, t, s.tasks[t])
    ensures CallsOk(DoWake(s, t)) && LiveDiffer(DoWake(s, t))
  {
    var s' := DoWake(s, t);
    forall i | i in s'.calls ensures CallOk(s', i) { assert CallOk(s, i); }
  }

  lemma WakeHistory(s: State, t: nat)
    requires HistoryOk(s) && Enabled(s, Wake(t)) && WaitOk(s, t, s.tasks[t])
    ensures HistoryOk(DoWake(s, t))
  {
  }

  lemma WakeEntries(s: State, t: nat)
    requires EntriesOk(s) && Enabled(s, Wake(t))
    ensures EntriesOk(DoWake(s, t))
  {
    var s' := DoWake(s, t);
    forall g, k | 0 <= g < |s'.lists| && 0 <= k < |s'.lists[g]| ensures EntryOk(s', g, k) { assert EntryOk(s, g, k); }
  }

  lemma WakeOwned(s: State, t: nat)
    requires Owned(s) && Enabled(s, Wake(t))
    ensures Owned(DoWake(s, t))
  {
    hide Owned;
    TaskMoveOwned(s, t, DoWake(s, t).tasks[t], DoWake(s, t));
  }

  lemma WakeShape(s: State, t: nat)
    requires Enabled(s, Wake(t)) && SubsOk(s)
    ensures var s' := DoWake(s, t);
            && CallsKept(s, s', 0) && s'.pool == s.pool && s'.home == s.home && |s'.tasks| == |s.tasks|
            && s'.sequence == s.sequence && s'.issued == s.issued && Configured(s') && SubsOk(s')
  {
  }

  lemma WakeKeeps(s: State, e: Step)
    requires Inv(s) && e.Wake? && Enabled(s, e)
    ensures Inv(Next(s, e))
  {
    var s' := DoWake(s, e.t);
    WakeOwned(s, e.t);
    WakeCalls(s, e.t);
    WakeEntries(s, e.t);
    WakeShape(s, e.t);
    hide Owned, CallsOk, LiveDiffer, EntriesOk, HistoryOk, TaskOk, FlightOk, Flight, SubsOk, CallsKept, DoWake;
    forall t | 0 <= t < |s'.tasks| ensures TaskOk(s', t) { WakeTask(s, e.t, t); }
    forall x: nat ensures Flight(s'.tasks, x) <= 1 && (Flight(s'.tasks, x) == 1 ==> FlightOk(s', x)) {
      WakeFlight(s, e.t, x);
      if Flight(s.tasks, x) == 1 { InRange(s, x); OtherFlightKept(s, s', x, 0); }
    }
  }

  // ---- A call is lost

  /** s with call i lost: a call without an entry and without a message in flight. */
  ghost predicate Loses(s: State, s': State, i: nat) {
    && i in s.calls && s.calls[i].Open() && (s.calls[i].phase.Requested? || !s.calls[i].Wants())
    && NoFlightOf(s, i) && s' == s.(calls := SetPhase(s.calls, i, Lost))
  }

  lemma LosesShape(s: State, s': State, i: nat)
    requires Loses(s, s', i)
    ensures CallsKept(s, s', i) && StillOpen(s, s', i)
    ensures s'.pool == s.pool && s'.tasks == s.tasks && s'.home == s.home && s'.lists == s.lists
    ensures s'.subs == s.subs && s'.leaked == s.leaked
  {
  }

  lemma LosesCalls(s: State, s': State, i: nat)
    requires CallsOk(s) && LiveDiffer(s) && Loses(s, s', i)
    ensures CallsOk(s') && LiveDiffer(s')
  {
    forall j | j in s'.calls ensures CallOk(s', j) {
      assert CallOk(s, j);
      assert HasEntry(s, s.calls[j].major, j) ==> HasEntry(s', s.calls[j].major, j);
    }
  }

  lemma LosesEntries(s: State, s': State, i: nat)
    requires EntriesOk(s) && Loses(s, s', i)
    ensures EntriesOk(s')
  {
    hide NoFlightOf;
    forall g, k | 0 <= g < |s'.lists| && 0 <= k < |s'.lists[g]| ensures EntryOk(s', g, k) { assert EntryOk(s, g, k); }
  }

  lemma LosesInFlight(s: State, s': State, i: nat)
    requires InFlightOk(s) && Loses(s, s', i)
    ensures InFlightOk(s')
  {
    LosesShape(s, s', i);
    hide FlightOk, Flight, CallsKept;
    forall x: nat ensures Flight(s'.tasks, x) <= 1 && (Flight(s'.tasks, x) == 1 ==> FlightOk(s', x)) {
      if Flight(s.tasks, x) == 1 {
        InRange(s, x);
        OtherFlightKept(s, s', x, i);
      }
    }
  }

  lemma LosesTasks(s: State, s': State, i: nat)
    requires TasksOk(s) && Loses(s, s', i)
    ensures TasksOk(s')
  {
    LosesShape(s, s', i);
    hide Loses, CallsKept, StillOpen, WaitOk, HandlingOk, QueueOk;
    forall t | 0 <= t < |s'.tasks| ensures TaskOk(s', t) {
      assert TaskOk(s, t);
      OthersWait(s, s', t, s.tasks[t], i);
      SameHandling(s, s', t);
    }
  }

  lemma LosesOwned(s: State, s': State, i: nat)
    requires Owned(s) && Loses(s, s', i)
    ensures Owned(s')
  {
    LosesShape(s, s', i);
    hide Owned, Loses, CallsKept, StillOpen;
    SameCountsOwned(s, s');
  }

  lemma LosesKeeps(s: State, s': State, i: nat)
    requires Inv(s) && Loses(s, s', i)
    ensures Inv(s')
  {
    hide Owned, CallsOk, LiveDiffer, EntriesOk, HistoryOk, InFlightOk, TasksOk, NoFlightOf;
    LosesOwned(s, s', i);
    LosesInFlight(s, s', i);
    LosesTasks(s, s', i);
    LosesCalls(s, s', i);
    LosesEntries(s, s', i);
    HistoryKept(s, s', i);
  }

  /** What a task has in hand is in flight nowhere once it was dropped. */
  lemma DroppedNotFlying(s: State, t: nat)
    requires InFlightOk(s) && Enabled(s, Post(t)) && !Accepts(s, t)
    ensures Flight(Deliver(s, t).tasks, s.tasks[t].held.value) == 0
  {
    var id := s.tasks[t].held.value;
    TakenFlight(s, t, id);
    FlightUpdate(s.tasks, t, s.tasks[t].(held := None), id);
  }

  lemma DroppedLeavesNoFlight(s: State, t: nat)
    requires InFlightOk(s) && Enabled(s, Post(t)) && !Accepts(s, t)
    requires var m := s.pool.msgs[s.tasks[t].held.value]; m.kind.IsCall() || m.kind.CallReturn?
    ensures NoFlightOf(Deliver(s, t), s.pool.msgs[s.tasks[t].held.value].issue)
  {
    var s1, id := Deliver(s, t), s.tasks[t].held.value;
    DroppedNotFlying(s, t);
    TakenFlight(s, t, id);
    hide Flight, FlightOk, DoPost, Deliver;
    assert s1.pool == s.pool by { PostQuiet(s, t); }
    forall x: nat | Flight(s1.tasks, x) == 1 && x < |s1.pool.msgs|
      ensures var y := s1.pool.msgs[x]; y.kind.IsCall() || y.kind.CallReturn? ==> y.issue != s.pool.msgs[id].issue
    {
      PostFlight(s, t, x);
      assert FlightOk(s, x);
      InRange(s, x);
      if s.pool.msgs[x].kind.IsCall() || s.pool.msgs[x].kind.CallReturn? { OneFlightPerCall(s, id, x); }
    }
  }

  /** Two messages in flight do not belong to the same call. */
  lemma OneFlightPerCall(s: State, a: nat, b: nat)
    requires FlightOk(s, a) && FlightOk(s, b) && a != b
    requires s.pool.msgs[a].kind.IsCall() || s.pool.msgs[a].kind.CallReturn?
    requires s.pool.msgs[b].kind.IsCall() || s.pool.msgs[b].kind.CallReturn?
    ensures s.pool.msgs[a].issue != s.pool.msgs[b].issue
  {
  }

  lemma PostKeeps(s: State, e: Step)
    requires Inv(s) && e.Post? && Enabled(s, e)
    ensures Inv(Next(s, e))
  {
    hide Inv, NoFlightOf, Deliver;
    DeliverKeeps(s, e);
    var m, s1 := s.pool.msgs[s.tasks[e.t].held.value], Deliver(s, e.t);
    if !Accepts(s, e.t) && (m.kind.IsCall() || m.kind.CallReturn?) && DoPost(s, e.t) != s1 {
      FlightsInOrder(s);
      DroppedLeavesNoFlight(s, e.t);
      LosesKeeps(s1, DoPost(s, e.t), m.issue);
    }
  }

  lemma FlightsInOrder(s: State)
    requires Inv(s)
    ensures InFlightOk(s)
  {
  }

  lemma AbandonKeeps(s: State, e: Step)
    requires Inv(s) && e.Abandon? && Enabled(s, e)
    ensures Inv(Next(s, e))
  {
    hide Inv, NoFlightOf;
    LetGoKeeps(s, e);
    var s1, i := LetGo(s, e.t), s.pool.msgs[s.tasks[e.t].handling.m].issue;
    if DoAbandon(s, e.t) != s1 {
      FlightsInOrder(s1);
      ServedNotFlying(s1, i);
      LosesKeeps(s1, DoAbandon(s, e.t), i);
    }
  }

  // ---- All steps

  /** Every step keeps the invariant. */
  lemma StepKeeps(s: State, e: Step)
    requires Inv(s) && Enabled(s, e)
    ensures Inv(Next(s, e))
  {
    hide Inv, Enabled, Next;
    match e {
      case IssueCall(_, _, _, _, _) => IssueCallKeeps(s, e);
      case IssueFails(_) => IssueFailsKeeps(s, e);
      case IssueSignal(_, _, _, _, _) => IssueSignalKeeps(s, e);
      case Post(_) => PostKeeps(s, e);
      case Receive(_) => ReceiveKeeps(s, e);
      case BusRecord => RecordKeeps(s, e);
      case BusMatch => MatchKeeps(s, e);
      case BusRetire => RetireKeeps(s, e);
      case BusSignal => SignalKeeps(s, e);
      case BusReplicate => ReplicateKeeps(s, e);
      case BusSubscribe => SubscribeKeeps(s, e);
      case Reply(_, _, _) => ReplyKeeps(s, e);
      case Finish(_) => FinishKeeps(s, e);
      case Abandon(_) => AbandonKeeps(s, e);
      case Wake(_) => WakeKeeps(s, e);
    }
  }

  lemma ReceiveKeeps(s: State, e: Step)
    requires Inv(s) && e.Receive? && Enabled(s, e)
    ensures Inv(Next(s, e))
  {
    hide Inv;
    var m := s.pool.msgs[s.tasks[e.t].queue[0]];
    if m.dst == 0 || !m.kind.IsCall() {
      ReceiveKeepsQuiet(s, e.t);
    } else {
      ReceiveKeepsCall(s, e.t);
    }
  }
}
