/** What every step of the bus protocol keeps about calls, replies and waiting callers. */
module BusCalls {
  import opened Options
  import opened MessagePool
  import opened Bus
  import opened BusOwnership

  // ---- Messages in flight: built, queued, or just taken up by the bus

  ghost function FlightCount(t: Task, x: nat): nat {
    Occ(t.queue, x) + (if t.held == Some(x) then 1 else 0) + (if t.handling == Fresh(x) then 1 else 0)
  }

  ghost function Flight(tasks: seq<Task>, x: nat): nat {
    if tasks == [] then 0 else FlightCount(tasks[0], x) + Flight(tasks[1..], x)
  }

  lemma {:induction false} FlightUpdate(tasks: seq<Task>, t: nat, task: Task, x: nat)
    requires t < |tasks|
    ensures Flight(tasks[t := task], x) + FlightCount(tasks[t], x) == Flight(tasks, x) + FlightCount(task, x)
  {
    if t == 0 {
      assert tasks[0 := task][1..] == tasks[1..];
    } else {
      assert tasks[t := task][1..] == tasks[1..][t - 1 := task];
      FlightUpdate(tasks[1..], t - 1, task, x);
    }
  }

  lemma {:induction false} FlightHeld(tasks: seq<Task>, x: nat)
    ensures Flight(tasks, x) <= TasksCount(tasks, x)
  {
    if tasks != [] { FlightHeld(tasks[1..], x); }
  }

  lemma {:induction false} FlightAtMost(tasks: seq<Task>, t: nat, x: nat)
    requires t < |tasks|
    ensures FlightCount(tasks[t], x) <= Flight(tasks, x)
  {
    if t > 0 { FlightAtMost(tasks[1..], t - 1, x); }
  }

  // ---- The invariant, part by part

  /** A call message in flight: a request on its way to the bus, or a call on its way to the service. */
  ghost predicate CallFlight(s: State, x: nat, m: Message) {
    && m.issue in s.calls && var c := s.calls[m.issue];
    && c.msg == x && c.src == m.src && c.major == m.major && c.seqno == m.seqno
    && c.sync == m.kind.SyncCall? && c.notify == m.pn
    && (if m.dst == 0 then c.phase.Requested? && m.ref == 1 else c.phase.Recorded? && m.dst == m.major)
  }

  /** A reply in flight is the one answer of a call that is still open. */
  ghost predicate ReplyFlight(s: State, x: nat, m: Message) {
    && m.dst == 0 && m.issue in s.calls && var c := s.calls[m.issue];
    && c.phase == Answered(x) && c.seqno == m.seqno && c.major == m.major
    && m.issue in s.replied && s.replied[m.issue] == m.payload
  }

  ghost predicate FlightOk(s: State, x: nat) {
    && x < |s.pool.msgs| && var m := s.pool.msgs[x];
    && m.dst < |s.home| && m.major < |s.home|
    && (m.kind.IsCall() ==> CallFlight(s, x, m))
    && (m.kind.CallReturn? ==> ReplyFlight(s, x, m))
    && (m.kind.Signal? || m.kind.Subscribe? ==> m.dst == 0 ==> m.ref == 0)
    && (m.kind.Subscribe? ==> m.dst == 0 && 0 < m.payload < |s.home|)
  }

  ghost predicate InFlightOk(s: State) {
    forall x: nat :: Flight(s.tasks, x) <= 1 && (Flight(s.tasks, x) == 1 ==> FlightOk(s, x))
  }

  /** A queue holds messages for segments of its task only. */
  ghost predicate QueueOk(s: State, t: nat)
    requires t < |s.tasks|
  {
    forall k :: 0 <= k < |s.tasks[t].queue| ==> PlacedOk(s, t, s.tasks[t].queue[k])
  }

  ghost predicate PlacedOk(s: State, t: nat, id: nat) {
    id < |s.pool.msgs| && s.pool.msgs[id].dst < |s.home| && s.home[s.pool.msgs[id].dst] == t
  }

  /** What a caller waits for: no token while the call is open, one token and the reply once it is closed. */
  ghost predicate WaitOk(s: State, t: nat, task: Task) {
    s.sound ==>
    match task.call
    case None => task.callSem == 0
    case Some(i) =>
      && i in s.calls && s.calls[i].sync && s.calls[i].src == t
      && (if s.calls[i].Open() then task.callSem == 0
          else task.callSem == 1 && i in s.replied && task.out == s.replied[i])
  }

  ghost predicate HandlingOk(s: State, t: nat, h: Handling) {
    && (h.Fresh? || h.Retiring? || h.Casting? ==> t == 0)
    && (h.Fresh? ==> h.m < |s.pool.msgs| && s.pool.msgs[h.m].dst == 0)
    && (h.Retiring? ==> RetiresEntry(s, h))
    && (h.Casting? ==> h.m < |s.pool.msgs| && s.pool.msgs[h.m].kind.Signal? && s.pool.msgs[h.m].ref == 0
                       && s.pool.msgs[h.m].major < |s.home|
                       && forall j :: 0 <= j < |h.left| ==> 0 < h.left[j] < |s.home|)
  }

  ghost predicate TaskOk(s: State, t: nat)
    requires t < |s.tasks|
  {
    WaitOk(s, t, s.tasks[t]) && HandlingOk(s, t, s.tasks[t].handling) && QueueOk(s, t)
  }

  ghost predicate TasksOk(s: State) { forall t :: 0 <= t < |s.tasks| ==> TaskOk(s, t) }

  ghost predicate HasEntry(s: State, g: nat, i: nat) {
    g < |s.lists| && exists k :: 0 <= k < |s.lists[g]| && s.lists[g][k].issue == i
  }

  ghost predicate CallOk(s: State, i: nat)
    requires i in s.calls
  {
    var c := s.calls[i];
    && 1 <= i <= s.issued && c.seqno == i % SEQUENCE_LIMIT
    && c.src < |s.tasks| && 0 < c.major < |s.home|
    && (s.sound && c.sync && c.Open() ==> s.tasks[c.src].call == Some(i))
    && (c.Listed() ==> HasEntry(s, c.major, i))
    && (c.phase.Requested? || c.phase.Recorded? || c.phase.Serving? ==> i !in s.replied)
  }

  ghost predicate CallsOk(s: State) { forall i :: i in s.calls ==> CallOk(s, i) }

  /** Calls that can still be matched have different sequence numbers. */
  ghost predicate LiveDiffer(s: State) {
    forall i, j :: i in s.calls && j in s.calls && s.calls[i].Live() && s.calls[j].Live() && i != j
      ==> i % SEQUENCE_LIMIT != j % SEQUENCE_LIMIT
  }

  ghost predicate EntryOk(s: State, g: nat, k: nat)
    requires g < |s.lists| && k < |s.lists[g]|
  {
    var e := s.lists[g][k];
    && e.issue in s.calls && e.msg < |s.pool.msgs|
    && var c, m := s.calls[e.issue], s.pool.msgs[e.msg];
    && c.major == g && c.msg == e.msg && c.sync == e.sync && c.Wants() && !c.phase.Requested? && !c.phase.Lost?
    && m.issue == e.issue && m.seqno == c.seqno && m.src == c.src && m.kind.IsCall()
    && |s.tasks| > 0 && (c.Open() <==> !Retires(s.tasks[0].handling, g, k))
  }

  /** This is the entry the bus is about to drop. */
  predicate Retires(h: Handling, g: nat, k: nat) { h.Retiring? && h.major == g && h.k == k }

  ghost predicate EntriesOk(s: State) {
    && (forall g, k :: 0 <= g < |s.lists| && 0 <= k < |s.lists[g]| ==> EntryOk(s, g, k))
    && (forall g, k, j :: 0 <= g < |s.lists| && 0 <= k < j < |s.lists[g]| ==> s.lists[g][k].issue != s.lists[g][j].issue)
  }

  /** Subscribers are segments other than the bus. */
  ghost predicate SubsOk(s: State) {
    forall g, j :: 0 <= g < |s.subs| && 0 <= j < |s.subs[g]| ==> 0 < s.subs[g][j] < |s.home|
  }

  /** What callers got is what services replied to that call; no notifier has fired twice. */
  ghost predicate HistoryOk(s: State) {
    && (forall i :: i in s.replied ==> i in s.calls)
    && (s.sound ==> forall i :: i in s.returned ==> i in s.calls && !s.calls[i].Open() && i in s.replied && s.returned[i] == s.replied[i])
    && (forall i :: i in s.fired ==> s.fired[i] == 1 && i in s.calls && !s.calls[i].Open() && !s.calls[i].sync && i in s.replied)
  }

  ghost predicate Inv(s: State) {
    && Configured(s) && Owned(s) && s.sequence == s.issued % SEQUENCE_LIMIT
    && InFlightOk(s) && TasksOk(s) && CallsOk(s) && LiveDiffer(s) && EntriesOk(s) && SubsOk(s) && HistoryOk(s)
  }
}
