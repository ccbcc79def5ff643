/**
 * Runs of the bus protocol, and what follows from its invariant. BusLookPool and BusLookProofs carry it over to
 * the runs with looks after posting.
 */
module BusTheorems {
  import opened Options
  import opened MessagePool
  import opened Bus
  import opened BusOwnership
  import opened BusCalls
  import opened BusSteps

  // ---- Every reachable state

  lemma {:induction false} InitCounts(tasks: seq<Task>, x: nat)
    requires forall t :: 0 <= t < |tasks| ==> tasks[t] == Task([], None, Idle, None, 0, tasks[t].out)
    ensures TasksCount(tasks, x) == 0 && Flight(tasks, x) == 0
  {
    if tasks != [] { InitCounts(tasks[1..], x); }
  }

  lemma {:induction false} EmptyLists(lists: seq<seq<Pending>>, x: nat)
    requires forall g :: 0 <= g < |lists| ==> lists[g] == []
    ensures ListsCount(lists, x) == 0
  {
    if lists != [] { EmptyLists(lists[1..], x); }
  }

  lemma InitOwned(s: State)
    requires Init(s)
    ensures Owned(s)
  {
    forall x: nat ensures Held(s, x) == 0 {
      InitCounts(s.tasks, x);
      EmptyLists(s.lists, x);
    }
    hide Held;
    forall id | 0 <= id < |s.pool.msgs| ensures OwnedRight(s.pool, Holders(s), id) {
      assert OwnedRight(s.pool, Nobody(), id);
    }
  }

  lemma InitInv(s: State)
    requires Init(s)
    ensures Inv(s)
  {
    InitOwned(s);
    hide Owned;
    forall x: nat ensures Flight(s.tasks, x) == 0 { InitCounts(s.tasks, x); }
  }

  lemma {:induction false} RunInv(states: seq<State>, steps: seq<Step>, n: nat)
    requires Run(states, steps) && n < |states|
    ensures Inv(states[n]) && states[n].sound
  {
    if n == 0 {
      InitInv(states[0]);
    } else {
      RunInv(states, steps, n - 1);
      StepKeeps(states[n - 1], steps[n - 1]);
      StillSound(states[n - 1], steps[n - 1]);
    }
  }

  lemma StillSound(s: State, e: Step)
    requires Enabled(s, e)
    ensures Next(s, e).sound == s.sound
  {
    hide DoBusMatch, DoPost;
    if e.BusMatch? { InHand(s, e); MatchTouches(s); }
    if e.Post? { PostedPool(s, e.t); }
  }

  lemma StepOf(states: seq<State>, steps: seq<Step>, n: nat)
    requires Run(states, steps) && n + 1 < |states|
    ensures n < |steps| && Enabled(states[n], steps[n]) && states[n + 1] == Next(states[n], steps[n])
  {
  }

  // ---- Synchronous calls

  /**
   * The caller of a synchronous entry is inside that call, without a token, exactly while the entry is not
   * the one the bus is just dropping.
   */
  ghost predicate InsideUnlessDropped(s: State, g: nat, k: nat)
    requires g < |s.lists| && k < |s.lists[g]|
  {
    var e := s.lists[g][k];
    && e.msg < |s.pool.msgs| && s.pool.msgs[e.msg].src < |s.tasks| && |s.tasks| > 0
    && var caller := s.tasks[s.pool.msgs[e.msg].src];
    && (!Retires(s.tasks[0].handling, g, k) <==> caller.call == Some(e.issue) && caller.callSem == 0)
    && e.msg !in s.pool.free
  }

  lemma PendingInside(s: State, g: nat, k: nat)
    requires Inv(s) && s.sound && g < |s.lists| && k < |s.lists[g]| && s.lists[g][k].sync
    ensures InsideUnlessDropped(s, g, k)
  {
    assert EntryOk(s, g, k);
    EntryHolds(s, g, k);
    hide Owned;
    assert CallOk(s, s.lists[g][k].issue);
    assert TaskOk(s, s.pool.msgs[s.lists[g][k].msg].src);
  }

  /** A task inside a call has nothing to post but that call. */
  ghost predicate HandOk(s: State, t: nat)
    requires t < |s.tasks|
  {
    s.tasks[t].call.Some? && s.tasks[t].held.Some? ==>
      && s.tasks[t].held.value < |s.pool.msgs|
      && s.pool.msgs[s.tasks[t].held.value].kind.IsCall()
      && s.pool.msgs[s.tasks[t].held.value].issue == s.tasks[t].call.value
  }

  lemma HandStays(s: State, e: Step, t: nat)
    requires Enabled(s, e) && t < |s.tasks| && HandOk(s, t)
    requires s.tasks[t].held.Some? ==> s.tasks[t].held.value !in s.pool.free
    ensures |Next(s, e).tasks| == |s.tasks| && HandOk(Next(s, e), t)
  {
    hide *;
    match e {
      case BusMatch => HandsMatched(s, t);
      case BusRecord => HandsRecorded(s, t);
      case Post(p) => HandsPost(s, p, t);
      case IssueCall(_, _, _, _, _) => HandsBuilt(s, e, t);
      case IssueSignal(_, _, _, _, _) => HandsBuilt(s, e, t);
      case Reply(_, _, _) => HandsBuilt(s, e, t);
      case BusReplicate => HandsBuilt(s, e, t);
      case BusRetire => HandsReleased(s, e, t);
      case Finish(_) => HandsReleased(s, e, t);
      case Receive(_) => HandsTaken(s, e, t);
      case Abandon(_) => HandsTaken(s, e, t);
      case _ => HandsLeft(s, e, t);
    }
  }

  lemma HandsReleased(s: State, e: Step, t: nat)
    requires Enabled(s, e) && t < |s.tasks| && HandOk(s, t) && (e.BusRetire? || e.Finish?)
    ensures |Next(s, e).tasks| == |s.tasks| && HandOk(Next(s, e), t)
  {
  }

  lemma HandsLeft(s: State, e: Step, t: nat)
    requires Enabled(s, e) && t < |s.tasks| && HandOk(s, t)
    requires e.IssueFails? || e.BusSignal? || e.BusSubscribe? || e.Wake?
    ensures |Next(s, e).tasks| == |s.tasks| && HandOk(Next(s, e), t)
  {
  }

  lemma HandsTaken(s: State, e: Step, t: nat)
    requires Enabled(s, e) && t < |s.tasks| && HandOk(s, t) && (e.Receive? || e.Abandon?)
    ensures |Next(s, e).tasks| == |s.tasks| && HandOk(Next(s, e), t)
  {
    if e.Receive? { ReceivedHands(s, e.t, t); } else { LetGoHands(s, e.t, t); }
    hide DoReceive, DoAbandon;
  }

  lemma ReceivedHands(s: State, u: nat, t: nat)
    requires u < |s.tasks| && s.tasks[u].queue != [] && s.tasks[u].queue[0] < |s.pool.msgs| && t < |s.tasks| && HandOk(s, t)
    ensures |DoReceive(s, u).tasks| == |s.tasks| && HandOk(DoReceive(s, u), t)
  {
    assert DoReceive(s, u).tasks == s.tasks[u := DoReceive(s, u).tasks[u]];
  }

  lemma LetGoHands(s: State, u: nat, t: nat)
    requires u < |s.tasks| && s.tasks[u].handling.Busy? && s.tasks[u].handling.m < |s.pool.msgs| && t < |s.tasks| && HandOk(s, t)
    ensures |DoAbandon(s, u).tasks| == |s.tasks| && HandOk(DoAbandon(s, u), t)
  {
    assert DoAbandon(s, u).tasks == s.tasks[u := DoAbandon(s, u).tasks[u]];
  }

  lemma HandsMatched(s: State, t: nat)
    requires Enabled(s, BusMatch) && t < |s.tasks| && HandOk(s, t)
    ensures |Next(s, BusMatch).tasks| == |s.tasks| && HandOk(Next(s, BusMatch), t)
  {
    InHand(s, BusMatch);
    hide DoBusMatch;
    MatchTouches(s);
    HandsUnmatched(s, t);
  }

  lemma HandsPost(s: State, p: nat, t: nat)
    requires Enabled(s, Post(p)) && t < |s.tasks| && HandOk(s, t)
    ensures |Next(s, Post(p)).tasks| == |s.tasks| && HandOk(Next(s, Post(p)), t)
  {
    hide DoPost;
    PostPool(s, p);
    PostedPool(s, p);
    HandsPosted(s, p, t);
  }

  lemma HandsBuilt(s: State, e: Step, t: nat)
    requires Enabled(s, e) && t < |s.tasks| && HandOk(s, t)
    requires e.IssueCall? || e.IssueSignal? || e.Reply? || e.BusReplicate?
    requires s.tasks[t].held.Some? ==> s.tasks[t].held.value !in s.pool.free
    ensures |Next(s, e).tasks| == |s.tasks| && HandOk(Next(s, e), t)
  {
  }

  lemma HandsRecorded(s: State, t: nat)
    requires Enabled(s, BusRecord) && t < |s.tasks| && HandOk(s, t)
    ensures |Next(s, BusRecord).tasks| == |s.tasks| && HandOk(Next(s, BusRecord), t)
  {
  }

  lemma HandsUnmatched(s: State, t: nat)
    requires TakenUp(s) && t < |s.tasks|
    ensures var s' := DoBusMatch(s);
            |s'.tasks| == |s.tasks| && s'.tasks[t].held == s.tasks[t].held && s'.tasks[t].call == s.tasks[t].call
  {
    hide FindEntry;
    var r := s.pool.msgs[s.tasks[0].handling.m];
    var found := FindEntry(s.pool, s.lists[r.major], r.seqno, 0);
    var s' := DoBusMatch(s);
    if found.None? {
      assert s'.tasks == s.tasks[0 := s'.tasks[0]];
    } else {
      var e := s.lists[r.major][found.value];
      var src := s.pool.msgs[e.msg].src;
      var tasks := s.tasks[0 := s.tasks[0].(handling := Retiring(s.tasks[0].handling.m, r.major, found.value))];
      assert s'.tasks == if e.sync && src < |s.tasks|
                         then tasks[src := tasks[src].(out := r.payload, callSem := tasks[src].callSem + 1)] else tasks;
    }
  }

  lemma HandsPosted(s: State, t: nat, t2: nat)
    requires Enabled(s, Post(t)) && t2 < |s.tasks|
    ensures var s' := DoPost(s, t);
            && |s'.tasks| == |s.tasks| && s'.tasks[t2].call == s.tasks[t2].call
            && s'.tasks[t2].held == if t2 == t then None else s.tasks[t2].held
  {
    PostFrame(s, t);
    DeliverHands(s, t, t2);
    hide Enabled, Deliver;
  }

  lemma DeliverHands(s: State, t: nat, t2: nat)
    requires t < |s.tasks| && t2 < |s.tasks| && s.tasks[t].held.Some? && s.tasks[t].held.value < |s.pool.msgs|
    requires Configured(s) && s.pool.msgs[s.tasks[t].held.value].dst < |s.home|
    ensures var s' := Deliver(s, t);
            |s'.tasks| == |s.tasks| && s'.tasks[t2].held == if t2 == t then None else s.tasks[t2].held
  {
  }

  lemma StartHands(states: seq<State>, steps: seq<Step>, t: nat)
    requires Run(states, steps) && t < |states[0].tasks|
    ensures HandOk(states[0], t)
  {
    hide Enabled, Next, Configured, Sound;
  }

  lemma {:induction false} RunHands(states: seq<State>, steps: seq<Step>, n: nat, t: nat)
    requires Run(states, steps) && n < |states| && t < |states[n].tasks|
    ensures HandOk(states[n], t)
  {
    hide *;
    if n == 0 {
      StartHands(states, steps, t);
    } else {
      StepOf(states, steps, n - 1);
      RunInv(states, steps, n - 1);
      SameTasks(states[n - 1], steps[n - 1]);
      RunHands(states, steps, n - 1, t);
      HeldInUse(states[n - 1], t);
      HandStays(states[n - 1], steps[n - 1], t);
    }
  }

  lemma SameTasks(s: State, e: Step)
    requires Enabled(s, e)
    ensures |Next(s, e).tasks| == |s.tasks|
  {
    hide DoBusMatch, DoPost;
    if e.BusMatch? { InHand(s, e); HandsUnmatched(s, 0); }
    if e.Post? { HandsPosted(s, e.t, e.t); }
  }

  lemma HeldInUse(s: State, t: nat)
    requires Inv(s) && t < |s.tasks|
    ensures s.tasks[t].held.Some? ==> s.tasks[t].held.value !in s.pool.free
  {
    hide InFlightOk, TasksOk, LiveDiffer, EntriesOk, SubsOk, HistoryOk, CallsOk, Owned;
    if s.tasks[t].held.Some? { TaskHolds(s, t, s.tasks[t].held.value); }
  }

  /** A caller whose call is answered has posted its request: its hands are empty. */
  lemma AnsweredHandsEmpty(s: State, t: nat, i: nat)
    requires InFlightOk(s) && t < |s.tasks| && HandOk(s, t) && s.tasks[t].call == Some(i)
    requires i in s.calls && s.calls[i].phase.Answered?
    ensures s.tasks[t].held.None?
  {
    if s.tasks[t].held.Some? {
      FlightAtMost(s.tasks, t, s.tasks[t].held.value);
    }
  }

  /**
   * The exception is real: in every run, whenever the bus matches the reply to a synchronous call, the
   * caller can wake and leave at once, while its entry is still listed.
   */
  lemma WokenBeforeDropped(states: seq<State>, steps: seq<Step>, n: nat)
    requires Run(states, steps) && n < |steps| && steps[n].BusMatch?
    ensures var s, s1 := states[n], states[n + 1];
            && |s.tasks| > 0 && s.tasks[0].handling.Fresh? && s.tasks[0].handling.m < |s.pool.msgs|
            && var r := s.pool.msgs[s.tasks[0].handling.m];
            && r.issue in s.calls && (s.calls[r.issue].sync ==> LeavesEntry(s1, s.calls[r.issue].src, r.major, r.issue))
  {
    assert n + 1 < |states|;
    hide *;
    StepOf(states, steps, n);
    RunInv(states, steps, n);
    RunInv(states, steps, n + 1);
    var s, s1 := states[n], states[n + 1];
    MatchGives(s);
    var id := s.tasks[0].handling.m;
    var c := s.calls[s.pool.msgs[id].issue];
    if c.sync {
      InvConfigured(s1);
      RunHands(states, steps, n, c.src);
      FlightsInOrder(s);
      AnsweredHandsEmpty(s, c.src, s.pool.msgs[id].issue);
      WakeAfterMatch(s, s1, id);
    }
  }

  lemma MatchGives(s: State)
    requires Inv(s) && s.sound && Enabled(s, BusMatch)
    ensures TakenUp(s) && |s.tasks| > 0 && s.tasks[0].handling.Fresh? && s.tasks[0].handling.m < |s.pool.msgs|
    ensures var id := s.tasks[0].handling.m;
            var r := s.pool.msgs[id];
            && Matched(s, Next(s, BusMatch), id) && ReplyFlight(s, id, r) && r.issue in s.calls && CallOk(s, r.issue)
            && s.calls[r.issue].phase.Answered? && s.calls[r.issue].src < |s.tasks|
            && (s.calls[r.issue].sync ==> s.tasks[s.calls[r.issue].src].call == Some(r.issue))
  {
    InHand(s, BusMatch);
    MatchKnows(s);
    MatchShape(s);
    hide Inv, DoBusMatch, Matched, FlightOk, Flight;
  }

  lemma WakeAfterMatch(s: State, s1: State, id: nat)
    requires s.sound && Matched(s, s1, id) && ReplyFlight(s, id, s.pool.msgs[id]) && CallOk(s, s.pool.msgs[id].issue)
    requires s.calls[s.pool.msgs[id].issue].sync && s.tasks[s.calls[s.pool.msgs[id].issue].src].held.None?
    requires Configured(s1)
    ensures LeavesEntry(s1, s.calls[s.pool.msgs[id].issue].src, s.pool.msgs[id].major, s.pool.msgs[id].issue)
  {
    MatchFollows(s, s1, id);
  }

  /** Task t can wake, and is then outside of any call while call i is still listed. */
  ghost predicate LeavesEntry(s: State, t: nat, g: nat, i: nat) {
    && Enabled(s, Wake(t)) && var s2 := Next(s, Wake(t));
    && t < |s2.tasks| && s2.tasks[t].call.None? && s2.lists == s.lists && HasEntry(s2, g, i)
  }

  lemma InvConfigured(s: State)
    requires Inv(s)
    ensures Configured(s)
  {
  }

  lemma MatchFollows(s: State, s1: State, id: nat)
    requires s.sound && Matched(s, s1, id) && ReplyFlight(s, id, s.pool.msgs[id]) && CallOk(s, s.pool.msgs[id].issue)
    requires s.calls[s.pool.msgs[id].issue].sync && s.tasks[s.calls[s.pool.msgs[id].issue].src].held.None?
    ensures var c := s.calls[s.pool.msgs[id].issue];
            && s1.tasks[c.src].held.None? && s1.tasks[c.src].call.Some? && s1.tasks[c.src].callSem > 0
            && s1.lists == s.lists && HasEntry(s, s.pool.msgs[id].major, s.pool.msgs[id].issue)
  {
  }

  /**
   * A call semaphore holds at most one token, and only while its task is inside a call that has been
   * answered, with the variable already set to the answer.
   */
  ghost predicate TokenMeansAnswer(s: State, t: nat)
    requires t < |s.tasks|
  {
    var task := s.tasks[t];
    && task.callSem <= 1
    && (task.callSem == 1 ==> task.call.Some? && task.call.value in s.replied && task.out == s.replied[task.call.value])
  }

  lemma TokenAt(s: State, t: nat)
    requires Inv(s) && s.sound && t < |s.tasks|
    ensures TokenMeansAnswer(s, t)
  {
    assert TaskOk(s, t);
  }

  /** Step j is the service's answer to call i. */
  ghost predicate Answers(steps: seq<Step>, j: nat, i: nat) {
    j < |steps| && steps[j].Reply? && steps[j].issue == i
  }

  /** Step j is the one answer to call i among the first n steps, and v is what it said. */
  ghost predicate OnlyAnswer(steps: seq<Step>, n: nat, i: nat, v: int, j: nat) {
    && j < n && Answers(steps, j, i) && steps[j].payload == v
    && forall k: nat :: k < n && Answers(steps, k, i) ==> k == j
  }

  ghost predicate AnsweredOnce(steps: seq<Step>, n: nat, i: nat, v: int) {
    exists j: nat :: OnlyAnswer(steps, n, i, v, j)
  }

  /** What one step may do to the answer recorded for call i: add the step's own, never change an old one. */
  ghost predicate AnswerKept(s: State, e: Step, s': State, i: nat) {
    && (i in s.replied ==> i in s'.replied && s'.replied[i] == s.replied[i] && !(e.Reply? && e.issue == i))
    && (i !in s.replied && i in s'.replied ==> e.Reply? && e.issue == i && s'.replied[i] == e.payload)
    && (e.Reply? && e.issue == i ==> i in s'.replied)
  }

  lemma RepliedStep(s: State, e: Step, i: nat)
    requires Enabled(s, e) && (e.Reply? ==> CallOk(s, e.issue))
    ensures AnswerKept(s, e, Next(s, e), i)
  {
    hide DoBusMatch, DoPost;
    if e.BusMatch? { InHand(s, e); MatchTouches(s); }
    if e.Post? { PostedPool(s, e.t); }
  }

  lemma StillOnce(steps: seq<Step>, n: nat, i: nat, v: int)
    requires AnsweredOnce(steps, n, i, v) && !Answers(steps, n, i)
    ensures AnsweredOnce(steps, n + 1, i, v)
  {
    var j: nat :| OnlyAnswer(steps, n, i, v, j);
    assert OnlyAnswer(steps, n + 1, i, v, j);
  }

  lemma FirstAnswer(steps: seq<Step>, n: nat, i: nat)
    requires Answers(steps, n, i) && forall k: nat :: k < n ==> !Answers(steps, k, i)
    ensures AnsweredOnce(steps, n + 1, i, steps[n].payload)
  {
    assert OnlyAnswer(steps, n + 1, i, steps[n].payload, n);
  }

  // ---- The message pool

  /** What a step releases, if it releases something. */
  function Released(s: State, e: Step): (r: Option<nat>) {
    if e.Finish? && e.t < |s.tasks| && s.tasks[e.t].handling != Idle then Some(s.tasks[e.t].handling.m)
    else if e.BusRetire? && |s.tasks| > 0 && s.tasks[0].handling.Retiring? && RetiresEntry(s, s.tasks[0].handling)
    then Some(s.lists[s.tasks[0].handling.major][s.tasks[0].handling.k].msg)
    else None
  }

  lemma ReleasesHeld(s: State, e: Step)
    requires Inv(s) && Enabled(s, e)
    ensures Released(s, e).Some? ==> Held(s, Released(s, e).value) > 0 && Released(s, e).value !in s.pool.free
  {
    hide InFlightOk, TasksOk, LiveDiffer, EntriesOk, SubsOk, HistoryOk, CallsOk, Owned;
    if e.Finish? {
      HandledCounts(s.tasks[e.t]);
      TaskHolds(s, e.t, s.tasks[e.t].handling.m);
    } else if e.BusRetire? {
      EntryHolds(s, s.tasks[0].handling.major, s.tasks[0].handling.k);
    }
  }

  lemma FreedByRelease(s: State, e: Step)
    requires Inv(s) && Enabled(s, e)
    ensures forall id :: id in Next(s, e).pool.free && id !in s.pool.free ==>
              Released(s, e) == Some(id) && id < |s.pool.msgs| && Lowered(s.pool.msgs[id].ref) == 0
  {
    hide Inv, DoBusMatch, DoPost;
    if e.BusMatch? { InHand(s, e); MatchTouches(s); }
    if e.Post? { PostPool(s, e.t); PostedPool(s, e.t); }
  }

  lemma ReleaseSoundOnce(s: State, e: Step)
    requires Inv(s) && Enabled(s, e)
    ensures forall id :: id in Next(s, e).pool.free && id !in s.pool.free ==> Held(s, id) == 1
  {
    ReleasesHeld(s, e);
    FreedByRelease(s, e);
    hide Enabled, Next, InFlightOk, TasksOk, LiveDiffer, EntriesOk, SubsOk, HistoryOk, CallsOk;
    forall id | id in Next(s, e).pool.free && id !in s.pool.free ensures Held(s, id) == 1 {
      assert OwnedRight(s.pool, Holders(s), id);
    }
  }

  // ---- Lost references and lost calls

  /** No step gives a lost reference back. */
  lemma LeakedStays(s: State, e: Step, x: nat)
    requires Enabled(s, e)
    ensures s.leaked[x] <= Next(s, e).leaked[x]
  {
    if e.BusMatch? { InHand(s, e); MatchTouches(s); }
    hide DoBusMatch;
  }

  /** Matching leaves messages and lost references alone. */
  lemma MatchTouches(s: State)
    requires TakenUp(s)
    ensures DoBusMatch(s).pool == s.pool && DoBusMatch(s).leaked == s.leaked && DoBusMatch(s).sound == s.sound
    ensures DoBusMatch(s).replied == s.replied
  {
    hide FindEntry;
    var r := s.pool.msgs[s.tasks[0].handling.m];
    var found := FindEntry(s.pool, s.lists[r.major], r.seqno, 0);
    if found.Some? { assert found.value < |s.lists[r.major]|; }
  }

  /** Different numbers below n, and others below n, are no more than n. */
  lemma {:induction false} AtMostBelow(s: seq<nat>, others: set<nat>, n: nat)
    requires NoRepeats(s) && (forall k :: 0 <= k < |s| ==> s[k] < n && s[k] !in others)
    requires forall x :: x in others ==> x < n
    ensures |s| + |others| <= n
    decreases |s|
  {
    if s == [] {
      SetBelow(others, n);
    } else {
      var last := s[|s| - 1];
      AtMostBelow(s[..|s| - 1], others + {last}, n);
    }
  }

  lemma {:induction false} SetBelow(xs: set<nat>, n: nat)
    requires forall x :: x in xs ==> x < n
    ensures |xs| <= n
  {
    if n > 0 {
      SetBelow(xs - {n - 1}, n - 1);
      if n - 1 !in xs { assert xs - {n - 1} == xs; }
    } else {
      assert xs == {};
    }
  }

  /** No message has more than two references. */
  ghost predicate FewRefs(s: State) {
    forall x :: 0 <= x < |s.pool.msgs| ==> s.pool.msgs[x].ref <= 2
  }

  lemma RefsStay(s: State, e: Step)
    requires FewRefs(s) && Enabled(s, e)
    requires e.BusRecord? || e.BusReplicate? ==> s.pool.msgs[s.tasks[0].handling.m].ref <= 1
    ensures FewRefs(Next(s, e))
  {
    hide DoBusMatch, DoPost;
    if e.BusMatch? { InHand(s, e); MatchTouches(s); }
    if e.Post? { PostPool(s, e.t); PostedPool(s, e.t); }
  }

  lemma PostedPool(s: State, t: nat)
    requires Enabled(s, Post(t))
    ensures DoPost(s, t).pool == Deliver(s, t).pool && DoPost(s, t).sound == s.sound && DoPost(s, t).replied == s.replied
  {
  }

  /** What gets one more reference has at most one. */
  lemma CountedOnce(s: State, e: Step)
    requires Inv(s) && Enabled(s, e) && (e.BusRecord? || e.BusReplicate?)
    ensures s.pool.msgs[s.tasks[0].handling.m].ref <= 1
  {
    if e.BusRecord? {
      RecordKnows(s);
    } else {
      hide Owned, InFlightOk, LiveDiffer, EntriesOk, SubsOk, HistoryOk, CallsOk;
      TaskWaits(s, 0);
    }
  }

  ghost predicate IsLost(s: State, i: nat) { i in s.calls && s.calls[i].phase.Lost? }

  lemma LostStays(s: State, e: Step, i: nat)
    requires Enabled(s, e) && IsLost(s, i) && !Moves(s, e, i)
    ensures IsLost(Next(s, e), i)
  {
    hide FindEntry, DoBusMatch, DoBusRecord, DoPost, DoAbandon, Release, Alloc;
    match e {
      case BusMatch => LostUnmatched(s, i);
      case BusRecord => LostUnrecorded(s, i);
      case Post(t) => LostUnposted(s, t, i);
      case Abandon(t) => LostLetGo(s, t, i);
      case _ =>
    }
  }

  lemma LostUnposted(s: State, t: nat, i: nat)
    requires Enabled(s, Post(t)) && IsLost(s, i)
    ensures IsLost(DoPost(s, t), i)
  {
  }

  lemma LostLetGo(s: State, t: nat, i: nat)
    requires Enabled(s, Abandon(t)) && IsLost(s, i)
    ensures IsLost(DoAbandon(s, t), i)
  {
  }

  lemma LostUnmatched(s: State, i: nat)
    requires Enabled(s, BusMatch) && IsLost(s, i) && !Moves(s, BusMatch, i)
    ensures IsLost(DoBusMatch(s), i)
  {
    hide FindEntry;
  }

  lemma LostUnrecorded(s: State, i: nat)
    requires Enabled(s, BusRecord) && IsLost(s, i) && !Moves(s, BusRecord, i)
    ensures IsLost(DoBusRecord(s), i)
  {
  }

  /** A step that may change the phase of call i, other than losing it. */
  ghost predicate Moves(s: State, e: Step, i: nat)
    requires Enabled(s, e)
  {
    match e
    case IssueCall(_, _, _, _, _) => i == s.issued + 1
    case Receive(t) => var m := s.pool.msgs[s.tasks[t].queue[0]]; m.kind.IsCall() && m.issue == i
    case BusRecord => s.pool.msgs[s.tasks[0].handling.m].issue == i
    case BusMatch =>
      var r := s.pool.msgs[s.tasks[0].handling.m];
      var found := FindEntry(s.pool, s.lists[r.major], r.seqno, 0);
      r.issue == i || (found.Some? && s.lists[r.major][found.value].issue == i)
    case Reply(_, issue, _) => issue == i
    case _ => false
  }

  lemma LostUnmoved(s: State, e: Step, i: nat)
    requires Inv(s) && Enabled(s, e) && IsLost(s, i)
    ensures !Moves(s, e, i)
  {
    match e {
      case IssueCall(_, _, _, _, _) => NewIssue(s); hide Inv;
      case Receive(t) => ReceivedNotLost(s, t, i); hide Inv;
      case BusRecord => RecordKnows(s); hide Inv, FlightOk, CallOk, Flight;
      case BusMatch => MatchKnows(s); MatchFinds(s); hide Inv, FindEntry, FlightOk, CallOk, Flight;
      case _ =>
    }
  }

  lemma ReceivedNotLost(s: State, t: nat, i: nat)
    requires Inv(s) && Enabled(s, Receive(t)) && IsLost(s, i)
    ensures var m := s.pool.msgs[s.tasks[t].queue[0]]; m.kind.IsCall() ==> m.issue != i
  {
    hide Owned, TasksOk, LiveDiffer, EntriesOk, SubsOk, HistoryOk, CallsOk, Flight;
    OccAt(s.tasks[t].queue, 0);
    TakenFlight(s, t, s.tasks[t].queue[0]);
  }

  lemma LostHasNothing(s: State, i: nat)
    requires Inv(s) && IsLost(s, i)
    ensures (s.sound ==> i !in s.returned) && i !in s.fired
    ensures forall g, j :: 0 <= g < |s.lists| && 0 <= j < |s.lists[g]| ==> s.lists[g][j].issue != i
  {
    hide Owned, InFlightOk, TasksOk, LiveDiffer, SubsOk, CallsOk;
    forall g, j | 0 <= g < |s.lists| && 0 <= j < |s.lists[g]| ensures s.lists[g][j].issue != i {
      assert EntryOk(s, g, j);
    }
  }

  // ---- The guards of the steps take nothing for granted

  /** The message the bus has just taken up is one it can handle. */
  ghost predicate BusCanGoOn(s: State)
    requires |s.tasks| > 0 && s.tasks[0].handling.Fresh? && s.tasks[0].handling.m < |s.pool.msgs|
  {
    && BusHas(s, s.pool.msgs[s.tasks[0].handling.m].kind)
    && (Enabled(s, BusRecord) || Enabled(s, BusMatch) || Enabled(s, BusSignal) || Enabled(s, BusSubscribe))
  }

  lemma HeldCanBePosted(s: State, t: nat)
    requires Configured(s) && InFlightOk(s) && t < |s.tasks| && s.tasks[t].held.Some?
    ensures Enabled(s, Post(t))
  {
    FlightAtMost(s.tasks, t, s.tasks[t].held.value);
    hide Flight;
    assert FlightOk(s, s.tasks[t].held.value);
  }

  lemma FreshCanBeHandled(s: State)
    requires Configured(s) && InFlightOk(s) && CanAct(s, 0) && s.tasks[0].handling.Fresh?
    ensures s.tasks[0].handling.m < |s.pool.msgs| && BusCanGoOn(s)
  {
    FlightAtMost(s.tasks, 0, s.tasks[0].handling.m);
    hide Flight;
    assert FlightOk(s, s.tasks[0].handling.m);
  }

  /** Whatever is built can be posted, whatever is queued can be taken, whatever the bus has taken it can handle. */
  ghost predicate NothingStuck(s: State, t: nat)
    requires t < |s.tasks|
  {
    && (s.tasks[t].held.Some? ==> Enabled(s, Post(t)))
    && (CanAct(s, t) && s.tasks[t].handling.Idle? && s.tasks[t].queue != [] ==> Enabled(s, Receive(t)))
    && (CanAct(s, t) && s.tasks[t].handling.Retiring? ==> t == 0 && Enabled(s, BusRetire))
    && (CanAct(s, t) && s.tasks[t].handling.Casting? && !Finished(s.tasks[t].handling) ==>
          t == 0 && (CanAlloc(s.pool) ==> Enabled(s, BusReplicate)))
    && (CanAct(s, t) && s.tasks[t].handling.Fresh? ==>
          t == 0 && s.tasks[0].handling.m < |s.pool.msgs| && BusCanGoOn(s))
  }

  lemma NothingDangles(s: State, t: nat)
    requires Inv(s) && t < |s.tasks|
    ensures NothingStuck(s, t)
  {
    hide BusCanGoOn, InFlightOk, Owned, LiveDiffer, EntriesOk, SubsOk, HistoryOk, CallsOk, WaitOk;
    assert TaskOk(s, t);
    if s.tasks[t].held.Some? { HeldCanBePosted(s, t); }
    if s.tasks[t].queue != [] { assert PlacedOk(s, t, s.tasks[t].queue[0]); }
    if CanAct(s, t) && s.tasks[t].handling.Fresh? { FreshCanBeHandled(s); }
  }
}
