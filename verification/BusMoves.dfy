/** What one step of the bus protocol does to messages, queues, subscriptions and the bus's own work. */
module BusMoves {
  import opened Options
  import opened MessagePool
  import opened Bus
  import O = BusOwnership
  import C = BusCalls
  import S = BusSteps
  import T = BusTheorems
  import L = BusLook
  import P = BusLookProofs

  // ---- What messages say

  /** The same message, up to references and the segment it is addressed to. */
  predicate Same(a: Message, b: Message) {
    a.kind == b.kind && a.major == b.major && a.src == b.src && a.payload == b.payload && a.pn == b.pn && a.issue == b.issue
  }

  /** Same, and addressed as before unless it is a call, which the bus readdresses. */
  predicate Unchanged(a: Message, b: Message) { Same(a, b) && (!a.kind.IsCall() ==> a.dst == b.dst) }

  ghost predicate Keeps(p: Pool, p': Pool, x: nat) {
    x < |p.msgs| && |p'.msgs| == |p.msgs| && Unchanged(p.msgs[x], p'.msgs[x])
  }

  lemma BuildKeeps(s: State, e: Step, x: nat)
    requires Enabled(s, e) && L.Builds(e) && x < |s.pool.msgs| && x !in s.pool.free
    ensures Keeps(s.pool, Next(s, e).pool, x)
  {
    P.OneBuilt(s, e);
    hide Enabled, Next;
    assert x != s.pool.free[0];
  }

  lemma RecordKeeps(s: State, x: nat)
    requires Enabled(s, BusRecord) && x < |s.pool.msgs|
    ensures Keeps(s.pool, Next(s, BusRecord).pool, x)
  {
  }

  lemma ReleaseKeeps(p: Pool, id: nat, x: nat)
    requires id < |p.msgs| && x < |p.msgs|
    ensures Keeps(p, Release(p, id), x)
  {
  }

  lemma ReleasedKeeps(s: State, e: Step, x: nat)
    requires Enabled(s, e) && (e.Finish? || e.BusRetire?) && x < |s.pool.msgs|
    ensures Keeps(s.pool, Next(s, e).pool, x)
  {
    hide Release, Keeps;
    if e.Finish? {
      ReleaseKeeps(s.pool, s.tasks[e.t].handling.m, x);
    } else {
      var h := s.tasks[0].handling;
      ReleaseKeeps(s.pool, s.lists[h.major][h.k].msg, x);
    }
  }

  /** These steps leave the pool alone. */
  predicate Quiet(e: Step) { e.IssueFails? || e.Receive? || e.BusSignal? || e.BusSubscribe? || e.Abandon? || e.Wake? }

  lemma QuietPool(s: State, e: Step)
    requires Enabled(s, e) && Quiet(e)
    ensures Next(s, e).pool == s.pool
  {
    hide DoReceive, DoAbandon;
    if e.Receive? { ReceivedFrame(s, e.t); }
    if e.Abandon? { AbandonedFrame(s, e.t); }
  }

  lemma PoolKeeps(p: Pool, x: nat)
    requires x < |p.msgs|
    ensures Keeps(p, p, x)
  {
  }

  /** A message in use says what it said. */
  lemma ContentStays(s: State, e: Step, x: nat)
    requires Enabled(s, e) && x < |s.pool.msgs| && x !in s.pool.free
    ensures Keeps(s.pool, Next(s, e).pool, x)
  {
    if e.BusMatch? {
      S.InHand(s, e);
      hide DoBusMatch;
      T.MatchTouches(s);
    } else if e.Post? {
      hide DoPost;
      O.PostPool(s, e.t);
      T.PostedPool(s, e.t);
    } else {
      hide Enabled, Next, Keeps;
      if L.Builds(e) {
        BuildKeeps(s, e, x);
      } else if e.BusRecord? {
        RecordKeeps(s, x);
      } else if e.Finish? || e.BusRetire? {
        ReleasedKeeps(s, e, x);
      } else {
        QuietPool(s, e);
        PoolKeeps(s.pool, x);
      }
    }
  }

  /** What the builder of a message put into it. */
  ghost predicate Says(s: State, e: Step, m: Message) {
    match e
    case IssueCall(t, sync, notify, major, payload) =>
      && m.kind == (if sync then SyncCall else AsyncCall) && m.major == major && m.src == t
      && m.payload == payload && m.pn == notify && m.issue == s.issued + 1
    case IssueSignal(t, subscribe, _, major, payload) =>
      m.kind == (if subscribe then Subscribe else Signal) && m.major == major && m.src == t && m.payload == payload
    case Reply(t, issue, payload) =>
      m.kind == CallReturn && m.src == t && m.payload == payload && m.issue == issue
      && issue in s.calls && m.major == s.calls[issue].major
    case _ => false
  }

  lemma SaysTheSame(s: State, e: Step, a: Message, b: Message)
    requires Says(s, e, a) && Same(a, b)
    ensures Says(s, e, b)
  {
  }

  /** A task that builds a message gets it into its hand, with what it was asked to put in and to the asked destination. */
  lemma BuiltAsAsked(s: State, e: Step)
    requires Enabled(s, e) && L.Invokes(e)
    ensures CanAlloc(s.pool) && L.Actor(e) < |s.tasks|
    ensures var s', id := Next(s, e), s.pool.free[0];
            && |s'.pool.msgs| == |s.pool.msgs| && |s'.tasks| == |s.tasks| && s'.tasks[L.Actor(e)].held == Some(id)
            && Says(s, e, s'.pool.msgs[id]) && s'.pool.msgs[id].dst == if e.IssueSignal? then e.dst else 0
  {
  }

  /** Only building takes a message out of the free list, and it takes the first. */
  lemma TakenFirst(s: State, e: Step, x: nat)
    requires Enabled(s, e) && x in s.pool.free && x !in Next(s, e).pool.free
    ensures L.Builds(e) && CanAlloc(s.pool) && x == s.pool.free[0]
  {
    hide DoReceive, DoAbandon, DoBusMatch, DoPost;
    if e.BusMatch? {
      S.InHand(s, e);
      T.MatchTouches(s);
    } else if e.Post? {
      O.PostPool(s, e.t);
      T.PostedPool(s, e.t);
    } else if Quiet(e) {
      QuietPool(s, e);
    }
  }

  // ---- The bus at work on a signal

  /** A copy for the next subscriber, saying what the signal says, goes into the bus's hand. */
  lemma CopyMade(s: State)
    requires Enabled(s, BusReplicate)
    ensures var s', h, id := Next(s, BusReplicate), s.tasks[0].handling, s.pool.free[0];
            && |s'.tasks| == |s.tasks| && |s'.pool.msgs| == |s.pool.msgs|
            && s'.tasks[0].handling == Casting(h.m, h.left[1..]) && s'.tasks[0].held == Some(id)
            && s'.pool.msgs[id].dst == h.left[0] && Same(s.pool.msgs[h.m], s'.pool.msgs[id])
  {
  }

  /** Until the signal is released only copying changes what is left to do. */
  lemma CastingStays(s: State, e: Step)
    requires Enabled(s, e) && s.tasks != [] && s.tasks[0].handling.Casting? && !e.BusReplicate? && e != Finish(0)
    ensures |Next(s, e).tasks| == |s.tasks| && Next(s, e).tasks[0].handling == s.tasks[0].handling
  {
    if e.Post? {
      hide DoPost;
      PostLands(s, e.t);
    } else {
      T.SameTasks(s, e);
      hide *;
      if L.Builds(e) { BuildHandling(s, e); } else { OtherHandling(s, e); }
    }
  }

  lemma BuildHandling(s: State, e: Step)
    requires Enabled(s, e) && L.Invokes(e) && s.tasks != []
    ensures Next(s, e).tasks[0].handling == s.tasks[0].handling
  {
  }

  /** These steps need the bus to be at the beginning of something else. */
  lemma CastingExcludes(s: State, e: Step)
    requires Enabled(s, e) && s.tasks != [] && s.tasks[0].handling.Casting?
    ensures !e.BusRecord? && !e.BusMatch? && !e.BusRetire? && !e.BusSignal? && !e.BusSubscribe?
    ensures e != Receive(0) && e != Abandon(0)
  {
  }

  lemma OtherHandling(s: State, e: Step)
    requires Enabled(s, e) && !L.Builds(e) && !e.Post? && s.tasks != [] && s.tasks[0].handling.Casting? && e != Finish(0)
    ensures Next(s, e).tasks[0].handling == s.tasks[0].handling
  {
    CastingExcludes(s, e);
    hide DoReceive, DoAbandon, DoBusMatch, DoBusRecord, DoBusRetire, DoBusSignal, DoBusSubscribe;
    if e.Receive? { ReceivedFrame(s, e.t); }
    if e.Abandon? { AbandonedFrame(s, e.t); }
  }

  /** Taking a message touches one task and the calls. */
  lemma ReceivedFrame(s: State, t: nat)
    requires t < |s.tasks| && s.tasks[t].queue != [] && s.tasks[t].queue[0] < |s.pool.msgs|
    ensures var s', id := DoReceive(s, t), s.tasks[t].queue[0];
            && s' == s.(tasks := s'.tasks, calls := s'.calls)
            && s'.tasks == s.tasks[t := s.tasks[t].(queue := s.tasks[t].queue[1..],
                                                    handling := if s.pool.msgs[id].dst == 0 then Fresh(id) else Busy(id))]
  {
  }

  /** Giving up a call touches one task, the calls and the lost references. */
  lemma AbandonedFrame(s: State, t: nat)
    requires t < |s.tasks| && s.tasks[t].handling.Busy? && s.tasks[t].handling.m < |s.pool.msgs|
    ensures var s' := DoAbandon(s, t);
            && s' == s.(tasks := s'.tasks, calls := s'.calls, leaked := s.leaked + multiset{s.tasks[t].handling.m})
            && s'.tasks == s.tasks[t := s.tasks[t].(handling := Idle)]
  {
  }

  lemma CastingDone(s: State)
    requires Enabled(s, Finish(0)) && s.tasks[0].handling.Casting?
    ensures s.tasks[0].handling.left == []
  {
  }

  // ---- Queues

  /** What a step does to the queue of task q. */
  ghost predicate QueueStep(s: State, e: Step, s': State, q: nat)
    requires q < |s.tasks|
  {
    && |s'.tasks| == |s.tasks|
    && (e == Receive(q) ==> s.tasks[q].queue != [] && s'.tasks[q].queue == s.tasks[q].queue[1..])
    && (e != Receive(q) && !e.Post? ==> s'.tasks[q].queue == s.tasks[q].queue)
    && (e.Post? ==> s.tasks[q].queue <= s'.tasks[q].queue)
  }

  lemma QueueMoves(s: State, e: Step, q: nat)
    requires Enabled(s, e) && q < |s.tasks|
    ensures QueueStep(s, e, Next(s, e), q)
  {
    if e.BusMatch? {
      S.InHand(s, e);
      hide DoBusMatch;
      MatchQueues(s, q);
    } else if e.Post? {
      hide DoPost;
      PostQueues(s, e.t, q);
    } else {
      hide *;
      if L.Builds(e) { BuildQueues(s, e, q); } else { OtherQueues(s, e, q); }
    }
  }

  lemma MatchQueues(s: State, q: nat)
    requires TakenUp(s) && q < |s.tasks|
    ensures |DoBusMatch(s).tasks| == |s.tasks| && DoBusMatch(s).tasks[q].queue == s.tasks[q].queue
    ensures DoBusMatch(s).subs == s.subs
  {
    hide FindEntry;
    var r := s.pool.msgs[s.tasks[0].handling.m];
    var found := FindEntry(s.pool, s.lists[r.major], r.seqno, 0);
    if found.Some? {
      var e := s.lists[r.major][found.value];
      var s1 := SetTask(s, 0, s.tasks[0].(handling := Retiring(s.tasks[0].handling.m, r.major, found.value)))
                  .(calls := CloseCall(s.calls, e.issue));
      hide CloseCall;
      SettleQueues(s1, e, r.payload, q);
    }
  }

  lemma SettleQueues(s: State, e: Pending, payload: int, q: nat)
    requires e.msg < |s.pool.msgs| && q < |s.tasks|
    ensures |Settle(s, e, payload).tasks| == |s.tasks| && Settle(s, e, payload).tasks[q].queue == s.tasks[q].queue
    ensures Settle(s, e, payload).subs == s.subs
  {
  }

  lemma BuildQueues(s: State, e: Step, q: nat)
    requires Enabled(s, e) && L.Builds(e) && q < |s.tasks|
    ensures QueueStep(s, e, Next(s, e), q)
  {
  }

  lemma OtherQueues(s: State, e: Step, q: nat)
    requires Enabled(s, e) && !L.Builds(e) && !e.BusMatch? && !e.Post? && q < |s.tasks|
    ensures QueueStep(s, e, Next(s, e), q)
  {
    hide QueueStep, Enabled, Next;
    if e.Receive? || e.Finish? || e.Abandon? || e.Wake? || e.IssueFails? { TaskQueues(s, e, q); } else { BusQueues(s, e, q); }
  }

  lemma TaskQueues(s: State, e: Step, q: nat)
    requires Enabled(s, e) && (e.Receive? || e.Finish? || e.Abandon? || e.Wake? || e.IssueFails?) && q < |s.tasks|
    ensures QueueStep(s, e, Next(s, e), q)
  {
    hide DoAbandon, DoReceive;
    if e.Receive? { ReceivedFrame(s, e.t); }
    if e.Abandon? { AbandonedFrame(s, e.t); }
  }

  lemma BusQueues(s: State, e: Step, q: nat)
    requires Enabled(s, e) && (e.BusRecord? || e.BusRetire? || e.BusSignal? || e.BusSubscribe?) && q < |s.tasks|
    ensures QueueStep(s, e, Next(s, e), q)
  {
    var s' := Next(s, e);
    assert s'.tasks == s.tasks[0 := s'.tasks[0]];
  }

  /**
   * Posting: the message goes to the end of the queue of the task that hosts its destination if there is room,
   * and its reference is lost if there is none. No other queue changes, and the hand is empty.
   */
  ghost predicate Posted(s: State, t: nat, s': State) {
    && Configured(s) && t < |s.tasks| && s.tasks[t].held.Some? && s.tasks[t].held.value < |s.pool.msgs|
    && s.pool.msgs[s.tasks[t].held.value].dst < |s.home| && |s'.tasks| == |s.tasks|
    && var id := s.tasks[t].held.value;
    && var q := s.home[s.pool.msgs[id].dst];
    && s'.pool == s.pool && s'.tasks[t].held.None?
    && (forall u :: 0 <= u < |s.tasks| && u != q ==> s'.tasks[u].queue == s.tasks[u].queue)
    && if |s.tasks[q].queue| < s.capacity
       then s'.tasks[q].queue == s.tasks[q].queue + [id] && s'.leaked == s.leaked
       else s'.tasks[q].queue == s.tasks[q].queue && s'.leaked == s.leaked + multiset{id}
  }

  lemma PostLands(s: State, t: nat)
    requires Enabled(s, Post(t))
    ensures Posted(s, t, Next(s, Post(t)))
    ensures s.tasks != [] && |Next(s, Post(t)).tasks| == |s.tasks| && Next(s, Post(t)).tasks[0].handling == s.tasks[0].handling
  {
    DeliverLands(s, t);
    DeliverHandling(s, t);
    hide Deliver, Posted;
    PostedAlike(s, t, Deliver(s, t), DoPost(s, t));
  }

  lemma PostedAlike(s: State, t: nat, s1: State, s2: State)
    requires Posted(s, t, s1) && s2 == s1.(calls := s2.calls)
    ensures Posted(s, t, s2)
  {
  }

  lemma DeliverLands(s: State, t: nat)
    requires Enabled(s, Post(t))
    ensures Posted(s, t, Deliver(s, t))
  {
    var id := s.tasks[t].held.value;
    var q := s.home[s.pool.msgs[id].dst];
    var s1 := SetTask(s, t, s.tasks[t].(held := None));
    assert s1.tasks[q].queue == s.tasks[q].queue;
    var s' := Deliver(s, t);
    assert s'.tasks == if |s.tasks[q].queue| < s.capacity
                       then s1.tasks[q := s1.tasks[q].(queue := s.tasks[q].queue + [id])] else s1.tasks;
    hide Enabled, Deliver;
  }

  lemma DeliverHandling(s: State, t: nat)
    requires Enabled(s, Post(t))
    ensures s.tasks != [] && |Deliver(s, t).tasks| == |s.tasks| && Deliver(s, t).tasks[0].handling == s.tasks[0].handling
  {
    hide Deliver;
    S.PostFrame(s, t);
  }

  lemma PostQueues(s: State, t: nat, q: nat)
    requires Enabled(s, Post(t)) && q < |s.tasks|
    ensures QueueStep(s, Post(t), Next(s, Post(t)), q)
  {
    PostLands(s, t);
  }

  /** What is taken off a queue is handled: by the bus if it is for the bus, by its segment otherwise. */
  lemma ReceiveHandles(s: State, t: nat)
    requires Enabled(s, Receive(t))
    ensures var id := s.tasks[t].queue[0];
            && |Next(s, Receive(t)).tasks| == |s.tasks| && Next(s, Receive(t)).pool == s.pool
            && Next(s, Receive(t)).tasks[t].handling == if s.pool.msgs[id].dst == 0 then Fresh(id) else Busy(id)
  {
    hide DoReceive;
    ReceivedFrame(s, t);
  }

  // ---- Subscriptions

  /** Only handling a subscription adds a subscriber, at the end of the list of the segment it is about. */
  lemma SubsMove(s: State, e: Step)
    requires Enabled(s, e)
    ensures !e.BusSubscribe? ==> Next(s, e).subs == s.subs
    ensures e.BusSubscribe? ==>
              (BusHas(s, Subscribe)
               && var m := s.pool.msgs[s.tasks[0].handling.m];
                  m.major < |s.subs| && m.payload > 0 && Next(s, e).subs == s.subs[m.major := s.subs[m.major] + [m.payload]])
  {
    if e.BusMatch? {
      S.InHand(s, e);
      hide DoBusMatch;
      MatchQueues(s, 0);
    }
  }

  // ---- Lost references

  /** The message whose reference a step loses, if it loses one. */
  ghost function Loses(s: State, e: Step): Option<nat>
    requires Enabled(s, e)
  {
    match e
    case Post(t) => if Accepts(s, t) then None else s.tasks[t].held
    case BusRecord =>
      var m := s.tasks[0].handling.m;
      if s.pool.msgs[m].kind.AsyncCall? && !s.pool.msgs[m].pn then Some(m) else None
    case Abandon(t) => Some(s.tasks[t].handling.m)
    case _ => None
  }

  /**
   * A reference is lost exactly by posting to a full queue, by forwarding an asynchronous call without a notifier,
   * and by giving up a call whose payload does not decode, which also leaves the pool as it was.
   */
  lemma LostExactly(s: State, e: Step)
    requires Enabled(s, e)
    ensures Next(s, e).leaked == s.leaked + (if Loses(s, e).Some? then multiset{Loses(s, e).value} else multiset{})
    ensures e.Abandon? ==> Next(s, e).pool == s.pool && Next(s, e).tasks[e.t].handling.Idle?
  {
    hide DoReceive, DoAbandon, DoBusMatch, DoPost;
    if e.BusMatch? {
      S.InHand(s, e);
      T.MatchTouches(s);
    } else if e.Post? {
      PostLands(s, e.t);
    } else if e.Receive? {
      ReceivedFrame(s, e.t);
    } else if e.Abandon? {
      AbandonedFrame(s, e.t);
    }
  }
}
