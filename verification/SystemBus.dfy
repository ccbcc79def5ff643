/** The bus's handlers for calls and replies as they update the lists, the pool and the callers in place. */
module SystemBus {
  import opened Options
  import opened MessagePool
  import opened Bus
  import opened BusOwnership
  import opened BusCalls
  import opened BusSteps

  /** Walk the list of pending calls until a message carries the sequence number. */
  method SearchCalls(pool: Pool, list: seq<Pending>, seqno: nat) returns (r: Option<nat>)
    requires forall k :: 0 <= k < |list| ==> list[k].msg < |pool.msgs|
    ensures r == FindEntry(pool, list, seqno, 0)
  {
    var k := 0;
    while k < |list|
      invariant 0 <= k <= |list|
      invariant FindEntry(pool, list, seqno, 0) == FindEntry(pool, list, seqno, k)
    {
      if pool.msgs[list[k].msg].seqno == seqno {
        return Some(k);
      }
      k := k + 1;
    }
    return None;
  }

  /** The steps of handling a call, nothing in between: record it, send it on. */
  ghost predicate CallHandled(s: State, s': State) {
    && Enabled(s, BusRecord) && var s1 := Next(s, BusRecord);
    && Enabled(s1, Post(0)) && s' == Next(s1, Post(0))
  }

  /** The steps of handling a reply: match it, drop the entry if one matched, release the reply. */
  ghost predicate ReplyHandled(s: State, s': State) {
    && Enabled(s, BusMatch) && var s1 := Next(s, BusMatch);
    && |s1.tasks| > 0
    && if s1.tasks[0].handling.Retiring? then EntryDropped(s1, s') else ReplyReleased(s1, s')
  }

  ghost predicate EntryDropped(s: State, s': State) {
    Enabled(s, BusRetire) && ReplyReleased(Next(s, BusRetire), s')
  }

  ghost predicate ReplyReleased(s: State, s': State) {
    Enabled(s, Finish(0)) && s' == Next(s, Finish(0))
  }

  /** The call that was recorded can be sent on. */
  lemma PostFollows(s: State)
    requires Inv(s) && Enabled(s, BusRecord)
    ensures Inv(DoBusRecord(s)) && Enabled(DoBusRecord(s), Post(0))
    ensures Inv(DoPost(DoBusRecord(s), 0))
  {
    hide Inv, DoBusRecord, DoPost;
    StepKeeps(s, BusRecord);
    InvParts(DoBusRecord(s));
    RecordedCanPost(s);
    StepKeeps(DoBusRecord(s), Post(0));
  }

  lemma RecordedCanPost(s: State)
    requires Enabled(s, BusRecord) && Configured(DoBusRecord(s))
    ensures Enabled(DoBusRecord(s), Post(0))
  {
  }

  /** A match leaves the bus ready to drop the entry or to release the reply. */
  lemma RetireFollows(s: State, s1: State, id: nat)
    requires Matched(s, s1, id) && CanAct(s, 0) && Configured(s1)
    ensures if s1.tasks[0].handling.Retiring?
            then Enabled(s1, BusRetire) && s1.tasks[0].handling.m < |s1.pool.msgs|
            else Enabled(s1, Finish(0))
  {
  }

  lemma EntriesInRange(s: State)
    requires EntriesOk(s)
    ensures forall g, k :: 0 <= g < |s.lists| && 0 <= k < |s.lists[g]| ==> s.lists[g][k].msg < |s.pool.msgs|
  {
    forall g, k | 0 <= g < |s.lists| && 0 <= k < |s.lists[g]| ensures s.lists[g][k].msg < |s.pool.msgs| {
      assert EntryOk(s, g, k);
    }
  }

  lemma InvParts(s: State)
    requires Inv(s)
    ensures Configured(s) && EntriesOk(s)
  {
  }

  lemma MatchLeads(s: State)
    requires Inv(s) && Enabled(s, BusMatch)
    ensures var s1 := DoBusMatch(s);
            && Inv(s1) && |s1.tasks| > 0
            && (s1.tasks[0].handling.Retiring? ==> Enabled(s1, BusRetire) && s1.tasks[0].handling.m < |s1.pool.msgs|)
            && (!s1.tasks[0].handling.Retiring? ==> Enabled(s1, Finish(0)))
  {
    hide Inv, FindEntry, Matched, DoBusMatch, EntriesOk;
    StepKeeps(s, BusMatch);
    MatchShape(s);
    InvParts(DoBusMatch(s));
    RetireFollows(s, DoBusMatch(s), s.tasks[0].handling.m);
  }

  lemma FinishFollows(s: State)
    requires Inv(s) && Enabled(s, BusRetire) && s.tasks[0].handling.m < |s.pool.msgs|
    ensures Inv(DoBusRetire(s)) && Enabled(DoBusRetire(s), Finish(0))
  {
    StepKeeps(s, BusRetire);
    hide Inv;
  }

  class SystemBus {
    const home: seq<nat>
    const capacity: nat
    var pool: Pool
    var sequence: nat
    var tasks: seq<Task>
    var lists: seq<seq<Pending>>
    var subs: seq<seq<nat>>
    ghost var issued: nat
    ghost var calls: map<nat, Call>
    ghost var replied: map<nat, int>
    ghost var returned: map<nat, int>
    ghost var fired: multiset<nat>
    ghost var leaked: multiset<nat>
    ghost var sound: bool

    ghost function Contents(): State
      reads this
    {
      State(home, capacity, pool, sequence, tasks, lists, subs, issued, calls, replied, returned, fired, leaked, sound)
    }

    /** Record the call in hand, if its caller wants to hear back, and address it to the service. */
    method Record()
      requires TakenUp(Contents())
      modifies this
      ensures Contents() == DoBusRecord(old(Contents()))
    {
      var id := tasks[0].handling.m;
      var m := pool.msgs[id];
      AddPending(id, m);
      pool := Get(pool, id);
      pool := Address(pool, id, m.major);
      tasks := tasks[0 := tasks[0].(handling := Idle, held := Some(id))];
      calls := SetPhase(calls, m.issue, Recorded);
    }

    /** An entry at the end of the service's list, unless nobody wants to hear back. */
    method AddPending(id: nat, m: Message)
      requires m.major < |lists|
      modifies `lists, `leaked
      ensures lists == if m.kind.SyncCall? || m.pn
                       then old(lists)[m.major := old(lists)[m.major] + [Pending(id, m.kind.SyncCall?, m.issue)]]
                       else old(lists)
      ensures leaked == if m.kind.SyncCall? || m.pn then old(leaked) else old(leaked) + multiset{id}
    {
      var g := m.major;
      if m.kind.SyncCall? || m.pn {
        lists := lists[g := lists[g] + [Pending(id, m.kind.SyncCall?, m.issue)]];
      } else {
        leaked := leaked + multiset{id};
      }
    }

    /** Into the queue of the destination's task, or dropped without a word. */
    method PostHeld(t: nat)
      requires t < |tasks| && tasks[t].held.Some? && tasks[t].held.value < |pool.msgs|
      requires Configured(Contents()) && pool.msgs[tasks[t].held.value].dst < |home|
      modifies this
      ensures Contents() == DoPost(old(Contents()), t)
    {
      var id := tasks[t].held.value;
      var m := pool.msgs[id];
      var target := home[m.dst];
      tasks := tasks[t := tasks[t].(held := None)];
      if |tasks[target].queue| < capacity {
        tasks := tasks[target := tasks[target].(queue := tasks[target].queue + [id])];
      } else {
        leaked := leaked + multiset{id};
        calls := if m.kind.IsCall() || m.kind.CallReturn? then Forget(calls, m.issue) else calls;
      }
    }

    method CallService()
      requires Inv(Contents()) && Enabled(Contents(), BusRecord)
      modifies this
      ensures CallHandled(old(Contents()), Contents()) && Inv(Contents())
    {
      PostFollows(Contents());
      InHand(Contents(), BusRecord);
      hide Inv, DoBusRecord;
      Record();
      PostHeld(0);
    }

    /** Give the caller its answer or call its notifier. */
    method Match()
      requires TakenUp(Contents())
      requires forall g, k :: 0 <= g < |lists| && 0 <= k < |lists[g]| ==> lists[g][k].msg < |pool.msgs|
      modifies this
      ensures Contents() == DoBusMatch(old(Contents()))
    {
      hide FindEntry;
      var id := tasks[0].handling.m;
      var r := pool.msgs[id];
      var found := SearchCalls(pool, lists[r.major], r.seqno);
      if found.None? {
        tasks := tasks[0 := tasks[0].(handling := Busy(id))];
        calls := CloseCall(calls, r.issue);
        return;
      }
      var e := lists[r.major][found.value];
      tasks := tasks[0 := tasks[0].(handling := Retiring(id, r.major, found.value))];
      calls := CloseCall(calls, e.issue);
      if e.sync {
        Answer(pool.msgs[e.msg].src, r.payload);
      } else {
        fired := fired + multiset{e.issue};
      }
    }

    /** Set the caller's variable and post a token. */
    method Answer(src: nat, payload: int)
      modifies `tasks
      ensures tasks == if src >= |old(tasks)| then old(tasks)
                       else old(tasks)[src := old(tasks)[src].(out := payload, callSem := old(tasks)[src].callSem + 1)]
    {
      if src < |tasks| {
        tasks := tasks[src := tasks[src].(out := payload)];
        tasks := tasks[src := tasks[src].(callSem := tasks[src].callSem + 1)];
      }
    }

    /** Release the call's message and unlink the entry. */
    method Retire()
      requires Enabled(Contents(), BusRetire)
      modifies this
      ensures Contents() == DoBusRetire(old(Contents()))
    {
      var h := tasks[0].handling;
      var list := lists[h.major];
      pool := Release(pool, list[h.k].msg);
      lists := lists[h.major := list[..h.k] + list[h.k + 1..]];
      tasks := tasks[0 := tasks[0].(handling := Busy(h.m))];
    }

    method ReleaseHandled(t: nat)
      requires Enabled(Contents(), Finish(t))
      modifies this
      ensures Contents() == DoFinish(old(Contents()), t)
    {
      pool := Release(pool, tasks[t].handling.m);
      tasks := tasks[t := tasks[t].(handling := Idle)];
    }

    method CallReturned()
      requires Inv(Contents()) && Enabled(Contents(), BusMatch)
      modifies this
      ensures ReplyHandled(old(Contents()), Contents()) && Inv(Contents())
    {
      hide Inv, FindEntry, EntriesOk, Enabled, DoBusMatch, DoBusRetire, DoFinish;
      MatchLeads(Contents());
      InHand(Contents(), BusMatch);
      InvParts(Contents());
      EntriesInRange(Contents());
      Match();
      if tasks[0].handling.Retiring? {
        FinishFollows(Contents());
        Retire();
      }
      StepKeeps(Contents(), Finish(0));
      ReleaseHandled(0);
    }
  }
}
