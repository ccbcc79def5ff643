/** In every reachable state each message is held in exactly as many places as its reference count says. */
module BusOwnership {
  import opened Options
  import opened MessagePool
  import opened Bus

  // ---- Counting the places that hold message x

  ghost function Occ(s: seq<nat>, x: nat): nat {
    if s == [] then 0 else (if s[0] == x then 1 else 0) + Occ(s[1..], x)
  }

  lemma {:induction false} OccConcat(a: seq<nat>, b: seq<nat>, x: nat)
    ensures Occ(a + b, x) == Occ(a, x) + Occ(b, x)
    decreases |a|
  {
    if a == [] {
      assert a + b == b;
    } else {
      assert (a + b)[1..] == a[1..] + b;
      OccConcat(a[1..], b, x);
    }
  }

  lemma {:induction false} OccAt(s: seq<nat>, k: nat)
    requires k < |s|
    ensures Occ(s, s[k]) > 0
  {
    if k > 0 { OccAt(s[1..], k - 1); }
  }

  ghost function Msgs(list: seq<Pending>): seq<nat> {
    seq(|list|, i requires 0 <= i < |list| => list[i].msg)
  }

  ghost function HandlingCount(h: Handling, x: nat): nat {
    if !h.Idle? && h.m == x then 1 else 0
  }

  /** A task holds what is in its queue, what it is about to post and what it is handling. */
  ghost function TaskCount(t: Task, x: nat): nat {
    Occ(t.queue, x) + (if t.held == Some(x) then 1 else 0) + HandlingCount(t.handling, x)
  }

  ghost function TasksCount(tasks: seq<Task>, x: nat): nat {
    if tasks == [] then 0 else TaskCount(tasks[0], x) + TasksCount(tasks[1..], x)
  }

  ghost function ListsCount(lists: seq<seq<Pending>>, x: nat): nat {
    if lists == [] then 0 else Occ(Msgs(lists[0]), x) + ListsCount(lists[1..], x)
  }

  /** Every place that holds x: tasks, entries of pending calls, and lost references. */
  ghost function Held(s: State, x: nat): nat {
    TasksCount(s.tasks, x) + ListsCount(s.lists, x) + s.leaked[x]
  }

  ghost function Holders(s: State): nat -> nat { x => Held(s, x) }

  ghost predicate Owned(s: State) { Sound(s.pool, Holders(s)) }

  /** Changing one task changes the whole by the difference. */
  lemma {:induction false} TaskUpdate(tasks: seq<Task>, t: nat, task: Task, x: nat)
    requires t < |tasks|
    ensures TasksCount(tasks[t := task], x) + TaskCount(tasks[t], x) == TasksCount(tasks, x) + TaskCount(task, x)
  {
    if t == 0 {
      assert tasks[0 := task][1..] == tasks[1..];
    } else {
      assert tasks[t := task][1..] == tasks[1..][t - 1 := task];
      TaskUpdate(tasks[1..], t - 1, task, x);
    }
  }

  lemma {:induction false} ListUpdate(lists: seq<seq<Pending>>, g: nat, list: seq<Pending>, x: nat)
    requires g < |lists|
    ensures ListsCount(lists[g := list], x) + Occ(Msgs(lists[g]), x) == ListsCount(lists, x) + Occ(Msgs(list), x)
  {
    if g == 0 {
      assert lists[0 := list][1..] == lists[1..];
    } else {
      assert lists[g := list][1..] == lists[1..][g - 1 := list];
      ListUpdate(lists[1..], g - 1, list, x);
    }
  }

  lemma {:induction false} TaskAtMost(tasks: seq<Task>, t: nat, x: nat)
    requires t < |tasks|
    ensures TaskCount(tasks[t], x) <= TasksCount(tasks, x)
  {
    if t > 0 { TaskAtMost(tasks[1..], t - 1, x); }
  }

  lemma {:induction false} ListAtMost(lists: seq<seq<Pending>>, g: nat, x: nat)
    requires g < |lists|
    ensures Occ(Msgs(lists[g]), x) <= ListsCount(lists, x)
  {
    if g > 0 { ListAtMost(lists[1..], g - 1, x); }
  }

  /** What a task holds is in use. */
  lemma TaskHolds(s: State, t: nat, id: nat)
    requires t < |s.tasks| && TaskCount(s.tasks[t], id) > 0
    ensures Held(s, id) > 0
    ensures Owned(s) ==> id < |s.pool.msgs| && id !in s.pool.free
  {
    TaskAtMost(s.tasks, t, id);
    if Owned(s) { HeldNotFree(s.pool, Holders(s), id); }
  }

  /** What an entry of a pending call holds is in use. */
  lemma EntryHolds(s: State, g: nat, k: nat)
    requires g < |s.lists| && k < |s.lists[g]|
    ensures Held(s, s.lists[g][k].msg) > 0
    ensures Owned(s) ==> s.lists[g][k].msg < |s.pool.msgs| && s.lists[g][k].msg !in s.pool.free
  {
    var id := s.lists[g][k].msg;
    assert Msgs(s.lists[g])[k] == id;
    OccAt(Msgs(s.lists[g]), k);
    ListAtMost(s.lists, g, id);
    if Owned(s) { HeldNotFree(s.pool, Holders(s), id); }
  }

  // ---- Each kind of step

  /** A task takes up a message from the free list. */
  lemma BuildOwned(s: State, t: nat, task: Task, m: Message, s': State)
    requires Owned(s) && t < |s.tasks| && CanAlloc(s.pool) && m.ref <= 1
    requires forall x: nat :: TaskCount(task, x) == TaskCount(s.tasks[t], x) + (if x == s.pool.free[0] then 1 else 0)
    requires s'.pool == Alloc(s.pool, m)
    requires s'.tasks == s.tasks[t := task] && s'.lists == s.lists && s'.leaked == s.leaked
    ensures Owned(s')
  {
    hide TaskCount;
    forall x: nat ensures Held(s', x) == Held(s, x) + (if x == s.pool.free[0] then 1 else 0) {
      TaskUpdate(s.tasks, t, task, x);
    }
    AllocSound(s.pool, Holders(s), m, Holders(s'));
  }

  /** Nothing changes as far as counts go. */
  lemma SameCountsOwned(s: State, s': State)
    requires Owned(s) && s'.pool == s.pool && forall x: nat :: Held(s', x) == Held(s, x)
    ensures Owned(s')
  {
    hide Held;
    forall id: nat ensures Holders(s')(id) == Holders(s)(id) {
      assert Held(s', id) == Held(s, id);
    }
    forall id | 0 <= id < |s.pool.msgs| ensures OwnedRight(s'.pool, Holders(s'), id) {
      assert OwnedRight(s.pool, Holders(s), id);
    }
  }

  lemma TaskMoveOwned(s: State, t: nat, task: Task, s': State)
    requires Owned(s) && t < |s.tasks| && forall x: nat :: TaskCount(task, x) == TaskCount(s.tasks[t], x)
    requires s'.pool == s.pool && s'.tasks == s.tasks[t := task] && s'.lists == s.lists && s'.leaked == s.leaked
    ensures Owned(s')
  {
    hide TaskCount, Owned;
    forall x: nat ensures Held(s', x) == Held(s, x) { TaskUpdate(s.tasks, t, task, x); }
    SameCountsOwned(s, s');
  }

  lemma AppendCount(task: Task, id: nat, x: nat)
    ensures TaskCount(task.(queue := task.queue + [id]), x) == TaskCount(task, x) + (if x == id then 1 else 0)
  {
    OccConcat(task.queue, [id], x);
  }

  lemma LetGoCount(task: Task, x: nat)
    requires task.held.Some?
    ensures TaskCount(task, x) == TaskCount(task.(held := None), x) + (if x == task.held.value then 1 else 0)
  {
  }

  lemma PostOwned(s: State, t: nat)
    requires Owned(s) && Enabled(s, Post(t))
    ensures Owned(Deliver(s, t))
  {
    hide Owned, TaskCount, Deliver;
    forall x: nat ensures Held(Deliver(s, t), x) == Held(s, x) { PostCounts(s, t, x); }
    hide Held;
    assert Deliver(s, t).pool == s.pool by { PostPool(s, t); }
    SameCountsOwned(s, Deliver(s, t));
  }

  lemma PostPool(s: State, t: nat)
    requires Enabled(s, Post(t))
    ensures Deliver(s, t).pool == s.pool
  {
  }

  lemma PostCounts(s: State, t: nat, x: nat)
    requires Enabled(s, Post(t))
    ensures Held(Deliver(s, t), x) == Held(s, x)
  {
    hide TaskCount;
    var s' := Deliver(s, t);
    var id := s.tasks[t].held.value;
    var task1 := s.tasks[t].(held := None);
    var s1 := SetTask(s, t, task1);
    var target := s.home[s.pool.msgs[id].dst];
    var task2 := s1.tasks[target].(queue := s1.tasks[target].queue + [id]);
    TaskUpdate(s.tasks, t, task1, x);
    LetGoCount(s.tasks[t], x);
    if |s1.tasks[target].queue| < s.capacity {
      AppendCount(s1.tasks[target], id, x);
      TaskUpdate(s1.tasks, target, task2, x);
    }
  }

  lemma ReceiveOwned(s: State, t: nat)
    requires Owned(s) && Enabled(s, Receive(t))
    ensures Owned(DoReceive(s, t))
  {
    hide Owned;
    TaskMoveOwned(s, t, DoReceive(s, t).tasks[t], DoReceive(s, t));
  }

  lemma RecordCounts(s: State, x: nat)
    requires Enabled(s, BusRecord)
    ensures Held(DoBusRecord(s), x) == Held(s, x) + (if x == s.tasks[0].handling.m then 1 else 0)
  {
    var id := s.tasks[0].handling.m;
    var m := s.pool.msgs[id];
    var list := s.lists[m.major];
    var entry := Pending(id, m.kind.SyncCall?, m.issue);
    TaskUpdate(s.tasks, 0, s.tasks[0].(handling := Idle, held := Some(id)), x);
    assert Msgs(list + [entry]) == Msgs(list) + [id];
    OccConcat(Msgs(list), [id], x);
    ListUpdate(s.lists, m.major, list + [entry], x);
  }

  lemma RecordOwned(s: State)
    requires Owned(s) && Enabled(s, BusRecord) && s.pool.msgs[s.tasks[0].handling.m].ref == 1
    ensures Owned(DoBusRecord(s))
  {
    hide Held, TaskCount;
    var s' := DoBusRecord(s);
    var id := s.tasks[0].handling.m;
    assert TaskCount(s.tasks[0], id) > 0 by { HandledCounts(s.tasks[0]); }
    TaskHolds(s, 0, id);
    forall x: nat ensures Held(s', x) == Held(s, x) + (if x == id then 1 else 0) { RecordCounts(s, x); }
    GetSound(s.pool, Holders(s), id, Holders(s'));
    AddressSound(Get(s.pool, id), Holders(s'), id, s.pool.msgs[id].major);
  }

  lemma HandledCounts(task: Task)
    requires !task.handling.Idle?
    ensures TaskCount(task, task.handling.m) > 0
  {
  }

  lemma MatchOwned(s: State)
    requires Owned(s) && Enabled(s, BusMatch)
    ensures Owned(DoBusMatch(s))
  {
    hide Owned, FindEntry;
    var s' := DoBusMatch(s);
    var id := s.tasks[0].handling.m;
    var r := s.pool.msgs[id];
    var found := FindEntry(s.pool, s.lists[r.major], r.seqno, 0);
    var task := s.tasks[0].(handling := if found.None? then Busy(id) else Retiring(id, r.major, found.value));
    var s1 := SetTask(s, 0, task);
    TaskMoveOwned(s, 0, task, s1);
    if found.Some? && s.lists[r.major][found.value].sync {
      var src := s.pool.msgs[s.lists[r.major][found.value].msg].src;
      if src < |s.tasks| {
        TaskMoveOwned(s1, src, s'.tasks[src], s');
      } else {
        TaskMoveOwned(s, 0, task, s');
      }
    } else {
      TaskMoveOwned(s, 0, task, s');
    }
  }

  lemma OccRemove(list: seq<Pending>, k: nat, x: nat)
    requires k < |list|
    ensures Occ(Msgs(list), x) == Occ(Msgs(list[..k] + list[k + 1..]), x) + (if x == list[k].msg then 1 else 0)
  {
    var front, back := Msgs(list)[..k], Msgs(list)[k + 1..];
    assert Msgs(list) == front + ([list[k].msg] + back);
    assert Msgs(list[..k] + list[k + 1..]) == front + back;
    OccConcat(front, [list[k].msg] + back, x);
    OccConcat([list[k].msg], back, x);
    OccConcat(front, back, x);
  }

  lemma RetireCounts(s: State, x: nat)
    requires Enabled(s, BusRetire)
    ensures var h := s.tasks[0].handling;
            Held(s, x) == Held(DoBusRetire(s), x) + (if x == s.lists[h.major][h.k].msg then 1 else 0)
  {
    hide Msgs, Occ;
    var h := s.tasks[0].handling;
    var list := s.lists[h.major];
    TaskUpdate(s.tasks, 0, s.tasks[0].(handling := Busy(h.m)), x);
    ListUpdate(s.lists, h.major, list[..h.k] + list[h.k + 1..], x);
    OccRemove(list, h.k, x);
  }

  lemma RetireOwned(s: State)
    requires Owned(s) && Enabled(s, BusRetire)
    ensures Owned(DoBusRetire(s))
  {
    hide Held;
    var s' := DoBusRetire(s);
    var h := s.tasks[0].handling;
    var id := s.lists[h.major][h.k].msg;
    EntryHolds(s, h.major, h.k);
    forall x: nat ensures Held(s, x) == Held(s', x) + (if x == id then 1 else 0) { RetireCounts(s, x); }
    ReleaseSound(s.pool, Holders(s), id, Holders(s'));
  }

  lemma FinishOwned(s: State, t: nat)
    requires Owned(s) && Enabled(s, Finish(t))
    ensures Owned(DoFinish(s, t))
    ensures s.tasks[t].handling.m !in s.pool.free
  {
    var s' := DoFinish(s, t);
    var id := s.tasks[t].handling.m;
    HandledCounts(s.tasks[t]);
    TaskHolds(s, t, id);
    forall x: nat ensures Held(s, x) == Held(s', x) + (if x == id then 1 else 0) {
      TaskUpdate(s.tasks, t, s.tasks[t].(handling := Idle), x);
    }
    hide Held;
    ReleaseSound(s.pool, Holders(s), id, Holders(s'));
  }

  lemma AbandonOwned(s: State, t: nat)
    requires Owned(s) && Enabled(s, Abandon(t))
    ensures Owned(LetGo(s, t))
  {
    hide Owned;
    var s' := LetGo(s, t);
    forall x: nat ensures Held(s', x) == Held(s, x) { TaskUpdate(s.tasks, t, s.tasks[t].(handling := Idle), x); }
    SameCountsOwned(s, s');
  }
}
