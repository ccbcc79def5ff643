/** What holds of messages in every run, whether looks have gone right or wrong. */
module BusLookPool {
  import opened Options
  import opened MessagePool
  import B = Bus
  import O = BusOwnership
  import C = BusCalls
  import S = BusSteps
  import T = BusTheorems
  import opened BusLook
  import opened BusLookProofs

  // ---- The invariant in every run

  /** Once something has gone wrong, callers may be anywhere: nothing else has changed. */
  ghost predicate CallersStray(s: B.State, s': B.State) {
    && !s'.sound && |s'.tasks| == |s.tasks|
    && s' == s.(tasks := s'.tasks, returned := s'.returned, sound := false)
    && forall t :: 0 <= t < |s.tasks| ==> s'.tasks[t] == s.tasks[t].(call := s'.tasks[t].call, callSem := s'.tasks[t].callSem)
  }

  lemma {:induction false} StrayCounts(tasks: seq<B.Task>, tasks': seq<B.Task>, x: nat)
    requires |tasks'| == |tasks|
    requires forall t :: 0 <= t < |tasks| ==> tasks'[t] == tasks[t].(call := tasks'[t].call, callSem := tasks'[t].callSem)
    ensures O.TasksCount(tasks', x) == O.TasksCount(tasks, x) && C.Flight(tasks', x) == C.Flight(tasks, x)
  {
    if tasks != [] { StrayCounts(tasks[1..], tasks'[1..], x); }
  }

  lemma StrayOwned(s: B.State, s': B.State)
    requires O.Owned(s) && CallersStray(s, s')
    ensures O.Owned(s')
  {
    forall x: nat ensures O.Held(s', x) == O.Held(s, x) { StrayCounts(s.tasks, s'.tasks, x); }
    hide O.Held, O.Owned;
    O.SameCountsOwned(s, s');
  }

  lemma StrayFlight(s: B.State, s': B.State)
    requires C.InFlightOk(s) && CallersStray(s, s')
    ensures C.InFlightOk(s')
  {
    hide C.Flight;
    forall x: nat ensures C.Flight(s'.tasks, x) <= 1 && (C.Flight(s'.tasks, x) == 1 ==> C.FlightOk(s', x)) {
      StrayCounts(s.tasks, s'.tasks, x);
      if C.Flight(s.tasks, x) == 1 { assert C.FlightOk(s, x); }
    }
  }

  lemma StrayTasks(s: B.State, s': B.State)
    requires C.TasksOk(s) && CallersStray(s, s')
    ensures C.TasksOk(s')
  {
    forall t | 0 <= t < |s'.tasks| ensures C.TaskOk(s', t) {
      assert C.TaskOk(s, t);
      forall k | 0 <= k < |s'.tasks[t].queue| ensures C.PlacedOk(s', t, s'.tasks[t].queue[k]) {
        assert C.PlacedOk(s, t, s.tasks[t].queue[k]);
      }
    }
  }

  lemma StrayCalls(s: B.State, s': B.State)
    requires B.Configured(s) && C.CallsOk(s) && C.LiveDiffer(s) && C.SubsOk(s) && C.HistoryOk(s) && CallersStray(s, s')
    ensures B.Configured(s') && C.CallsOk(s') && C.LiveDiffer(s') && C.SubsOk(s') && C.HistoryOk(s')
  {
    forall i | i in s'.calls ensures C.CallOk(s', i) { assert C.CallOk(s, i); }
  }

  lemma StrayEntries(s: B.State, s': B.State)
    requires C.EntriesOk(s) && CallersStray(s, s')
    ensures C.EntriesOk(s')
  {
    forall g, k | 0 <= g < |s'.lists| && 0 <= k < |s'.lists[g]| ensures C.EntryOk(s', g, k) { assert C.EntryOk(s, g, k); }
  }

  lemma StrayInv(s: B.State, s': B.State)
    requires C.Inv(s) && CallersStray(s, s')
    ensures C.Inv(s')
  {
    hide O.Owned, C.InFlightOk, C.TasksOk, C.CallsOk, C.LiveDiffer, C.EntriesOk, C.SubsOk, C.HistoryOk;
    StrayOwned(s, s');
    StrayFlight(s, s');
    StrayTasks(s, s');
    StrayCalls(s, s');
    StrayEntries(s, s');
  }

  /** The invariant, of which waiting callers are a part only while looks have been right. */
  ghost predicate AnyInv(f: State) {
    C.Inv(f.bus) && AllClaimsOk(f) && (f.bus.sound ==> CleanInv(f))
  }

  lemma ComeBackStrays(s: B.State, t: nat)
    requires t < |s.tasks| && !s.sound
    ensures CallersStray(s, ComeBack(s, t))
  {
  }

  lemma StrayTwice(s: B.State, mid: B.State, s': B.State)
    requires CallersStray(s, mid) && CallersStray(mid, s')
    ensures CallersStray(s, s')
  {
  }

  lemma StrayLook(f: State, e: Step)
    requires Enabled(f, e) && !e.Do? && !Next(f, e).bus.sound
    ensures CallersStray(f.bus, Next(f, e).bus)
  {
    if e.LookAt? {
      var mid := f.bus.(sound := false);
      assert CallersStray(f.bus, mid);
      ComeBackStrays(mid, e.t);
      hide CallersStray, ComeBack;
      StrayTwice(f.bus, mid, ComeBack(mid, e.t));
    } else {
      WakeSound(f, e.t);
      var u := f.waits[e.t].value;
      var mid := B.SetTask(f.bus, u, f.bus.tasks[u].(callSem := f.bus.tasks[u].callSem - 1));
      assert CallersStray(f.bus, mid);
      ComeBackStrays(mid, e.t);
      hide CallersStray, ComeBack;
      StrayTwice(f.bus, mid, ComeBack(mid, e.t));
    }
  }

  lemma WakeSound(f: State, t: nat)
    requires Enabled(f, Wake(t))
    ensures Next(f, Wake(t)).bus.sound == f.bus.sound
  {
  }

  lemma AnyStep(f: State, e: Step)
    requires AnyInv(f) && Enabled(f, e)
    ensures AnyInv(Next(f, e))
  {
    ClaimsStep(f, e);
    hide C.Inv, AllClaimsOk, CleanInv;
    if f.bus.sound && Next(f, e).bus.sound {
      SoundRight(f, e);
      CleanStep(f, e);
      CleanIsInv(Next(f, e));
    } else if e.Do? {
      DoShape(f, e.e);
      S.StepKeeps(f.bus, e.e);
      T.StillSound(f.bus, e.e);
    } else {
      if e.Wake? { WakeSound(f, e.t); }
      LookSound(f, e);
      StrayLook(f, e);
      StrayInv(f.bus, Next(f, e).bus);
    }
  }

  lemma LookSound(f: State, e: Step)
    requires Enabled(f, e) && !e.Do? && !(f.bus.sound && Next(f, e).bus.sound)
    ensures !Next(f, e).bus.sound
  {
  }

  lemma SoundRight(f: State, e: Step)
    requires Enabled(f, e) && Next(f, e).bus.sound
    ensures LooksRight(f, e)
  {
  }

  lemma CleanIsInv(f: State)
    requires CleanInv(f) && f.bus.sound
    ensures C.Inv(f.bus)
  {
    SoundBus(f);
  }

  /** In every run, whatever looks have decided, every state satisfies the invariant but for waiting callers. */
  lemma {:induction false} RunAny(states: seq<State>, steps: seq<Step>, n: nat)
    requires Run(states, steps) && n < |states|
    ensures AnyInv(states[n])
  {
    if n == 0 {
      CleanStart(states[0]);
      SoundBus(states[0]);
    } else {
      RunAny(states, steps, n - 1);
      hide AnyInv, Enabled, Next;
      AnyStep(states[n - 1], steps[n - 1]);
    }
  }

  // ---- The message pool in every run

  /** count is the length of the free list, free messages are held nowhere, all others as often as they say. */
  lemma PoolAccounts(states: seq<State>, steps: seq<Step>, n: nat, id: nat)
    requires Run(states, steps) && n < |states|
    ensures var s := states[n].bus;
            && s.pool.count == |s.pool.free| && NoRepeats(s.pool.free) && |s.pool.msgs| == MBLUE_MAX_MESSAGE_NUM
            && (id < MBLUE_MAX_MESSAGE_NUM ==> O.Held(s, id) == if id in s.pool.free then 0 else Owners(s.pool.msgs[id]))
  {
    RunAny(states, steps, n);
    var s := states[n].bus;
    if id < MBLUE_MAX_MESSAGE_NUM { assert OwnedRight(s.pool, O.Holders(s), id); }
  }

  /** What a step releases, if it releases something. */
  ghost function Released(f: State, e: Step): Option<nat> { if e.Do? then T.Released(f.bus, e.e) else None }

  /** No step puts back a message that is free already, and nothing but the release of its last holder puts one back. */
  lemma NeverPutTwice(states: seq<State>, steps: seq<Step>, n: nat)
    requires Run(states, steps) && n < |steps|
    ensures var f, f' := states[n], states[n + 1];
            && (Released(f, steps[n]).Some? ==> Released(f, steps[n]).value !in f.bus.pool.free)
            && (forall id :: id in f'.bus.pool.free && id !in f.bus.pool.free
                  ==> Released(f, steps[n]) == Some(id) && O.Held(f.bus, id) == 1)
  {
    var f, e := states[n], steps[n];
    RunAny(states, steps, n);
    assert Enabled(f, e) && states[n + 1] == Next(f, e);
    if e.Do? {
      DoShape(f, e.e);
      hide Run, C.Inv, DoStep, B.Enabled, B.Next, T.Released;
      T.ReleasesHeld(f.bus, e.e);
      T.FreedByRelease(f.bus, e.e);
      T.ReleaseSoundOnce(f.bus, e.e);
    } else {
      LookFrame(f, e);
    }
  }

  lemma LeakedStays(f: State, e: Step, x: nat)
    requires Enabled(f, e)
    ensures f.bus.leaked[x] <= Next(f, e).bus.leaked[x]
  {
    if e.Do? {
      DoShape(f, e.e);
      hide B.Enabled, B.Next, DoStep;
      T.LeakedStays(f.bus, e.e, x);
    }
  }

  lemma {:induction false} LeakedGrows(states: seq<State>, steps: seq<Step>, n: nat, k: nat, x: nat)
    requires Run(states, steps) && n <= k < |states|
    ensures states[n].bus.leaked[x] <= states[k].bus.leaked[x]
    decreases k
  {
    hide *;
    if n < k {
      StepOf(states, steps, k - 1);
      LeakedGrows(states, steps, n, k - 1, x);
      LeakedStays(states[k - 1], steps[k - 1], x);
    }
  }

  /** Once a reference to a message is lost, the message is never free again. */
  lemma NeverFreeAgain(states: seq<State>, steps: seq<Step>, n: nat, k: nat, x: nat)
    requires Run(states, steps) && n <= k < |states| && states[n].bus.leaked[x] > 0
    ensures x < MBLUE_MAX_MESSAGE_NUM && x !in states[k].bus.pool.free
  {
    LeakedGrows(states, steps, n, k, x);
    RunAny(states, steps, k);
    hide Run;
    HeldNotFree(states[k].bus.pool, O.Holders(states[k].bus), x);
  }

  /** Messages with lost references are missing from the pool for good. */
  lemma PoolShrinks(states: seq<State>, steps: seq<Step>, n: nat, k: nat, lost: set<nat>)
    requires Run(states, steps) && n <= k < |states| && forall x :: x in lost ==> states[n].bus.leaked[x] > 0
    ensures states[k].bus.pool.count + |lost| <= MBLUE_MAX_MESSAGE_NUM
  {
    RunAny(states, steps, k);
    var free := states[k].bus.pool.free;
    forall x | x in lost ensures x < MBLUE_MAX_MESSAGE_NUM && x !in free { NeverFreeAgain(states, steps, n, k, x); }
    hide Run;
    T.AtMostBelow(free, lost, MBLUE_MAX_MESSAGE_NUM);
  }

  /** The reference count never exceeds two, so its sixteen bits suffice. */
  lemma {:induction false} AtMostTwoReferences(states: seq<State>, steps: seq<Step>, n: nat)
    requires Run(states, steps) && n < |states|
    ensures T.FewRefs(states[n].bus)
  {
    if n > 0 {
      AtMostTwoReferences(states, steps, n - 1);
      RunAny(states, steps, n - 1);
      var f, e := states[n - 1], steps[n - 1];
      assert Enabled(f, e) && states[n] == Next(f, e);
      if e.Do? {
        DoShape(f, e.e);
        hide Run, C.Inv, DoStep, B.Enabled, B.Next, T.FewRefs;
        if e.e.BusRecord? || e.e.BusReplicate? { T.CountedOnce(f.bus, e.e); }
        T.RefsStay(f.bus, e.e);
      } else {
        LookFrame(f, e);
      }
    }
  }

  // ---- Replies and notifiers in every run

  /** A notifier fires at most once, for an asynchronous call that the service has answered. */
  lemma NotifierFiresOnce(states: seq<State>, steps: seq<Step>, n: nat, i: nat)
    requires Run(states, steps) && n < |states|
    ensures states[n].bus.fired[i] <= 1
    ensures states[n].bus.fired[i] == 1 ==>
              i in states[n].bus.calls && !states[n].bus.calls[i].sync && i in states[n].bus.replied
  {
    RunAny(states, steps, n);
    assert i in states[n].bus.fired <==> states[n].bus.fired[i] > 0;
  }

  /** The bus pairs a reply with the entry of the call it answers, although it compares sequence numbers only. */
  lemma ReplyMeetsItsCall(states: seq<State>, steps: seq<Step>, n: nat)
    requires Run(states, steps) && n < |steps| && steps[n] == Do(B.BusMatch)
    ensures var s := states[n].bus;
            && |s.tasks| > 0 && s.tasks[0].handling.Fresh? && s.tasks[0].handling.m < |s.pool.msgs|
            && var r := s.pool.msgs[s.tasks[0].handling.m];
            && r.major < |s.lists| && r.issue in s.calls
            && var found := B.FindEntry(s.pool, s.lists[r.major], r.seqno, 0);
            && (found.Some? <==> s.calls[r.issue].Wants())
            && (found.Some? ==> s.lists[r.major][found.value].issue == r.issue)
  {
    assert Enabled(states[n], steps[n]);
    RunAny(states, steps, n);
    S.MatchFinds(states[n].bus);
  }

  /**
   * A call that lost its message before it got an entry stays lost: no entry is its, no notifier fires for it,
   * and as long as looks are right its caller never returns.
   */
  lemma {:induction false} LostForGood(states: seq<State>, steps: seq<Step>, n: nat, k: nat, i: nat)
    requires Run(states, steps) && n <= k < |states| && T.IsLost(states[n].bus, i)
    ensures var s := states[k].bus;
            && T.IsLost(s, i) && i !in s.fired && (s.sound ==> i !in s.returned)
            && (forall g, j :: 0 <= g < |s.lists| && 0 <= j < |s.lists[g]| ==> s.lists[g][j].issue != i)
    decreases k
  {
    hide *;
    if n < k {
      StepOf(states, steps, k - 1);
      RunAny(states, steps, k - 1);
      LostForGood(states, steps, n, k - 1, i);
      LostStep(states[k - 1], steps[k - 1], i);
    }
    RunAny(states, steps, k);
    AnyIsInv(states[k]);
    T.LostHasNothing(states[k].bus, i);
  }

  lemma AnyIsInv(f: State)
    requires AnyInv(f)
    ensures C.Inv(f.bus)
  {
  }

  lemma LostStep(f: State, e: Step, i: nat)
    requires AnyInv(f) && Enabled(f, e) && T.IsLost(f.bus, i)
    ensures T.IsLost(Next(f, e).bus, i)
  {
    if e.Do? {
      DoShape(f, e.e);
      hide B.Enabled, B.Next, DoStep, C.Inv;
      T.LostUnmoved(f.bus, e.e, i);
      T.LostStays(f.bus, e.e, i);
    }
  }

  /** Whatever is built can be posted, whatever is queued can be taken, whatever the bus has taken it can handle. */
  lemma NothingDangles(states: seq<State>, steps: seq<Step>, n: nat, t: nat)
    requires Run(states, steps) && n < |states| && t < |states[n].bus.tasks|
    ensures T.NothingStuck(states[n].bus, t)
  {
    RunAny(states, steps, n);
    hide T.NothingStuck, C.Inv;
    T.NothingDangles(states[n].bus, t);
  }
}
