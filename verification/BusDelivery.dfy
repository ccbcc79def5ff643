/**
 * Who gets what, in every run: messages say what their builders put into them, a signal goes to exactly the
 * subscribers of its segment, queues hand over in order, and a call arrives at the segment it is for.
 */
module BusDelivery {
  import opened Options
  import opened MessagePool
  import B = Bus
  import O = BusOwnership
  import C = BusCalls
  import T = BusTheorems
  import opened BusMoves
  import opened BusLook
  import P = BusLookProofs
  import A = BusLookPool

  // ---- Looks and wakes are no part of it

  /** What messages are delivered by: the pool, queues, hands, subscriptions, lost references. */
  ghost predicate Untouched(s: B.State, s': B.State) {
    && s'.pool == s.pool && s'.subs == s.subs && s'.leaked == s.leaked && |s'.tasks| == |s.tasks|
    && forall t :: 0 <= t < |s.tasks| ==>
         s'.tasks[t].queue == s.tasks[t].queue && s'.tasks[t].held == s.tasks[t].held && s'.tasks[t].handling == s.tasks[t].handling
  }

  lemma LookLeaves(f: State, e: Step)
    requires Enabled(f, e) && !e.Do?
    ensures Untouched(f.bus, Next(f, e).bus)
  {
  }

  lemma DoIsStep(f: State, e: Step)
    requires Enabled(f, e) && e.Do?
    ensures B.Enabled(f.bus, e.e) && Next(f, e).bus == B.Next(f.bus, e.e)
  {
    P.DoShape(f, e.e);
  }

  lemma MessageStays(f: State, e: Step, x: nat)
    requires Enabled(f, e) && x < |f.bus.pool.msgs| && x !in f.bus.pool.free
    ensures Keeps(f.bus.pool, Next(f, e).bus.pool, x)
  {
    if e.Do? {
      DoIsStep(f, e);
      hide *;
      ContentStays(f.bus, e.e, x);
    } else {
      LookLeaves(f, e);
      hide Enabled, Next;
      PoolKeeps(f.bus.pool, x);
    }
  }

  lemma KeepsOn(p: Pool, p1: Pool, p2: Pool, x: nat)
    requires Keeps(p, p1, x) && Keeps(p1, p2, x)
    ensures Keeps(p, p2, x)
  {
  }

  lemma RunLength(states: seq<State>, steps: seq<Step>)
    requires Run(states, steps)
    ensures |states| == |steps| + 1
  {
  }

  lemma RunInv(states: seq<State>, steps: seq<Step>, n: nat)
    requires Run(states, steps) && n < |states|
    ensures C.Inv(states[n].bus)
  {
    hide *;
    A.RunAny(states, steps, n);
    A.AnyIsInv(states[n]);
  }

  /** What a task has in its queue, in its hand or in its handler is in use. */
  lemma InUse(states: seq<State>, steps: seq<Step>, n: nat, t: nat, x: nat)
    requires Run(states, steps) && n < |states| && t < |states[n].bus.tasks|
    requires var task := states[n].bus.tasks[t];
             x in task.queue || task.held == Some(x) || (!task.handling.Idle? && task.handling.m == x)
    ensures x < |states[n].bus.pool.msgs| && x !in states[n].bus.pool.free
  {
    RunInv(states, steps, n);
    hide Run;
    var s := states[n].bus;
    var task := s.tasks[t];
    if x in task.queue {
      var k :| 0 <= k < |task.queue| && task.queue[k] == x;
      O.OccAt(task.queue, k);
    }
    InvOwned(s);
    hide O.Owned, C.Inv;
    O.TaskHolds(s, t, x);
  }

  lemma InvOwned(s: B.State)
    requires C.Inv(s)
    ensures O.Owned(s)
  {
  }

  // ---- Every message says what its builder put into it

  /** Step j of the run built a message that says what m says. */
  ghost predicate BuiltAt(states: seq<State>, steps: seq<Step>, j: nat, m: Message)
    requires |states| == |steps| + 1
  {
    j < |steps| && steps[j].Do? && Says(states[j].bus, steps[j].e, m)
  }

  lemma StartsFree(f: State, x: nat)
    requires Init(f) && x < |f.bus.pool.msgs|
    ensures x in f.bus.pool.free
  {
    assert OwnedRight(f.bus.pool, Nobody(), x);
  }

  /** A message that has just been taken was built by this step, or copied from one that was in use. */
  lemma JustBuilt(f: State, e: Step, x: nat)
    requires Enabled(f, e) && x in f.bus.pool.free && x !in Next(f, e).bus.pool.free && x < |Next(f, e).bus.pool.msgs|
    ensures e.Do?
    ensures e.e.BusReplicate? ==>
              (f.bus.tasks != [] && !f.bus.tasks[0].handling.Idle? && f.bus.tasks[0].handling.m < |f.bus.pool.msgs|
               && Same(f.bus.pool.msgs[f.bus.tasks[0].handling.m], Next(f, e).bus.pool.msgs[x]))
    ensures !e.e.BusReplicate? ==> Says(f.bus, e.e, Next(f, e).bus.pool.msgs[x])
  {
    if e.Do? {
      DoIsStep(f, e);
      hide Enabled, Next;
      ReplicateHolds(f.bus, e.e);
      TakenBuilt(f.bus, e.e, x);
    } else {
      LookLeaves(f, e);
    }
  }

  lemma ReplicateHolds(s: B.State, e: B.Step)
    requires B.Enabled(s, e)
    ensures e.BusReplicate? ==> s.tasks != [] && s.tasks[0].handling.Casting? && s.tasks[0].handling.m < |s.pool.msgs| && CanAlloc(s.pool)
  {
  }

  lemma TakenBuilt(s: B.State, e: B.Step, x: nat)
    requires B.Enabled(s, e) && x in s.pool.free && x !in B.Next(s, e).pool.free && x < |B.Next(s, e).pool.msgs|
    requires e.BusReplicate? ==> s.tasks != [] && s.tasks[0].handling.Casting? && s.tasks[0].handling.m < |s.pool.msgs| && CanAlloc(s.pool)
    ensures e.BusReplicate? ==> Same(s.pool.msgs[s.tasks[0].handling.m], B.Next(s, e).pool.msgs[x])
    ensures !e.BusReplicate? ==> Says(s, e, B.Next(s, e).pool.msgs[x])
  {
    hide B.Enabled, B.Next;
    TakenFirst(s, e, x);
    if e.BusReplicate? { CopyMade(s); } else { BuiltAsAsked(s, e); }
  }

  /**
   * Every message in use says what some earlier step of the run built: a call its caller, kind, segment,
   * arguments and number, a signal or subscription its sender, segment and payload, a reply its call and value.
   */
  lemma {:induction false} Genuine(states: seq<State>, steps: seq<Step>, n: nat, x: nat) returns (j: nat)
    requires Run(states, steps) && n < |states| && x < |states[n].bus.pool.msgs| && x !in states[n].bus.pool.free
    ensures j < n && BuiltAt(states, steps, j, states[n].bus.pool.msgs[x])
    decreases n
  {
    if n == 0 {
      StartsFree(states[0], x);
      assert false;
    } else {
      P.StepOf(states, steps, n - 1);
      var f, e, f' := states[n - 1], steps[n - 1], states[n];
      SameCount(f, e);
      hide Enabled, Next, Run;
      if x !in f.bus.pool.free {
        MessageStays(f, e, x);
        j := Genuine(states, steps, n - 1, x);
        SaysTheSame(states[j].bus, steps[j].e, f.bus.pool.msgs[x], f'.bus.pool.msgs[x]);
      } else {
        JustBuilt(f, e, x);
        if e.e.BusReplicate? {
          var m := f.bus.tasks[0].handling.m;
          InUse(states, steps, n - 1, 0, m);
          j := Genuine(states, steps, n - 1, m);
          SaysTheSame(states[j].bus, steps[j].e, f.bus.pool.msgs[m], f'.bus.pool.msgs[x]);
        } else {
          j := n - 1;
        }
      }
    }
  }

  lemma SameCount(f: State, e: Step)
    requires Enabled(f, e)
    ensures |Next(f, e).bus.pool.msgs| == |f.bus.pool.msgs| && |Next(f, e).bus.tasks| == |f.bus.tasks|
  {
    if e.Do? {
      DoIsStep(f, e);
      hide Enabled, Next;
      P.SameLengths(f.bus, e.e);
    } else {
      LookLeaves(f, e);
    }
  }

  // ---- From the hand into a queue

  lemma HandStays(f: State, e: Step, t: nat)
    requires Enabled(f, e) && t < |f.bus.tasks| && f.bus.tasks[t].held.Some? && e != Do(B.Post(t))
    ensures |Next(f, e).bus.tasks| == |f.bus.tasks| && Next(f, e).bus.tasks[t].held == f.bus.tasks[t].held
  {
    if e.Do? {
      DoIsStep(f, e);
      if Builds(e.e) || e.e.BusRecord? { P.EmptyHand(f, e.e); }
      hide Enabled, Next, B.Enabled, B.Next;
      P.HandsMove(f.bus, e.e, t);
    } else {
      LookLeaves(f, e);
    }
  }

  /** What a task has built stays in its hand, as it was built, until the task posts it. */
  lemma {:induction false} HeldUntilPosted(states: seq<State>, steps: seq<Step>, n: nat, p: nat, t: nat)
    requires Run(states, steps) && n <= p < |states| && t < |states[n].bus.tasks| && states[n].bus.tasks[t].held.Some?
    requires forall i :: n <= i < p ==> steps[i] != Do(B.Post(t))
    ensures var s, s', id := states[n].bus, states[p].bus, states[n].bus.tasks[t].held.value;
            && |s'.tasks| == |s.tasks| && s'.tasks[t].held == Some(id) && Keeps(s.pool, s'.pool, id)
    decreases p
  {
    hide Run, Enabled, Next, Keeps;
    var id := states[n].bus.tasks[t].held.value;
    if n == p {
      InUse(states, steps, n, t, id);
      PoolKeeps(states[n].bus.pool, id);
    } else {
      HeldUntilPosted(states, steps, n, p - 1, t);
      P.StepOf(states, steps, p - 1);
      InUse(states, steps, p - 1, t, id);
      HandStays(states[p - 1], steps[p - 1], t);
      MessageStays(states[p - 1], steps[p - 1], id);
      KeepsOn(states[n].bus.pool, states[p - 1].bus.pool, states[p].bus.pool, id);
    }
  }

  // ---- Queues

  /** How often task q takes a message in steps n to k - 1. */
  ghost function Taken(steps: seq<Step>, n: nat, k: nat, q: nat): nat
    requires n <= k <= |steps|
  {
    if n == k then 0 else Taken(steps, n, k - 1, q) + (if steps[k - 1] == Do(B.Receive(q)) then 1 else 0)
  }

  lemma QueueStays(f: State, e: Step, q: nat, j: nat)
    requires Enabled(f, e) && q < |f.bus.tasks| && j < |f.bus.tasks[q].queue|
    ensures var task, f' := f.bus.tasks[q], Next(f, e);
            && |f'.bus.tasks| == |f.bus.tasks|
            && (e != Do(B.Receive(q)) ==> j < |f'.bus.tasks[q].queue| && f'.bus.tasks[q].queue[j] == task.queue[j])
            && (e == Do(B.Receive(q)) && j > 0 ==> j <= |f'.bus.tasks[q].queue| && f'.bus.tasks[q].queue[j - 1] == task.queue[j])
  {
    if e.Do? {
      DoIsStep(f, e);
      hide Enabled, Next, B.Enabled, B.Next;
      QueueMoves(f.bus, e.e, q);
    } else {
      LookLeaves(f, e);
    }
  }

  /** A queued message moves up by one whenever its task takes one, and says what it said; so the j-th is taken after j others. */
  lemma {:induction false} QueueInOrder(states: seq<State>, steps: seq<Step>, n: nat, k: nat, q: nat, j: nat)
    requires Run(states, steps) && n <= k < |states| && q < |states[n].bus.tasks|
    requires j < |states[n].bus.tasks[q].queue| && Taken(steps, n, k, q) <= j
    ensures var s, s', r := states[n].bus, states[k].bus, j - Taken(steps, n, k, q);
            && |s'.tasks| == |s.tasks| && r < |s'.tasks[q].queue|
            && s'.tasks[q].queue[r] == s.tasks[q].queue[j] && Keeps(s.pool, s'.pool, s.tasks[q].queue[j])
    decreases k
  {
    hide Run, Enabled, Next, Keeps;
    var id := states[n].bus.tasks[q].queue[j];
    if n == k {
      InUse(states, steps, n, q, id);
      PoolKeeps(states[n].bus.pool, id);
    } else {
      QueueInOrder(states, steps, n, k - 1, q, j);
      P.StepOf(states, steps, k - 1);
      InUse(states, steps, k - 1, q, id);
      QueueStays(states[k - 1], steps[k - 1], q, j - Taken(steps, n, k - 1, q));
      MessageStays(states[k - 1], steps[k - 1], id);
      KeepsOn(states[n].bus.pool, states[k - 1].bus.pool, states[k].bus.pool, id);
    }
  }

  // ---- Subscriptions

  /** The subscriptions to segment g that the bus handled in the first n steps, in order. */
  ghost function Subscriptions(states: seq<State>, steps: seq<Step>, n: nat, g: nat): seq<int>
    requires |states| == |steps| + 1 && n <= |steps|
  {
    if n == 0 then []
    else
      Subscriptions(states, steps, n - 1, g) +
      (var s := states[n - 1].bus;
       if steps[n - 1] == Do(B.BusSubscribe) && B.BusHas(s, Subscribe) && s.pool.msgs[s.tasks[0].handling.m].major == g
       then [s.pool.msgs[s.tasks[0].handling.m].payload] else [])
  }

  lemma SubsStep(f: State, e: Step, g: nat)
    requires Enabled(f, e) && g < |f.bus.subs|
    ensures var s, s' := f.bus, Next(f, e).bus;
            && |s'.subs| == |s.subs|
            && s'.subs[g] == s.subs[g] +
                 (if e == Do(B.BusSubscribe) && B.BusHas(s, Subscribe) && s.pool.msgs[s.tasks[0].handling.m].major == g
                     && s.pool.msgs[s.tasks[0].handling.m].payload > 0
                  then [s.pool.msgs[s.tasks[0].handling.m].payload] else [])
            && (e == Do(B.BusSubscribe) ==> B.BusHas(s, Subscribe) && s.pool.msgs[s.tasks[0].handling.m].payload > 0)
  {
    if e.Do? {
      DoIsStep(f, e);
      hide Enabled, Next, B.Enabled, B.Next;
      SubsMove(f.bus, e.e);
    } else {
      LookLeaves(f, e);
    }
  }

  /** The subscribers of a segment are those whose subscription the bus has handled, in order; none is ever dropped. */
  lemma {:induction false} SubscribersAre(states: seq<State>, steps: seq<Step>, n: nat, g: nat)
    requires Run(states, steps) && n < |states| && g < |states[0].bus.subs|
    ensures |states[n].bus.subs| == |states[0].bus.subs| && states[n].bus.subs[g] == Subscriptions(states, steps, n, g)
  {
    if n == 0 {
      NoSubscribers(states[0], g);
    } else {
      SubscribersAre(states, steps, n - 1, g);
      P.StepOf(states, steps, n - 1);
      hide Enabled, Next, Run, B.BusHas;
      SubsStep(states[n - 1], steps[n - 1], g);
    }
  }

  lemma NoSubscribers(f: State, g: nat)
    requires Init(f) && g < |f.bus.subs|
    ensures f.bus.subs[g] == []
  {
  }

  // ---- Signals

  /** How many copies the bus builds in steps n to k - 1. */
  ghost function Copies(steps: seq<Step>, n: nat, k: nat): nat
    requires n <= k <= |steps|
  {
    if n == k then 0 else Copies(steps, n, k - 1) + (if steps[k - 1] == Do(B.BusReplicate) then 1 else 0)
  }

  lemma SignalTakenUp(f: State)
    requires Enabled(f, Do(B.BusSignal))
    ensures var s, s' := f.bus, Next(f, Do(B.BusSignal)).bus;
            && s.tasks != [] && s.tasks[0].handling.Fresh? && s.tasks[0].handling.m < |s.pool.msgs|
            && var m := s.tasks[0].handling.m;
            && s.pool.msgs[m].kind.Signal? && s.pool.msgs[m].major < |s.subs|
            && |s'.tasks| == |s.tasks| && s'.tasks[0].handling == B.Casting(m, s.subs[s.pool.msgs[m].major])
  {
    DoIsStep(f, Do(B.BusSignal));
  }

  lemma CastStep(f: State, e: Step)
    requires Enabled(f, e) && f.bus.tasks != [] && f.bus.tasks[0].handling.Casting? && e != Do(B.Finish(0))
    ensures var h, s' := f.bus.tasks[0].handling, Next(f, e).bus;
            && |s'.tasks| == |f.bus.tasks|
            && (e == Do(B.BusReplicate) ==> h.left != [] && s'.tasks[0].handling == B.Casting(h.m, h.left[1..]))
            && (e != Do(B.BusReplicate) ==> s'.tasks[0].handling == h)
  {
    if e.Do? {
      DoIsStep(f, e);
      hide Enabled, Next;
      if e.e.BusReplicate? { CopyMade(f.bus); } else { CastingStays(f.bus, e.e); }
    } else {
      LookLeaves(f, e);
    }
  }

  /** While the bus serves a signal it has made as many copies as subscribers are served, and the signal stays as it was. */
  lemma {:induction false} Serving(states: seq<State>, steps: seq<Step>, a: nat, n: nat)
    requires Run(states, steps) && a < n < |states| && steps[a] == Do(B.BusSignal)
    requires forall i :: a < i < n ==> steps[i] != Do(B.Finish(0))
    ensures var s, s', c := states[a].bus, states[n].bus, Copies(steps, a + 1, n);
            && s.tasks != [] && s.tasks[0].handling.Fresh? && s.tasks[0].handling.m < |s.pool.msgs|
            && var m := s.tasks[0].handling.m;
            && s.pool.msgs[m].kind.Signal? && s.pool.msgs[m].major < |s.subs|
            && var list := s.subs[s.pool.msgs[m].major];
            && c <= |list| && |s'.tasks| == |s.tasks| && s'.tasks[0].handling == B.Casting(m, list[c..])
            && Keeps(s.pool, s'.pool, m)
    decreases n
  {
    hide Run, Enabled, Next, Keeps;
    P.StepOf(states, steps, a);
    SignalTakenUp(states[a]);
    var s := states[a].bus;
    var m := s.tasks[0].handling.m;
    var list := s.subs[s.pool.msgs[m].major];
    if n == a + 1 {
      InUse(states, steps, a, 0, m);
      MessageStays(states[a], steps[a], m);
      assert list[0..] == list;
    } else {
      Serving(states, steps, a, n - 1);
      P.StepOf(states, steps, n - 1);
      InUse(states, steps, n - 1, 0, m);
      CastStep(states[n - 1], steps[n - 1]);
      MessageStays(states[n - 1], steps[n - 1], m);
      KeepsOn(s.pool, states[n - 1].bus.pool, states[n].bus.pool, m);
      var c := Copies(steps, a + 1, n - 1);
      assert list[c..] != [] ==> list[c..][1..] == list[c + 1..];
    }
  }

  /**
   * A signal about segment g goes to exactly the subscribers of g. From the moment the bus takes it up until it
   * releases it, the c-th copy it builds is addressed to the c-th subscriber and says what the signal said; it
   * releases the signal after as many copies as there were subscribers. The subscribers are those of the handled
   * subscriptions to g.
   */
  lemma SignalServed(states: seq<State>, steps: seq<Step>, a: nat, n: nat)
    requires Run(states, steps) && a < n < |steps| && steps[a] == Do(B.BusSignal)
    requires forall i :: a < i < n ==> steps[i] != Do(B.Finish(0))
    ensures var s, s' := states[a].bus, states[n + 1].bus;
            && s.tasks != [] && s.tasks[0].handling.Fresh? && s.tasks[0].handling.m < |s.pool.msgs|
            && var signal, c := s.pool.msgs[s.tasks[0].handling.m], Copies(steps, a + 1, n);
            && var list := Subscriptions(states, steps, a, signal.major);
            && signal.kind.Signal?
            && (steps[n] == Do(B.Finish(0)) ==> c == |list|)
            && (steps[n] == Do(B.BusReplicate) ==>
                  && c < |list| && |s'.tasks| > 0 && s'.tasks[0].held.Some? && s'.tasks[0].held.value < |s'.pool.msgs|
                  && s'.tasks[0].held.value in states[n].bus.pool.free
                  && var copy := s'.pool.msgs[s'.tasks[0].held.value];
                  && copy.dst == list[c] && copy.kind.Signal? && copy.major == signal.major
                  && copy.src == signal.src && copy.payload == signal.payload)
  {
    Serving(states, steps, a, n);
    var s := states[a].bus;
    var signal := s.pool.msgs[s.tasks[0].handling.m];
    SameSubs(states, steps, a);
    SubscribersAre(states, steps, a, signal.major);
    P.StepOf(states, steps, n);
    hide Run;
    if steps[n] == Do(B.Finish(0)) {
      FinishEmpty(states[n]);
    } else if steps[n] == Do(B.BusReplicate) {
      ReplicateMakes(states[n]);
    }
  }

  lemma {:induction false} SameSubs(states: seq<State>, steps: seq<Step>, n: nat)
    requires Run(states, steps) && n < |states|
    ensures |states[n].bus.subs| == |states[0].bus.subs|
  {
    if |states[0].bus.subs| > 0 {
      SubscribersAre(states, steps, n, 0);
    } else {
      RunInv(states, steps, n);
      assert false;
    }
  }

  lemma FinishEmpty(f: State)
    requires Enabled(f, Do(B.Finish(0))) && f.bus.tasks != [] && f.bus.tasks[0].handling.Casting?
    ensures f.bus.tasks[0].handling.left == []
  {
    CastingDone(f.bus);
  }

  lemma ReplicateMakes(f: State)
    requires Enabled(f, Do(B.BusReplicate)) && f.bus.tasks != [] && f.bus.tasks[0].handling.Casting?
    ensures f.bus.tasks[0].handling.m < |f.bus.pool.msgs|
    ensures var s, s' := f.bus, Next(f, Do(B.BusReplicate)).bus;
            && |s'.tasks| == |s.tasks| && s'.tasks[0].held.Some? && s'.tasks[0].held.value < |s'.pool.msgs|
            && s'.tasks[0].held.value in s.pool.free && s.tasks[0].handling.left != []
            && s'.pool.msgs[s'.tasks[0].held.value].dst == s.tasks[0].handling.left[0]
            && Same(s.pool.msgs[s.tasks[0].handling.m], s'.pool.msgs[s'.tasks[0].held.value])
  {
    DoIsStep(f, Do(B.BusReplicate));
    ReplicateHolds(f.bus, B.BusReplicate);
    hide B.Next;
    CopyMade(f.bus);
  }

  lemma PostStep(f: State, t: nat)
    requires Enabled(f, Do(B.Post(t)))
    ensures Posted(f.bus, t, Next(f, Do(B.Post(t))).bus)
  {
    DoIsStep(f, Do(B.Post(t)));
    hide Enabled, Next, Posted;
    PostLands(f.bus, t);
  }

  /**
   * What a task builds in step n is posted whole by its next post p: the message still says what it said, and it
   * goes to the end of the queue of the task that hosts its destination, or is counted as lost if that is full.
   */
  lemma PostedWhole(states: seq<State>, steps: seq<Step>, n: nat, p: nat, t: nat)
    requires Run(states, steps) && n < p < |steps| && steps[p] == Do(B.Post(t))
    requires t < |states[n + 1].bus.tasks| && states[n + 1].bus.tasks[t].held.Some?
    requires forall i :: n < i < p ==> steps[i] != Do(B.Post(t))
    ensures var s, id := states[p].bus, states[n + 1].bus.tasks[t].held.value;
            && t < |s.tasks| && s.tasks[t].held == Some(id) && Keeps(states[n + 1].bus.pool, s.pool, id)
            && Posted(s, t, states[p + 1].bus)
  {
    hide Enabled, Next, Run, Keeps, Posted;
    RunLength(states, steps);
    HeldUntilPosted(states, steps, n + 1, p, t);
    P.StepOf(states, steps, p);
    PostStep(states[p], t);
  }

  /** Each copy of a signal enters the queue of its subscriber's task, or is counted as lost: with the next post of the bus. */
  lemma CopyQueuedOrLost(states: seq<State>, steps: seq<Step>, a: nat, n: nat, p: nat)
    requires Run(states, steps) && a < n < p < |steps| && steps[a] == Do(B.BusSignal) && steps[n] == Do(B.BusReplicate)
    requires forall i :: a < i < n ==> steps[i] != Do(B.Finish(0))
    requires steps[p] == Do(B.Post(0)) && forall i :: n < i < p ==> steps[i] != Do(B.Post(0))
    ensures var s, s', c := states[p].bus, states[p + 1].bus, Copies(steps, a + 1, n);
            && states[a].bus.tasks != [] && states[a].bus.tasks[0].handling.Fresh?
            && states[a].bus.tasks[0].handling.m < |states[a].bus.pool.msgs|
            && var signal := states[a].bus.pool.msgs[states[a].bus.tasks[0].handling.m];
            && var list := Subscriptions(states, steps, a, signal.major);
            && c < |list| && 0 < list[c] < |s.home| && s.home[list[c]] < |s.tasks| && |s'.tasks| == |s.tasks|
            && var q := s.home[list[c]];
            && s.tasks[0].held.Some? && s.tasks[0].held.value < |s.pool.msgs|
            && var id := s.tasks[0].held.value;
            && var copy := s.pool.msgs[id];
            && copy.dst == list[c] && copy.kind.Signal? && copy.major == signal.major
            && copy.src == signal.src && copy.payload == signal.payload && s'.pool == s.pool
            && if |s.tasks[q].queue| < s.capacity then s'.tasks[q].queue == s.tasks[q].queue + [id]
               else s'.tasks[q].queue == s.tasks[q].queue && s'.leaked[id] == s.leaked[id] + 1
  {
    hide Enabled, Next, Run;
    RunLength(states, steps);
    SignalServed(states, steps, a, n);
    PostedWhole(states, steps, n, p, 0);
    SubscriberIsSegment(states, steps, a, n);
  }

  /** The next subscriber to serve is a segment other than the bus. */
  lemma SubscriberIsSegment(states: seq<State>, steps: seq<Step>, a: nat, n: nat)
    requires Run(states, steps) && a < n < |states| && steps[a] == Do(B.BusSignal)
    requires forall i :: a < i < n ==> steps[i] != Do(B.Finish(0))
    ensures var s := states[a].bus;
            && s.tasks != [] && s.tasks[0].handling.Fresh? && s.tasks[0].handling.m < |s.pool.msgs|
            && forall c :: 0 <= c < |Subscriptions(states, steps, a, s.pool.msgs[s.tasks[0].handling.m].major)|
                 ==> 0 < Subscriptions(states, steps, a, s.pool.msgs[s.tasks[0].handling.m].major)[c]
  {
    Serving(states, steps, a, n);
    SameSubs(states, steps, a);
    SubscribersAre(states, steps, a, states[a].bus.pool.msgs[states[a].bus.tasks[0].handling.m].major);
    RunInv(states, steps, a);
  }

  lemma ReceiveStep(f: State, q: nat)
    requires Enabled(f, Do(B.Receive(q)))
    ensures q < |f.bus.tasks| && f.bus.tasks[q].queue != [] && f.bus.tasks[q].queue[0] < |f.bus.pool.msgs|
    ensures var s, s', id := f.bus, Next(f, Do(B.Receive(q))).bus, f.bus.tasks[q].queue[0];
            && |s'.tasks| == |s.tasks| && s'.pool == s.pool
            && s'.tasks[q].handling == if s.pool.msgs[id].dst == 0 then B.Fresh(id) else B.Busy(id)
  {
    DoIsStep(f, Do(B.Receive(q)));
    hide Next, B.Next;
    ReceiveHandles(f.bus, q);
  }

  /**
   * A copy that was queued behind j others is what its subscriber's task handles when it has taken those j: the
   * handler gets a message for that segment with the sender and the payload of the signal.
   */
  lemma SubscriberGetsSignal(states: seq<State>, steps: seq<Step>, a: nat, n: nat, p: nat, k: nat, q: nat)
    requires Run(states, steps) && a < n < p < k < |steps| && steps[a] == Do(B.BusSignal) && steps[n] == Do(B.BusReplicate)
    requires forall i :: a < i < n ==> steps[i] != Do(B.Finish(0))
    requires steps[p] == Do(B.Post(0)) && forall i :: n < i < p ==> steps[i] != Do(B.Post(0))
    requires var s, c := states[a].bus, Copies(steps, a + 1, n);
             && s.tasks != [] && s.tasks[0].handling.Fresh? && s.tasks[0].handling.m < |s.pool.msgs|
             && var list := Subscriptions(states, steps, a, s.pool.msgs[s.tasks[0].handling.m].major);
             c < |list| && 0 < list[c] < |states[p].bus.home| && states[p].bus.home[list[c]] == q
    requires q < |states[p].bus.tasks| && |states[p].bus.tasks[q].queue| < states[p].bus.capacity
    requires steps[k] == Do(B.Receive(q)) && Taken(steps, p + 1, k, q) == |states[p].bus.tasks[q].queue|
    ensures var s, s', c := states[a].bus, states[k + 1].bus, Copies(steps, a + 1, n);
            && var signal := s.pool.msgs[s.tasks[0].handling.m];
            && q < |s'.tasks| && s'.tasks[q].handling.Busy? && s'.tasks[q].handling.m < |s'.pool.msgs|
            && var copy := s'.pool.msgs[s'.tasks[q].handling.m];
            && copy.dst == Subscriptions(states, steps, a, signal.major)[c] && copy.kind.Signal?
            && copy.major == signal.major && copy.src == signal.src && copy.payload == signal.payload
  {
    hide Enabled, Next, Run;
    RunLength(states, steps);
    CopyQueuedOrLost(states, steps, a, n, p);
    var j := |states[p].bus.tasks[q].queue|;
    QueueInOrder(states, steps, p + 1, k, q, j);
    P.StepOf(states, steps, k);
    ReceiveStep(states[k], q);
  }

  // ---- Calls

  lemma QueuedFlies(s: B.State, t: nat)
    requires C.Inv(s) && t < |s.tasks| && s.tasks[t].queue != []
    ensures C.FlightOk(s, s.tasks[t].queue[0]) && C.PlacedOk(s, t, s.tasks[t].queue[0])
  {
    var x := s.tasks[t].queue[0];
    hide C.FlightOk, C.PlacedOk, O.Owned, C.CallsOk, C.LiveDiffer, C.EntriesOk, C.SubsOk, C.HistoryOk;
    C.FlightAtMost(s.tasks, t, x);
    assert C.TaskOk(s, t);
  }

  /**
   * A service's task that takes a call gets what the caller put in: some earlier step of the run issued a call
   * with this number, to a segment of this task, with these arguments.
   */
  lemma CallArrives(states: seq<State>, steps: seq<Step>, k: nat, t: nat) returns (j: nat)
    requires Run(states, steps) && k < |steps| && steps[k] == Do(B.Receive(t)) && t < |states[k].bus.tasks|
    requires var s := states[k].bus;
             && s.tasks[t].queue != [] && s.tasks[t].queue[0] < |s.pool.msgs|
             && s.pool.msgs[s.tasks[t].queue[0]].kind.IsCall() && s.pool.msgs[s.tasks[t].queue[0]].dst != 0
    ensures j < k && steps[j].Do? && steps[j].e.IssueCall?
    ensures var s, s', e := states[k].bus, states[k + 1].bus, steps[j].e;
            && e.major < |s.home| && s.home[e.major] == t && t < |s'.tasks| && s'.tasks[t].handling.Busy?
            && s'.tasks[t].handling.m < |s'.pool.msgs|
            && var m := s'.pool.msgs[s'.tasks[t].handling.m];
            && m.payload == e.payload && m.src == e.t && m.issue == states[j].bus.issued + 1
            && m.dst == e.major && (m.kind.SyncCall? <==> e.sync)
  {
    hide Enabled, Next, Run;
    RunLength(states, steps);
    var s := states[k].bus;
    var x := s.tasks[t].queue[0];
    InUse(states, steps, k, t, x);
    j := Genuine(states, steps, k, x);
    P.StepOf(states, steps, k);
    ReceiveStep(states[k], t);
    RunInv(states, steps, k);
    hide C.Inv;
    QueuedFlies(s, t);
  }
}
