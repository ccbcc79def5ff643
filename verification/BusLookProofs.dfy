/** When the look after posting decides right, and what then holds of every run. */
module BusLookProofs {
  import opened Options
  import opened MessagePool
  import B = Bus
  import O = BusOwnership
  import C = BusCalls
  import S = BusSteps
  import T = BusTheorems
  import opened BusLook

  // ---- What one step of the protocol does to messages and hands

  /** Nothing is built: every message keeps its kind and its sender. */
  ghost predicate SameMessages(p: Pool, p': Pool) {
    && |p'.msgs| == |p.msgs|
    && forall x :: 0 <= x < |p.msgs| ==> p'.msgs[x].kind == p.msgs[x].kind && p'.msgs[x].src == p.msgs[x].src
  }

  lemma NothingBuilt(s: B.State, e: B.Step)
    requires B.Enabled(s, e) && !Builds(e)
    ensures SameMessages(s.pool, B.Next(s, e).pool)
  {
    hide B.DoBusMatch, B.DoPost;
    if e.BusMatch? { S.InHand(s, e); T.MatchTouches(s); }
    if e.Post? { O.PostPool(s, e.t); T.PostedPool(s, e.t); }
  }

  /** The first free message is built: a synchronous call only by the caller itself, whose number it carries. */
  lemma OneBuilt(s: B.State, e: B.Step)
    requires B.Enabled(s, e) && Builds(e)
    ensures CanAlloc(s.pool)
    ensures var p := B.Next(s, e).pool;
            && |p.msgs| == |s.pool.msgs| && p.msgs == s.pool.msgs[s.pool.free[0] := p.msgs[s.pool.free[0]]]
            && var m := p.msgs[s.pool.free[0]];
            && (m.kind.SyncCall? <==> e.IssueCall? && e.sync) && (Invokes(e) ==> m.src == Actor(e))
  {
  }

  /** What a step does to the hand and the call of task t. */
  ghost predicate HandStep(s: B.State, e: B.Step, s': B.State, t: nat)
    requires t < |s.tasks|
  {
    && |s'.tasks| == |s.tasks|
    && (t != Actor(e) ==> s'.tasks[t].held == s.tasks[t].held)
    && (t == Actor(e) && Builds(e) ==> s.pool.free != [] && s'.tasks[t].held == Some(s.pool.free[0]))
    && (e == B.Post(t) ==> s'.tasks[t].held.None?)
    && (t == Actor(e) && !Builds(e) && !e.Post? && !e.BusRecord? ==> s'.tasks[t].held == s.tasks[t].held)
    && (!(t == Actor(e) && (e.IssueCall? || e.Wake?)) ==> s'.tasks[t].call == s.tasks[t].call)
    && (t == Actor(e) && e.IssueCall? ==> (s'.tasks[t].call.Some? <==> e.sync))
  }

  lemma BuilderHands(s: B.State, e: B.Step, t: nat)
    requires B.Enabled(s, e) && Builds(e) && t < |s.tasks|
    ensures HandStep(s, e, B.Next(s, e), t)
  {
  }

  lemma BusHands(s: B.State, e: B.Step, t: nat)
    requires B.Enabled(s, e) && (e.BusRecord? || e.BusRetire? || e.BusSignal? || e.BusSubscribe?) && t < |s.tasks|
    ensures HandStep(s, e, B.Next(s, e), t)
  {
    var s' := B.Next(s, e);
    assert s'.tasks == s.tasks[0 := s'.tasks[0]];
  }

  lemma TaskHands(s: B.State, e: B.Step, t: nat)
    requires B.Enabled(s, e) && (e.Receive? || e.Finish? || e.Abandon? || e.Wake?) && t < |s.tasks|
    ensures HandStep(s, e, B.Next(s, e), t)
  {
    hide B.DoReceive, B.DoAbandon;
    if e.Receive? { ReceiveHand(s, e.t, t); }
    if e.Abandon? { AbandonHand(s, e.t, t); }
  }

  lemma ReceiveHand(s: B.State, u: nat, t: nat)
    requires u < |s.tasks| && s.tasks[u].queue != [] && s.tasks[u].queue[0] < |s.pool.msgs| && t < |s.tasks|
    ensures var s' := B.DoReceive(s, u);
            |s'.tasks| == |s.tasks| && s'.tasks[t].held == s.tasks[t].held && s'.tasks[t].call == s.tasks[t].call
  {
  }

  lemma AbandonHand(s: B.State, u: nat, t: nat)
    requires u < |s.tasks| && s.tasks[u].handling.Busy? && s.tasks[u].handling.m < |s.pool.msgs| && t < |s.tasks|
    ensures var s' := B.DoAbandon(s, u);
            |s'.tasks| == |s.tasks| && s'.tasks[t].held == s.tasks[t].held && s'.tasks[t].call == s.tasks[t].call
  {
  }

  lemma NoHands(s: B.State, e: B.Step, t: nat)
    requires B.Enabled(s, e) && e.IssueFails? && t < |s.tasks|
    ensures HandStep(s, e, B.Next(s, e), t)
  {
  }

  lemma OtherHands(s: B.State, e: B.Step, t: nat)
    requires B.Enabled(s, e) && !Builds(e) && !e.BusMatch? && !e.Post? && t < |s.tasks|
    ensures HandStep(s, e, B.Next(s, e), t)
  {
    hide B.Enabled, B.Next, HandStep;
    if e.IssueFails? {
      NoHands(s, e, t);
    } else if e.Receive? || e.Finish? || e.Abandon? || e.Wake? {
      TaskHands(s, e, t);
    } else {
      BusHands(s, e, t);
    }
  }

  lemma HandsMove(s: B.State, e: B.Step, t: nat)
    requires B.Enabled(s, e) && t < |s.tasks|
    ensures HandStep(s, e, B.Next(s, e), t)
  {
    if e.BusMatch? {
      S.InHand(s, e);
      hide B.DoBusMatch;
      T.HandsUnmatched(s, t);
    } else if e.Post? {
      hide B.DoPost;
      T.HandsPosted(s, e.t, t);
    } else {
      hide *;
      if Builds(e) { BuilderHands(s, e, t); } else { OtherHands(s, e, t); }
    }
  }

  // ---- In every run: what a claim says of its message

  /**
   * While the message has not been built again it is what the task built; once it has been, it is no
   * synchronous call of this task.
   */
  ghost predicate ClaimOk(f: State, t: nat, c: Claim) {
    && c.msg < |f.bus.pool.msgs| && c.msg < |f.builds| && c.stamp <= f.builds[c.msg]
    && var m := f.bus.pool.msgs[c.msg];
    && (f.builds[c.msg] == c.stamp ==> (m.kind.SyncCall? <==> c.sync) && m.src == t)
    && (f.builds[c.msg] > c.stamp && m.kind.SyncCall? ==> m.src != t)
  }

  ghost predicate ClaimsOk(f: State, t: nat)
    requires Shaped(f) && t < |f.own|
  {
    && (f.own[t].Some? ==> f.bus.tasks[t].held.Some? && ClaimOk(f, t, f.own[t].value))
    && (f.looks[t].Some? ==> ClaimOk(f, t, f.looks[t].value.claim))
  }

  ghost predicate AllClaimsOk(f: State) {
    Shaped(f) && forall t :: 0 <= t < |f.own| ==> ClaimsOk(f, t)
  }

  /** Somebody else builds a message. */
  lemma ClaimSurvivesBuild(f: State, e: B.Step, f': State, t: nat, c: Claim)
    requires Shaped(f) && B.Enabled(f.bus, e) && Builds(e) && CanAlloc(f.bus.pool) && ClaimOk(f, t, c)
    requires f'.bus == B.Next(f.bus, e) && f.bus.pool.free[0] < |f.builds|
    requires f'.builds == f.builds[f.bus.pool.free[0] := f.builds[f.bus.pool.free[0]] + 1] && t != Actor(e)
    ensures ClaimOk(f', t, c)
  {
    OneBuilt(f.bus, e);
  }

  lemma ClaimSurvives(f: State, e: B.Step, f': State, t: nat, c: Claim)
    requires B.Enabled(f.bus, e) && !Builds(e) && ClaimOk(f, t, c)
    requires f'.bus == B.Next(f.bus, e) && f'.builds == f.builds
    ensures ClaimOk(f', t, c)
  {
    NothingBuilt(f.bus, e);
    hide B.Enabled, B.Next;
  }

  /** The builder's own claim. */
  lemma ClaimMade(f: State, e: B.Step)
    requires Shaped(f) && B.Enabled(f.bus, e) && Idle(f, Actor(e)) && Invokes(e)
    ensures CanAlloc(f.bus.pool) && Actor(e) < |f.own|
    ensures var f' := DoStep(f, e); f'.own[Actor(e)].Some? && ClaimOk(f', Actor(e), f'.own[Actor(e)].value)
  {
    OneBuilt(f.bus, e);
  }

  lemma StepOf(states: seq<State>, steps: seq<Step>, n: nat)
    requires Run(states, steps) && n + 1 < |states|
    ensures n < |steps| && Enabled(states[n], steps[n]) && states[n + 1] == Next(states[n], steps[n])
  {
  }

  /** What a step of the protocol does to claims, looks and counts. */
  ghost predicate Stepped(f: State, e: B.Step, f': State) {
    && Shaped(f) && Shaped(f') && f'.waits == f.waits && Actor(e) < |f.own|
    && |f'.own| == |f.own| && |f'.looks| == |f.looks|
    && (if Builds(e)
        then CanAlloc(f.bus.pool) && f.bus.pool.free[0] < |f.builds| && f'.built == f.built + 1
             && f'.builds == f.builds[f.bus.pool.free[0] := f.builds[f.bus.pool.free[0]] + 1]
        else f'.builds == f.builds && f'.built == f.built)
    && (forall t :: 0 <= t < |f.own| && t != Actor(e) ==> f'.own[t] == f.own[t] && f'.looks[t] == f.looks[t])
    && (!e.Post? ==> f'.looks == f.looks)
    && (!e.Post? && !e.BusRecord? && !Builds(e) ==> f'.own == f.own)
    && (e.Post? || e.BusRecord? || e.BusReplicate? ==> f'.own[Actor(e)].None?)
    && (Invokes(e) ==>
          f'.own[Actor(e)] == Some(Claim(f.bus.pool.free[0], e.IssueCall? && e.sync, f.builds[f.bus.pool.free[0]] + 1)))
    && (e.Post? ==> f'.looks[e.t] == if f.own[e.t].None? then f.looks[e.t]
                                     else Some(Look(f.own[e.t].value, f.built, |f.bus.pool.free|)))
  }

  lemma DoShape(f: State, e: B.Step)
    requires Shaped(f) && B.Enabled(f.bus, e) && Idle(f, Actor(e)) && !e.Wake?
    ensures Stepped(f, e, DoStep(f, e)) && DoStep(f, e).bus == B.Next(f.bus, e)
  {
    hide B.Enabled, B.Next;
    SameLengths(f.bus, e);
    if Builds(e) { DoBuild(f, e); }
  }

  lemma SameLengths(s: B.State, e: B.Step)
    requires B.Enabled(s, e)
    ensures |B.Next(s, e).tasks| == |s.tasks| && |B.Next(s, e).pool.msgs| == |s.pool.msgs|
    ensures Builds(e) ==> CanAlloc(s.pool)
  {
    hide B.Enabled, B.Next;
    T.SameTasks(s, e);
    if Builds(e) { OneBuilt(s, e); } else { NothingBuilt(s, e); }
  }

  lemma DoBuild(f: State, e: B.Step)
    requires Shaped(f) && B.Enabled(f.bus, e) && Idle(f, Actor(e)) && Builds(e) && CanAlloc(f.bus.pool)
    requires |B.Next(f.bus, e).tasks| == |f.bus.tasks| && |B.Next(f.bus, e).pool.msgs| == |f.bus.pool.msgs|
    ensures Stepped(f, e, DoStep(f, e)) && DoStep(f, e).bus == B.Next(f.bus, e)
  {
    hide B.Enabled, B.Next;
  }

  lemma ClaimsStay(f: State, e: B.Step, t: nat)
    requires Enabled(f, Do(e)) && t < |f.own| && ClaimsOk(f, t)
    ensures Stepped(f, e, DoStep(f, e)) && ClaimsOk(DoStep(f, e), t)
  {
    var f' := DoStep(f, e);
    DoShape(f, e);
    HandsMove(f.bus, e, t);
    if t == Actor(e) && Invokes(e) { ClaimMade(f, e); }
    if Builds(e) || e.BusRecord? { EmptyHand(f, e); }
    hide B.Enabled, B.Next, ClaimOk, DoStep;
    if t != Actor(e) || !Builds(e) {
      if f.own[t].Some? { ClaimGoesOn(f, e, f', t, f.own[t].value); }
      if f.looks[t].Some? { ClaimGoesOn(f, e, f', t, f.looks[t].value.claim); }
    }
  }

  /** Whoever builds, or records a call, has nothing in hand. */
  lemma EmptyHand(f: State, e: B.Step)
    requires Enabled(f, Do(e)) && (Builds(e) || e.BusRecord?)
    ensures Actor(e) < |f.bus.tasks| && f.bus.tasks[Actor(e)].held.None?
  {
  }

  lemma ClaimGoesOn(f: State, e: B.Step, f': State, t: nat, c: Claim)
    requires B.Enabled(f.bus, e) && ClaimOk(f, t, c) && (Builds(e) ==> t != Actor(e))
    requires f'.bus == B.Next(f.bus, e) && Stepped(f, e, f')
    ensures ClaimOk(f', t, c)
  {
    hide B.Enabled, B.Next, ClaimOk;
    if Builds(e) { ClaimSurvivesBuild(f, e, f', t, c); } else { ClaimSurvives(f, e, f', t, c); }
  }

  lemma LookKeepsClaims(f: State, e: Step)
    requires AllClaimsOk(f) && Enabled(f, e) && !e.Do?
    ensures AllClaimsOk(Next(f, e))
  {
    var f' := Next(f, e);
    LookFrame(f, e);
    hide Enabled, Next;
    forall t | 0 <= t < |f'.own| ensures ClaimsOk(f', t) { assert ClaimsOk(f, t); }
  }

  /** Looks and wakes leave messages, hands and claims alone. */
  lemma LookFrame(f: State, e: Step)
    requires Enabled(f, e) && !e.Do?
    ensures var f' := Next(f, e);
            && Shaped(f') && f'.bus.pool == f.bus.pool && f'.own == f.own && f'.builds == f.builds && f'.built == f.built
            && (forall t :: 0 <= t < |f.own| ==> f'.bus.tasks[t].held == f.bus.tasks[t].held)
            && (forall t :: 0 <= t < |f.own| ==> f'.looks[t] == f.looks[t] || f'.looks[t].None?)
  {
  }

  lemma ClaimsStep(f: State, e: Step)
    requires AllClaimsOk(f) && Enabled(f, e)
    ensures AllClaimsOk(Next(f, e))
  {
    if e.Do? {
      DoShape(f, e.e);
      hide Enabled, ClaimsOk, DoStep;
      forall t | 0 <= t < |Next(f, e).own| ensures ClaimsOk(Next(f, e), t) {
        assert ClaimsOk(f, t);
        ClaimsStay(f, e.e, t);
      }
    } else {
      LookKeepsClaims(f, e);
    }
  }

  lemma {:induction false} RunClaims(states: seq<State>, steps: seq<Step>, n: nat)
    requires Run(states, steps) && n < |states|
    ensures AllClaimsOk(states[n])
  {
    if n > 0 {
      RunClaims(states, steps, n - 1);
      hide AllClaimsOk, Enabled, Next;
      ClaimsStep(states[n - 1], steps[n - 1]);
    }
  }

  /** The message has been built again since the task built it. */
  ghost predicate Rebuilt(f: State, c: Claim) { c.msg < |f.builds| && f.builds[c.msg] != c.stamp }

  /**
   * In every run a synchronous caller's look decides right if and only if its message has not been built
   * again, and any other task's if and only if it has not been built again as a synchronous call. Then the
   * caller waits on its own semaphore, and the other task does not wait.
   */
  lemma LookRightIff(states: seq<State>, steps: seq<Step>, n: nat)
    requires Run(states, steps) && n < |steps| && steps[n].LookAt?
    ensures var f, t := states[n], steps[n].t;
            && t < |f.looks| && f.looks[t].Some? && f.looks[t].value.claim.msg < |f.bus.pool.msgs|
            && var c := f.looks[t].value.claim;
            && (c.sync ==> (DecidesRight(f, t) <==> !Rebuilt(f, c)))
            && (!c.sync ==> (DecidesRight(f, t) <==> !(Rebuilt(f, c) && f.bus.pool.msgs[c.msg].kind.SyncCall?)))
            && t < |states[n + 1].waits|
            && (DecidesRight(f, t) ==> states[n + 1].waits[t] == if c.sync then Some(t) else f.waits[t])
  {
    assert Enabled(states[n], steps[n]);
    RunClaims(states, steps, n);
    assert ClaimsOk(states[n], steps[n].t);
  }

  // ---- Runs in which every look so far has decided right

  ghost predicate LooksRight(f: State, e: Step) {
    e.LookAt? ==>
      && e.t < |f.looks| && f.looks[e.t].Some? && f.looks[e.t].value.claim.msg < |f.bus.pool.msgs|
      && DecidesRight(f, e.t)
  }

  ghost predicate RightSoFar(states: seq<State>, steps: seq<Step>, n: nat) {
    Run(states, steps) && n <= |steps| && forall i :: 0 <= i < n ==> LooksRight(states[i], steps[i])
  }

  /**
   * A task is inside of a call from building it to coming back: with the call in hand, about to look at it,
   * or waiting on its own semaphore; and it waits, or will wait, only then.
   */
  ghost predicate TaskClean(f: State, t: nat)
    requires Shaped(f) && t < |f.own|
  {
    var task := f.bus.tasks[t];
    && (f.own[t].Some? ==>
          task.held == Some(f.own[t].value.msg) && (f.own[t].value.sync <==> task.call.Some?))
    && (f.looks[t].Some? ==>
          task.held.None? && f.waits[t].None? && (f.looks[t].value.claim.sync <==> task.call.Some?))
    && (f.waits[t].Some? ==> f.waits[t] == Some(t) && task.call.Some? && task.held.None?)
    && (task.call.Some? ==> f.own[t].Some? || f.looks[t].Some? || f.waits[t].Some?)
  }

  /** The invariant, waiting callers included whatever has gone wrong before, and what looks and waits add to it. */
  ghost predicate CleanInv(f: State) {
    C.Inv(f.bus.(sound := true)) && AllClaimsOk(f) && forall t :: 0 <= t < |f.own| ==> TaskClean(f, t)
  }

  lemma SoundBus(f: State)
    requires f.bus.sound
    ensures f.bus.(sound := true) == f.bus
  {
  }

  lemma CleanTask(f: State, e: B.Step, f': State, t: nat)
    requires Stepped(f, e, f') && t < |f.own| && TaskClean(f, t) && HandStep(f.bus, e, f'.bus, t)
    requires !e.Wake? && Idle(f, Actor(e))
    requires !e.Post? ==> B.CanAct(f.bus, Actor(e))
    ensures TaskClean(f', t)
  {
  }

  /** Every step but a post is one of a task that has nothing in hand and is inside of no call. */
  lemma ActorCanAct(s: B.State, e: B.Step)
    requires B.Enabled(s, e) && !e.Post? && !e.Wake?
    ensures B.CanAct(s, Actor(e))
  {
  }

  lemma CleanDo(f: State, e: B.Step)
    requires CleanInv(f) && f.bus.sound && Enabled(f, Do(e))
    ensures CleanInv(DoStep(f, e)) && DoStep(f, e).bus.sound
  {
    var f' := DoStep(f, e);
    DoShape(f, e);
    ClaimsStep(f, Do(e));
    SoundBus(f);
    S.StepKeeps(f.bus, e);
    T.StillSound(f.bus, e);
    if !e.Post? { ActorCanAct(f.bus, e); }
    hide B.Enabled, B.Next, C.Inv, AllClaimsOk, TaskClean, Stepped, HandStep, DoStep, B.CanAct;
    SteppedLength(f, e, f');
    forall t | 0 <= t < |f'.own| ensures TaskClean(f', t) {
      HandsMove(f.bus, e, t);
      CleanTask(f, e, f', t);
    }
  }

  lemma SteppedLength(f: State, e: B.Step, f': State)
    requires Stepped(f, e, f')
    ensures |f'.own| == |f.own| == |f.bus.tasks| && Shaped(f')
  {
  }

  /** Looking right leaves the protocol where it is. */
  lemma CleanLook(f: State, t: nat)
    requires CleanInv(f) && f.bus.sound && Enabled(f, LookAt(t)) && DecidesRight(f, t)
    ensures CleanInv(Next(f, LookAt(t))) && Next(f, LookAt(t)).bus == f.bus
  {
    SoundBus(f);
    ClaimsStep(f, LookAt(t));
    assert TaskClean(f, t) && ClaimsOk(f, t);
    hide C.Inv;
    var f' := Next(f, LookAt(t));
    forall u | 0 <= u < |f'.own| ensures TaskClean(f', u) { assert TaskClean(f, u); }
  }

  /** Waking is the protocol's own wake. */
  lemma CleanWake(f: State, t: nat)
    requires CleanInv(f) && f.bus.sound && Enabled(f, Wake(t))
    ensures B.Enabled(f.bus, B.Wake(t)) && Next(f, Wake(t)).bus == B.Next(f.bus, B.Wake(t))
    ensures CleanInv(Next(f, Wake(t))) && Next(f, Wake(t)).bus.sound
  {
    SoundBus(f);
    ClaimsStep(f, Wake(t));
    assert TaskClean(f, t);
    T.InvConfigured(f.bus);
    var f' := Next(f, Wake(t));
    assert f'.bus.tasks == B.Next(f.bus, B.Wake(t)).tasks;
    S.StepKeeps(f.bus, B.Wake(t));
    SoundBus(f');
    hide C.Inv;
    forall u | 0 <= u < |f'.own| ensures TaskClean(f', u) { assert TaskClean(f, u); }
  }

  /** A wrong look breaks what a right one keeps: the caller is out of its call, or waits on a semaphore not its own. */
  lemma WrongLookBreaks(f: State, t: nat)
    requires CleanInv(f) && f.bus.sound && Enabled(f, LookAt(t)) && !DecidesRight(f, t)
    ensures !CleanInv(Next(f, LookAt(t)))
  {
    var f', c := Next(f, LookAt(t)), f.looks[t].value.claim;
    assert TaskClean(f, t) && ClaimsOk(f, t);
    if f.bus.pool.msgs[c.msg].kind.SyncCall? {
      assert f'.waits[t] == Some(f.bus.pool.msgs[c.msg].src);
      hide C.Inv;
      assert !TaskClean(f', t);
    } else {
      SoundBus(f);
      LeavesTooEarly(f.bus, t);
      assert f'.bus.(sound := true) == ComeBack(f.bus, t);
    }
  }

  /** A caller that does not wait leaves its call open, or its token behind. */
  lemma LeavesTooEarly(s: B.State, t: nat)
    requires C.Inv(s) && s.sound && t < |s.tasks| && s.tasks[t].call.Some?
    ensures !C.Inv(ComeBack(s, t))
  {
    var s', i := ComeBack(s, t), s.tasks[t].call.value;
    assert C.TaskOk(s, t);
    hide O.Owned, C.InFlightOk, C.LiveDiffer, C.EntriesOk, C.SubsOk, C.HistoryOk;
    if s.calls[i].Open() {
      assert i in s'.calls && !C.CallOk(s', i);
    } else {
      assert !C.TaskOk(s', t);
    }
  }

  /** From where looks have decided right, the next one keeps what they have kept if and only if it decides right too. */
  lemma LookKeepsIff(states: seq<State>, steps: seq<Step>, n: nat)
    requires n < |steps| && RightSoFar(states, steps, n) && steps[n].LookAt?
    ensures LooksRight(states[n], steps[n]) <==> CleanInv(states[n + 1])
  {
    RunClean(states, steps, n);
    assert Enabled(states[n], steps[n]) && states[n + 1] == Next(states[n], steps[n]);
    hide RightSoFar, Run, CleanInv, DecidesRight;
    if DecidesRight(states[n], steps[n].t) {
      CleanLook(states[n], steps[n].t);
    } else {
      WrongLookBreaks(states[n], steps[n].t);
    }
  }

  lemma CleanStep(f: State, e: Step)
    requires CleanInv(f) && f.bus.sound && Enabled(f, e) && LooksRight(f, e)
    ensures CleanInv(Next(f, e)) && Next(f, e).bus.sound
  {
    hide CleanInv, DecidesRight;
    match e {
      case Do(b) => CleanDo(f, b);
      case LookAt(t) => CleanLook(f, t);
      case Wake(t) => CleanWake(f, t);
    }
  }

  lemma CleanStart(f: State)
    requires Init(f)
    ensures CleanInv(f) && f.bus.sound
  {
    SoundBus(f);
    T.InitInv(f.bus);
    hide C.Inv;
  }

  lemma {:induction false} RunClean(states: seq<State>, steps: seq<Step>, n: nat)
    requires RightSoFar(states, steps, n)
    ensures CleanInv(states[n]) && states[n].bus.sound
  {
    if n == 0 {
      CleanStart(states[0]);
    } else {
      RunClean(states, steps, n - 1);
      hide CleanInv, Enabled, Next, LooksRight;
      CleanStep(states[n - 1], steps[n - 1]);
    }
  }

  /** While looks decide right every state is, looks and waits aside, one that the protocol without looks reaches. */
  lemma {:induction false} RightRunsProject(states: seq<State>, steps: seq<Step>, n: nat)
    returns (bs: seq<B.State>, es: seq<B.Step>)
    requires RightSoFar(states, steps, n)
    ensures B.Run(bs, es) && bs[|es|] == states[n].bus
  {
    if n == 0 {
      bs, es := [states[0].bus], [];
    } else {
      bs, es := RightRunsProject(states, steps, n - 1);
      RunClean(states, steps, n - 1);
      var f, e := states[n - 1], steps[n - 1];
      assert Enabled(f, e) && LooksRight(f, e) && states[n] == Next(f, e);
      hide RightSoFar, Run, CleanInv, DecidesRight, B.Init, B.Next, B.Enabled;
      match e {
        case Do(b) =>
          DoShape(f, b);
          bs, es := Extended(bs, es, b);
        case LookAt(t) =>
          CleanLook(f, t);
        case Wake(t) =>
          CleanWake(f, t);
          bs, es := Extended(bs, es, B.Wake(t));
      }
    }
  }

  lemma Extended(bs: seq<B.State>, es: seq<B.Step>, e: B.Step) returns (bs': seq<B.State>, es': seq<B.Step>)
    requires B.Run(bs, es) && B.Enabled(bs[|es|], e)
    ensures B.Run(bs', es') && bs'[|es'|] == B.Next(bs[|es|], e)
  {
    bs', es' := bs + [B.Next(bs[|es|], e)], es + [e];
    hide B.Init, B.Next, B.Enabled;
    forall i | 0 <= i < |es'| ensures B.Enabled(bs'[i], es'[i]) && bs'[i + 1] == B.Next(bs'[i], es'[i]) {
      if i < |es| { assert B.Enabled(bs[i], es[i]); }
    }
  }

  // ---- Synchronous calls while looks decide right

  /** A pending synchronous entry has its caller inside that call, unless the bus is just dropping it. */
  lemma PendingOnlyInsideCall(states: seq<State>, steps: seq<Step>, n: nat, g: nat, k: nat)
    requires RightSoFar(states, steps, n)
    requires g < |states[n].bus.lists| && k < |states[n].bus.lists[g]| && states[n].bus.lists[g][k].sync
    ensures T.InsideUnlessDropped(states[n].bus, g, k)
  {
    RunClean(states, steps, n);
    SoundBus(states[n]);
    T.PendingInside(states[n].bus, g, k);
  }

  /** At most one token, and only for a caller whose answer is there; nobody waits on another's semaphore. */
  lemma OneToken(states: seq<State>, steps: seq<Step>, n: nat, t: nat)
    requires RightSoFar(states, steps, n) && t < |states[n].bus.tasks|
    ensures T.TokenMeansAnswer(states[n].bus, t)
    ensures t < |states[n].waits| && (states[n].waits[t].Some? ==> states[n].waits[t] == Some(t))
  {
    RunClean(states, steps, n);
    SoundBus(states[n]);
    T.TokenAt(states[n].bus, t);
    assert TaskClean(states[n], t);
  }

  /** The steps of the protocol among the steps; a look stands for the wake it may lead to. */
  ghost function Told(steps: seq<Step>): seq<B.Step> {
    seq(|steps|, i requires 0 <= i < |steps| => if steps[i].Do? then steps[i].e else B.Wake(steps[i].t))
  }

  lemma AnswerAt(states: seq<State>, steps: seq<Step>, n: nat, i: nat)
    requires n < |steps| && RightSoFar(states, steps, n + 1)
    ensures T.AnswerKept(states[n].bus, Told(steps)[n], states[n + 1].bus, i)
  {
    var f, e := states[n], steps[n];
    RunClean(states, steps, n);
    assert Enabled(f, e) && states[n + 1] == Next(f, e);
    match e {
      case Do(b) =>
        DoShape(f, b);
        SoundBus(f);
        RepliesCall(f.bus, b);
        hide B.Enabled, B.Next, C.Inv, DoStep;
        T.RepliedStep(f.bus, b, i);
      case LookAt(t) =>
        CleanLook(f, t);
      case Wake(t) =>
        CleanWake(f, t);
        hide B.Next, DoWake;
        T.RepliedStep(f.bus, B.Wake(t), i);
    }
  }

  lemma RepliesCall(s: B.State, e: B.Step)
    requires C.Inv(s) && B.Enabled(s, e)
    ensures e.Reply? ==> e.issue in s.calls && C.CallOk(s, e.issue)
  {
  }

  /** The answer on record for a call is the payload of exactly one step of the service. */
  lemma {:induction false} RepliedOnce(states: seq<State>, steps: seq<Step>, n: nat, i: nat)
    requires RightSoFar(states, steps, n)
    ensures i in states[n].bus.replied ==> T.AnsweredOnce(Told(steps), n, i, states[n].bus.replied[i])
    ensures i !in states[n].bus.replied ==> forall k: nat :: k < n ==> !T.Answers(Told(steps), k, i)
  {
    assert states[0].bus.replied == map[];
    hide Run, Init, Enabled, Next, LooksRight, T.OnlyAnswer, T.AnsweredOnce;
    if n > 0 {
      RepliedOnce(states, steps, n - 1, i);
      AnswerAt(states, steps, n - 1, i);
      if i in states[n - 1].bus.replied {
        T.StillOnce(Told(steps), n - 1, i, states[n].bus.replied[i]);
      } else if i in states[n].bus.replied {
        T.FirstAnswer(Told(steps), n - 1, i);
      }
    }
  }

  /** Whenever a task comes out of a synchronous call, it gets the payload of the one reply to that very call. */
  lemma CallerGetsItsReply(states: seq<State>, steps: seq<Step>, n: nat, t: nat, i: nat)
    requires n < |steps| && RightSoFar(states, steps, n + 1) && t < |states[n].bus.tasks|
    requires states[n].bus.tasks[t].call == Some(i)
    requires t < |states[n + 1].bus.tasks| ==> states[n + 1].bus.tasks[t].call != Some(i)
    ensures i in states[n + 1].bus.returned
    ensures T.AnsweredOnce(Told(steps), n, i, states[n + 1].bus.returned[i])
  {
    var f, e := states[n], steps[n];
    RunClean(states, steps, n);
    RepliedOnce(states, steps, n, i);
    assert Enabled(f, e) && states[n + 1] == Next(f, e);
    hide RightSoFar, Run, T.AnsweredOnce;
    ComesOutByWaking(f, e, t);
    CleanWake(f, t);
    SoundBus(f);
    T.TokenAt(f.bus, t);
    hide C.Inv;
  }

  /** A task comes out of a call by its own wake only. */
  lemma ComesOutByWaking(f: State, e: Step, t: nat)
    requires CleanInv(f) && f.bus.sound && Enabled(f, e) && LooksRight(f, e) && t < |f.bus.tasks| && f.bus.tasks[t].call.Some?
    requires t < |Next(f, e).bus.tasks| ==> Next(f, e).bus.tasks[t].call != f.bus.tasks[t].call
    ensures e == Wake(t)
  {
    match e {
      case Do(b) =>
        DoShape(f, b);
        HandsMove(f.bus, b, t);
        if !b.Post? { ActorCanAct(f.bus, b); }
        hide B.Enabled, B.Next, C.Inv, DoStep;
      case LookAt(u) =>
        CleanLook(f, u);
      case Wake(u) =>
        assert TaskClean(f, u);
    }
  }
}
