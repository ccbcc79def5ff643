/**
 * A run in which a caller is slow to look at the message it posted. Its call is answered and over, the message
 * has been built again as a signal, and the caller takes the signal for its own message and does not wait.
 */
module BusLookExample {
  import opened Options
  import opened MessagePool
  import B = Bus
  import X = BusExample
  import opened BusLook

  // ---- Putting runs together

  ghost predicate Takes(f: State, e: Step, f': State) { Enabled(f, e) && Next(f, e) == f' }

  /** Some run ends in f. */
  ghost predicate Reached(f: State) {
    exists states: seq<State>, steps: seq<Step> :: Run(states, steps) && states[|steps|] == f
  }

  lemma Extends(f: State, e: Step, f': State)
    requires Reached(f) && Takes(f, e, f')
    ensures Reached(f')
  {
    hide Enabled, Next, Init;
    var states: seq<State>, steps: seq<Step> :| Run(states, steps) && states[|steps|] == f;
    var states', steps' := states + [f'], steps + [e];
    forall i | 0 <= i < |steps'| ensures Enabled(states'[i], steps'[i]) && states'[i + 1] == Next(states'[i], steps'[i]) {
      if i < |steps| { assert Enabled(states[i], steps[i]); }
    }
    assert Run(states', steps') && states'[|steps'|] == f';
  }

  // ---- The call is answered before its caller looks

  const NOBODY: seq<Option<Claim>> := [None, None, None]
  const NO_LOOKS: seq<Option<Look>> := [None, None, None]
  const NO_WAITS: seq<Option<nat>> := [None, None, None]

  /** How often each message was built: 0 and 1 as given, the next n once. */
  function Counts(a: nat, b: nat, n: nat): seq<nat> {
    [a, b] + seq(30, j => if j < n then 1 else 0)
  }

  const CALL: Claim := Claim(0, true, 1)
  const SLOW: Look := Look(CALL, 1, 31)
  const REPLY: Claim := Claim(1, false, 1)

  const F0: State := State(X.START, NOBODY, NO_LOOKS, NO_WAITS, 0, Counts(0, 0, 0))
  const F1: State := State(X.S1, [None, None, Some(CALL)], NO_LOOKS, NO_WAITS, 1, Counts(1, 0, 0))

  /** The caller has still to look. */
  function Slow(s: B.State): State { State(s, NOBODY, [None, None, Some(SLOW)], NO_WAITS, 1, Counts(1, 0, 0)) }

  // ---- Steps of the protocol as steps here

  /** A step that neither builds nor posts nor records. */
  lemma Plain(f: State, e: B.Step, s': B.State)
    requires Shaped(f) && X.Takes(f.bus, e, s') && Idle(f, Actor(e))
    requires !Builds(e) && !e.Post? && !e.BusRecord? && !e.Wake?
    ensures Takes(f, Do(e), f.(bus := s'))
  {
    hide B.Enabled, B.Next;
  }

  lemma Records(f: State, s': B.State)
    requires Shaped(f) && X.Takes(f.bus, B.BusRecord, s') && Idle(f, 0) && |f.own| > 0 && f.own[0].None?
    ensures Takes(f, Do(B.BusRecord), f.(bus := s'))
  {
    hide B.Enabled, B.Next;
    assert f.own[0 := None] == f.own;
  }

  lemma Building(f: State, e: B.Step, s': B.State)
    requires Shaped(f) && X.Takes(f.bus, e, s') && Idle(f, Actor(e)) && Invokes(e)
    requires f.bus.pool.free != [] && f.bus.pool.free[0] < |f.builds| && Actor(e) < |f.own|
    ensures Takes(f, Do(e), CountBuild(f, e).(bus := s'))
  {
    hide B.Enabled, B.Next;
  }

  lemma Posting(f: State, t: nat, s': B.State)
    requires Shaped(f) && X.Takes(f.bus, B.Post(t), s') && Idle(f, t) && t < |f.own|
    ensures Takes(f, Do(B.Post(t)), f.(bus := s', own := f.own[t := None],
              looks := if f.own[t].Some? then f.looks[t := Some(Look(f.own[t].value, f.built, |f.bus.pool.free|))] else f.looks))
  {
    hide B.Enabled, B.Next;
  }

  /** A look at a message that is no synchronous call, by a task inside of no call. */
  lemma LooksAway(f: State, t: nat)
    requires Shaped(f) && t < |f.looks| && f.looks[t].Some? && f.looks[t].value.claim.msg < |f.bus.pool.msgs|
    requires !f.bus.pool.msgs[f.looks[t].value.claim.msg].kind.SyncCall? && f.bus.tasks[t].call.None?
    requires f.bus.sound && !f.looks[t].value.claim.sync
    ensures Takes(f, LookAt(t), f.(looks := f.looks[t := None]))
  {
    assert DecidesRight(f, t) && f.bus.(sound := true) == f.bus;
  }

  lemma StartReached()
    ensures Reached(F0)
  {
    X.Start();
    hide B.Init, Enabled, Next;
    assert Init(F0);
    var states: seq<State>, steps: seq<Step> := [F0], [];
    assert Run(states, steps);
  }

  lemma CountsStep()
    ensures Counts(0, 0, 0)[0 := 1] == Counts(1, 0, 0) && Counts(1, 0, 0)[1 := 1] == Counts(1, 1, 0)
    ensures forall n: nat :: n < 30 ==> Counts(1, 1, n)[n + 2 := 1] == Counts(1, 1, n + 1)
    ensures Counts(1, 1, 30)[0 := 2] == Counts(2, 1, 30) && Counts(2, 1, 30)[1 := 2] == Counts(2, 2, 30)
  {
  }

  lemma Issues()
    ensures Takes(F0, Do(B.IssueCall(2, true, false, 1, 7)), F1)
    ensures Takes(F1, Do(B.Post(2)), Slow(X.S2))
  {
    X.Issues();
    X.Asks();
    CountsStep();
    hide B.Enabled, B.Next;
    Building(F0, B.IssueCall(2, true, false, 1, 7), X.S1);
    Posting(F1, 2, X.S2);
    assert F1.own[2 := None] == NOBODY && NO_LOOKS[2 := Some(SLOW)] == [None, None, Some(SLOW)];
    assert NOBODY[2 := Some(CALL)] == F1.own;
  }

  lemma Serves()
    ensures Takes(Slow(X.S2), Do(B.Receive(0)), Slow(X.S3)) && Takes(Slow(X.S3), Do(B.BusRecord), Slow(X.S4))
    ensures Takes(Slow(X.S4), Do(B.Post(0)), Slow(X.S5)) && Takes(Slow(X.S5), Do(B.Receive(1)), Slow(X.S6))
  {
    X.Asks(); X.Records(); X.Serves();
    hide B.Enabled, B.Next;
    Plain(Slow(X.S2), B.Receive(0), X.S3);
    Records(Slow(X.S3), X.S4);
    Posting(Slow(X.S4), 0, X.S5);
    assert NOBODY[0 := None] == NOBODY;
    Plain(Slow(X.S5), B.Receive(1), X.S6);
  }

  /** The reply has been built as well. */
  function Late(s: B.State): State { State(s, NOBODY, [None, None, Some(SLOW)], NO_WAITS, 2, Counts(1, 1, 0)) }

  const F7: State := Late(X.S7).(own := [None, Some(REPLY), None])
  const F8: State := Late(X.S8).(looks := [None, Some(Look(REPLY, 2, 30)), Some(SLOW)])

  lemma Replies()
    ensures Takes(Slow(X.S6), Do(B.Reply(1, 1, 8)), F7) && Takes(F7, Do(B.Post(1)), F8) && Takes(F8, LookAt(1), Late(X.S8))
  {
    X.Replies(); X.Returns();
    CountsStep();
    hide B.Enabled, B.Next;
    Building(Slow(X.S6), B.Reply(1, 1, 8), X.S7);
    assert NOBODY[1 := Some(REPLY)] == F7.own;
    Posting(F7, 1, X.S8);
    assert F7.own[1 := None] == NOBODY && F7.looks[1 := Some(Look(REPLY, 2, 30))] == F8.looks;
    LooksAway(F8, 1);
    assert F8.looks[1 := None] == [None, None, Some(SLOW)];
  }

  /** The caller has its token and its answer, and has not looked yet. */
  const DONE: B.Task := X.WAITING.(callSem := 1, out := 8)
  const OLD: Message := X.FORWARD.(ref := 0)

  /** The call is over; p is the pool, k signals have been sent since. */
  function Over(bus: B.Task, service: B.Task, p: Pool, k: nat): B.State {
    B.State([0, 1], 40, p, 1 + k, [bus, service, DONE], [[], []], [[], []],
            1 + k, map[1 := X.CallIn(B.Closed)], map[1 := 8], map[], multiset{}, multiset{}, true)
  }

  function Ids(from: nat, n: nat): seq<nat> { seq(n, j requires 0 <= j => from + j) }

  const BUSY: B.Task := X.QUIET.(handling := B.Busy(1))
  const S12: B.State := Over(BUSY, X.SERVING, Pool(X.Messages([X.FORWARD.(ref := 1), X.REPLY]), Ids(2, 30), 30), 0)
  const S13: B.State := Over(BUSY, X.QUIET, Pool(X.Messages([OLD, X.REPLY]), Ids(2, 30) + [0], 31), 0)

  lemma RetiresIt()
    ensures X.Takes(X.S10, B.BusRetire, S12)
  {
    assert B.Next(X.S10, B.BusRetire).tasks == S12.tasks;
    var l := X.S10.lists[1];
    assert l[..0] + l[1..] == [];
    assert B.Next(X.S10, B.BusRetire).lists == S12.lists;
    assert B.Next(X.S10, B.BusRetire).pool.msgs == S12.pool.msgs;
    assert X.S10.pool.free == Ids(2, 30);
  }

  /** The signals: message 2 + j is the j-th of them. */
  function Sig(seqno: nat): Message { Message(seqno, 0, Signal, 1, 1, 1, 0, false, 0) }

  function Signals(n: nat): seq<Message> { seq(n, j requires 0 <= j => Sig(2 + j)) }

  function PoolAfter(k: nat): Pool
    requires k <= 30
  {
    Pool([OLD, X.REPLY] + Signals(k) + seq(30 - k, _ => X.BLANK), Ids(2 + k, 30 - k) + [0, 1], 32 - k)
  }

  function AfterBus(k: nat): B.State
    requires k <= 30
  {
    Over(X.QUIET, X.QUIET.(queue := Ids(2, k)), PoolAfter(k), k)
  }

  lemma Releases()
    ensures X.Takes(S12, B.Finish(1), S13) && X.Takes(S13, B.Finish(0), AfterBus(0))
  {
    assert B.Next(S12, B.Finish(1)).tasks == S13.tasks;
    assert B.Next(S12, B.Finish(1)).pool.msgs == S13.pool.msgs;
    assert Ids(2, 0) == [];
    assert B.Next(S13, B.Finish(0)).tasks == AfterBus(0).tasks;
    assert B.Next(S13, B.Finish(0)).pool.msgs == AfterBus(0).pool.msgs;
    assert Ids(2, 30) + [0] + [1] == AfterBus(0).pool.free;
  }

  /** k signals have been sent; the caller has still not looked. */
  function After(k: nat): State
    requires k <= 30
  {
    State(AfterBus(k), NOBODY, [None, None, Some(SLOW)], NO_WAITS, 2 + k, Counts(1, 1, k))
  }

  lemma Answered()
    ensures Reached(After(0))
  {
    StartReached();
    Issues();
    Serves();
    Replies();
    Ends();
    hide Takes, Reached;
    Extends(F0, Do(B.IssueCall(2, true, false, 1, 7)), F1);
    Extends(F1, Do(B.Post(2)), Slow(X.S2));
    Extends(Slow(X.S2), Do(B.Receive(0)), Slow(X.S3));
    Extends(Slow(X.S3), Do(B.BusRecord), Slow(X.S4));
    Extends(Slow(X.S4), Do(B.Post(0)), Slow(X.S5));
    Extends(Slow(X.S5), Do(B.Receive(1)), Slow(X.S6));
    Extends(Slow(X.S6), Do(B.Reply(1, 1, 8)), F7);
    Extends(F7, Do(B.Post(1)), F8);
    Extends(F8, LookAt(1), Late(X.S8));
    Extends(Late(X.S8), Do(B.Receive(0)), Late(X.S9));
    Extends(Late(X.S9), Do(B.BusMatch), Late(X.S10));
    Extends(Late(X.S10), Do(B.BusRetire), Late(S12));
    Extends(Late(S12), Do(B.Finish(1)), Late(S13));
    Extends(Late(S13), Do(B.Finish(0)), After(0));
  }

  lemma Ends()
    ensures Takes(Late(X.S8), Do(B.Receive(0)), Late(X.S9)) && Takes(Late(X.S9), Do(B.BusMatch), Late(X.S10))
    ensures Takes(Late(X.S10), Do(B.BusRetire), Late(S12)) && Takes(Late(S12), Do(B.Finish(1)), Late(S13))
    ensures Takes(Late(S13), Do(B.Finish(0)), After(0))
  {
    X.Returns(); X.Matches(); RetiresIt(); Releases();
    LateShaped();
    hide B.Enabled, B.Next, Shaped;
    Plain(Late(X.S8), B.Receive(0), X.S9);
    Plain(Late(X.S9), B.BusMatch, X.S10);
    Plain(Late(X.S10), B.BusRetire, S12);
    Plain(Late(S12), B.Finish(1), S13);
    Plain(Late(S13), B.Finish(0), AfterBus(0));
  }

  lemma LateShaped()
    ensures Shaped(Late(X.S8)) && Shaped(Late(X.S9)) && Shaped(Late(X.S10)) && Shaped(Late(S12)) && Shaped(Late(S13))
  {
  }

  // ---- Signals until the message comes round again

  const SIGNAL: B.Step := B.IssueSignal(1, false, 1, 1, 0)

  function SendingBus(k: nat): B.State
    requires k < 30
  {
    Over(X.QUIET, X.QUIET.(queue := Ids(2, k), held := Some(2 + k)), PoolAfter(k + 1), k + 1)
  }

  lemma PoolRound(k: nat)
    requires k < 30
    ensures CanAlloc(PoolAfter(k)) && PoolAfter(k).free[0] == 2 + k
    ensures Alloc(PoolAfter(k), Sig(2 + k)) == PoolAfter(k + 1)
  {
    assert PoolAfter(k).free[1..] == PoolAfter(k + 1).free;
    assert PoolAfter(k).msgs[2 + k := Sig(2 + k)] == PoolAfter(k + 1).msgs;
  }

  lemma SignalBuilt(k: nat)
    requires k < 30
    ensures X.Takes(AfterBus(k), SIGNAL, SendingBus(k))
  {
    PoolRound(k);
    hide PoolAfter, Ids;
    assert B.Next(AfterBus(k), SIGNAL).tasks == SendingBus(k).tasks;
  }

  lemma SignalPosted(k: nat)
    requires k < 30
    ensures X.Takes(SendingBus(k), B.Post(1), AfterBus(k + 1))
  {
    assert Ids(2, k) + [2 + k] == Ids(2, k + 1);
    assert PoolAfter(k + 1).msgs[2 + k] == Sig(2 + k) && |PoolAfter(k + 1).msgs| == 32;
    hide PoolAfter, Ids;
    assert B.Next(SendingBus(k), B.Post(1)).tasks == AfterBus(k + 1).tasks;
  }

  /** The signal is in hand; then it is posted and about to be looked at. */
  function Sending(k: nat): State
    requires k < 30
  {
    State(SendingBus(k), [None, Some(Claim(2 + k, false, 1)), None], [None, None, Some(SLOW)], NO_WAITS, 3 + k, Counts(1, 1, k + 1))
  }

  function Sent(k: nat): State
    requires k < 30
  {
    After(k + 1).(looks := [None, Some(Look(Claim(2 + k, false, 1), 3 + k, 31 - k)), Some(SLOW)])
  }

  lemma RoundBuilds(k: nat)
    requires k < 30
    ensures Takes(After(k), Do(SIGNAL), Sending(k))
  {
    SignalBuilt(k);
    PoolRound(k);
    CountsStep();
    assert |PoolAfter(k).msgs| == 32;
    hide B.Enabled, B.Next, PoolAfter;
    Building(After(k), SIGNAL, SendingBus(k));
    assert NOBODY[1 := Some(Claim(2 + k, false, 1))] == Sending(k).own;
  }

  lemma RoundPosts(k: nat)
    requires k < 30
    ensures Takes(Sending(k), Do(B.Post(1)), Sent(k)) && Takes(Sent(k), LookAt(1), After(k + 1))
  {
    SignalPosted(k);
    assert |PoolAfter(k + 1).msgs| == 32 && PoolAfter(k + 1).msgs[2 + k] == Sig(2 + k);
    assert |PoolAfter(k + 1).free| == 31 - k;
    hide B.Enabled, B.Next, PoolAfter;
    Posting(Sending(k), 1, AfterBus(k + 1));
    assert Sending(k).own[1 := None] == NOBODY;
    assert Sending(k).looks[1 := Some(Look(Claim(2 + k, false, 1), 3 + k, 31 - k))] == Sent(k).looks;
    LooksAway(Sent(k), 1);
    assert Sent(k).looks[1 := None] == After(k + 1).looks;
  }

  lemma {:induction false} Rounds(k: nat)
    requires k <= 30
    ensures Reached(After(k))
  {
    if k == 0 {
      Answered();
    } else {
      Rounds(k - 1);
      RoundBuilds(k - 1);
      RoundPosts(k - 1);
      hide Takes, Reached;
      Extends(After(k - 1), Do(SIGNAL), Sending(k - 1));
      Extends(Sending(k - 1), Do(B.Post(1)), Sent(k - 1));
      Extends(Sent(k - 1), LookAt(1), After(k));
    }
  }

  // ---- The message is built again, and the caller looks

  const SENDING: B.Task := X.QUIET.(queue := Ids(2, 30), held := Some(0))

  const SPOILT_BUS: B.State := Over(X.QUIET, SENDING, Pool([Sig(32), X.REPLY] + Signals(30), [1], 1), 31)
  const SPOILT: State :=
    State(SPOILT_BUS, [None, Some(Claim(0, false, 2)), None], [None, None, Some(SLOW)], NO_WAITS, 33, Counts(2, 1, 30))

  lemma PoolSpoilt()
    ensures CanAlloc(PoolAfter(30)) && PoolAfter(30).free[0] == 0
    ensures Alloc(PoolAfter(30), Sig(32)) == SPOILT_BUS.pool
  {
    assert PoolAfter(30).free == [0, 1];
    assert PoolAfter(30).free[1..] == [1];
    assert PoolAfter(30).msgs[0 := Sig(32)] == [Sig(32), X.REPLY] + Signals(30);
  }

  lemma Spoils()
    ensures Takes(After(30), Do(SIGNAL), SPOILT)
  {
    PoolSpoilt();
    CountsStep();
    assert |PoolAfter(30).msgs| == 32;
    hide PoolAfter, Ids;
    assert B.Enabled(AfterBus(30), SIGNAL);
    assert B.Next(AfterBus(30), SIGNAL).tasks == SPOILT_BUS.tasks;
    assert X.Takes(AfterBus(30), SIGNAL, SPOILT_BUS);
    hide B.Enabled, B.Next;
    Building(After(30), SIGNAL, SPOILT_BUS);
    assert NOBODY[1 := Some(Claim(0, false, 2))] == SPOILT.own;
  }

  /** The caller has left its call with its token still there. */
  const GONE: B.Task := X.QUIET.(callSem := 1, out := 8)
  const LEFT: State :=
    SPOILT.(looks := NO_LOOKS, bus := SPOILT_BUS.(tasks := [X.QUIET, SENDING, GONE], returned := map[1 := 8], sound := false))

  lemma LooksWrong()
    ensures Takes(SPOILT, LookAt(2), LEFT)
  {
    assert SPOILT.looks[2 := None] == NO_LOOKS;
    assert SPOILT_BUS.tasks[2 := GONE] == LEFT.bus.tasks;
    assert SPOILT_BUS.pool.msgs[0] == Sig(32) && |SPOILT_BUS.pool.msgs| == 32;
  }

  // ---- The next call of the same task

  const SECOND: Message := Message(33, 1, SyncCall, 1, 2, 0, 9, false, 33)

  function SecondCall(phase: B.Phase): B.Call { B.Call(true, false, 2, 1, 1, 33, phase) }

  /** The second call is under way; m is its message, now number 1. */
  function Again(bus: B.Task, caller: B.Task, m: Message, phase: B.Phase, listed: bool, returned: map<nat, int>): B.State {
    B.State([0, 1], 40, Pool([Sig(32), m] + Signals(30), [], 0), 33, [bus, SENDING, caller],
            [[], if listed then [B.Pending(1, true, 33)] else []], [[], []],
            33, map[1 := X.CallIn(B.Closed), 33 := SecondCall(phase)], map[1 := 8], returned, multiset{}, multiset{}, false)
  }

  const ASK: B.Step := B.IssueCall(2, true, false, 1, 9)
  const ONCE: map<nat, int> := map[1 := 8]
  const INSIDE: B.Task := GONE.(call := Some(33))
  const G1: B.State := Again(X.QUIET, INSIDE.(held := Some(1)), SECOND, B.Requested, false, ONCE)
  const G2: B.State := Again(X.QUIET.(queue := [1]), INSIDE, SECOND, B.Requested, false, ONCE)

  lemma AsksAgain()
    ensures X.Takes(LEFT.bus, ASK, G1)
  {
    assert Alloc(LEFT.bus.pool, SECOND) == G1.pool by {
      assert LEFT.bus.pool.msgs[1 := SECOND] == G1.pool.msgs;
    }
    hide Ids;
    assert B.Next(LEFT.bus, ASK).tasks == G1.tasks;
  }

  lemma PostsAgain()
    ensures X.Takes(G1, B.Post(2), G2)
  {
    hide Ids;
    assert G1.pool.msgs[1] == SECOND && |G1.pool.msgs| == 32;
    X.OneInQueue(1 as nat);
    assert B.Next(G1, B.Post(2)).tasks == G2.tasks;
  }

  const MINE: Claim := Claim(1, true, 2)

  function Second(s: B.State, own: Option<Claim>, look: Option<Look>, wait: Option<nat>): State {
    State(s, [None, Some(Claim(0, false, 2)), own], [None, None, look], [None, None, wait], 34, Counts(2, 2, 30))
  }

  const H1: State := Second(G1, Some(MINE), None, None)
  const H2: State := Second(G2, None, Some(Look(MINE, 34, 0)), None)
  const H3: State := Second(G2, None, None, Some(2))

  lemma CallsAgain()
    ensures Takes(LEFT, Do(ASK), H1) && Takes(H1, Do(B.Post(2)), H2) && Takes(H2, LookAt(2), H3)
  {
    AsksAgain();
    PostsAgain();
    CountsStep();
    assert G2.pool.msgs[1] == SECOND && |G2.pool.msgs| == 32 == |G1.pool.msgs| == |LEFT.bus.pool.msgs|;
    hide B.Enabled, B.Next, Ids;
    Building(LEFT, ASK, G1);
    assert LEFT.own[2 := Some(MINE)] == H1.own;
    Posting(H1, 2, G2);
    assert H1.own[2 := None] == H2.own && H1.looks[2 := Some(Look(MINE, 34, 0))] == H2.looks;
    assert H2.looks[2 := None] == H3.looks && H2.waits[2 := Some(2)] == H3.waits;
  }

  const TWICE: map<nat, int> := map[1 := 8, 33 := 8]
  const AWAY: B.Task := X.QUIET.(out := 8)
  const G4: B.State := Again(X.QUIET.(queue := [1]), AWAY, SECOND, B.Requested, false, TWICE)
  const G5: B.State := Again(X.QUIET.(handling := B.Fresh(1)), AWAY, SECOND, B.Requested, false, TWICE)
  const G6: B.State := Again(X.QUIET.(held := Some(1)), AWAY, SECOND.(ref := 2, dst := 1), B.Recorded, true, TWICE)
  const H4: State := Second(G4, None, None, None)
  const H5: State := Second(G5, None, None, None)
  const H6: State := Second(G6, None, None, None)

  lemma WakesAtOnce()
    ensures Takes(H3, Wake(2), H4)
  {
    hide Ids;
    assert |G2.pool.msgs| == 32;
    assert H3.waits[2 := None] == H4.waits;
    var bus := B.SetTask(G2, 2, G2.tasks[2].(callSem := 0));
    assert ComeBack(bus, 2).tasks == G4.tasks;
    assert ComeBack(bus, 2).returned == TWICE;
  }

  lemma RecordsAgain()
    ensures X.Takes(G4, B.Receive(0), G5) && X.Takes(G5, B.BusRecord, G6)
  {
    hide Ids;
    assert |G4.pool.msgs| == 32 && G4.pool.msgs[1] == SECOND && G5.pool == G4.pool;
    X.OneInQueue(1 as nat);
    assert B.Next(G4, B.Receive(0)).tasks == G5.tasks;
    X.OneInQueue(B.Pending(1, true, 33));
    assert B.Next(G5, B.BusRecord).tasks == G6.tasks;
    assert B.Next(G5, B.BusRecord).lists == G6.lists;
    assert B.Next(G5, B.BusRecord).pool.msgs == G6.pool.msgs;
  }

  lemma EndsUp()
    ensures Takes(H4, Do(B.Receive(0)), H5) && Takes(H5, Do(B.BusRecord), H6)
  {
    RecordsAgain();
    assert |G4.pool.msgs| == |G5.pool.msgs| == 32;
    hide B.Enabled, B.Next, Ids;
    Plain(H4, B.Receive(0), G5);
    Records(H5, G6);
  }

  /** A state that no run should reach: a token without a call to wait in. */
  lemma TokenLeftBehind()
    ensures Reached(LEFT)
    ensures LEFT.bus.tasks[2].call.None? && LEFT.bus.tasks[2].callSem == 1
  {
    Rounds(30);
    Spoils();
    LooksWrong();
    hide Takes, Reached;
    Extends(After(30), Do(SIGNAL), SPOILT);
    Extends(SPOILT, LookAt(2), LEFT);
  }

  /**
   * The slow look, all told: the next call returns a value although nobody has replied to it, and its entry
   * is pending while its caller is not inside of it.
   */
  lemma SlowLookBreaksCalls()
    ensures Reached(H6)
    ensures 33 in H6.bus.returned && 33 !in H6.bus.replied
    ensures H6.bus.lists[1] == [B.Pending(1, true, 33)] && H6.bus.pool.msgs[1].src == 2
    ensures H6.bus.tasks[2].call.None? && H6.bus.tasks[0].handling.Idle?
  {
    TokenLeftBehind();
    CallsAgain();
    WakesAtOnce();
    EndsUp();
    hide Takes, Reached;
    Extends(LEFT, Do(ASK), H1);
    Extends(H1, Do(B.Post(2)), H2);
    Extends(H2, LookAt(2), H3);
    Extends(H3, Wake(2), H4);
    Extends(H4, Do(B.Receive(0)), H5);
    Extends(H5, Do(B.BusRecord), H6);
  }
}
