/** A run in which a synchronous caller has its reply and is gone while its entry is still listed. */
module BusExample {
  import opened Options
  import opened MessagePool
  import opened Bus

  /** The message of the call, before and after the bus took its reference. */
  const REQUEST: Message := Message(1, 1, SyncCall, 1, 2, 0, 7, false, 1)
  const FORWARD: Message := Message(1, 2, SyncCall, 1, 2, 1, 7, false, 1)
  const REPLY: Message := Message(1, 0, CallReturn, 1, 1, 0, 8, false, 1)
  const BLANK: Message := Message(0, 0, Signal, 0, 0, 0, 0, false, 0)
  const QUIET: Task := Task([], None, Idle, None, 0, 0)

  /** The messages the example uses are 0 and 1; the free list always begins with the next one. */
  function Messages(used: seq<Message>): seq<Message>
    requires |used| <= MBLUE_MAX_MESSAGE_NUM
  {
    used + seq(MBLUE_MAX_MESSAGE_NUM - |used|, _ => BLANK)
  }

  function PoolOf(used: seq<Message>): Pool
    requires |used| <= MBLUE_MAX_MESSAGE_NUM
  {
    var n := MBLUE_MAX_MESSAGE_NUM - |used|;
    Pool(Messages(used), seq(n, k requires 0 <= k < n => |used| + k), n)
  }

  function CallIn(phase: Phase): Call { Call(true, false, 2, 1, 0, 1, phase) }

  /** Bus, service and caller; what was used of the pool; how far the call has come. */
  function At(bus: Task, service: Task, caller: Task, used: seq<Message>, listed: bool, phase: Phase): State
    requires |used| <= MBLUE_MAX_MESSAGE_NUM
  {
    State([0, 1], 40, PoolOf(used), 1, [bus, service, caller],
          [[], if listed then [Pending(0, true, 1)] else []], [[], []],
          1, map[1 := CallIn(phase)], if phase.Answered? || phase.Closed? then map[1 := 8] else map[], map[], multiset{}, multiset{}, true)
  }

  const START: State := State(
    [0, 1], 40, PoolOf([]), 0, [QUIET, QUIET, QUIET], [[], []], [[], []],
    0, map[], map[], map[], multiset{}, multiset{}, true)

  const WAITING: Task := QUIET.(call := Some(1))

  lemma Alloc0(m: Message)
    ensures CanAlloc(PoolOf([])) && PoolOf([]).free[0] == 0 && Alloc(PoolOf([]), m) == PoolOf([m])
  {
  }

  lemma Alloc1(used: Message, m: Message)
    ensures CanAlloc(PoolOf([used])) && PoolOf([used]).free[0] == 1 && Alloc(PoolOf([used]), m) == PoolOf([used, m])
  {
  }

  lemma Start()
    ensures Init(START)
  {
    forall id | 0 <= id < MBLUE_MAX_MESSAGE_NUM ensures OwnedRight(START.pool, Nobody(), id) {
      assert START.pool.free[id] == id;
    }
  }

  const SERVING: Task := QUIET.(handling := Busy(0))
  const ASKING: Task := WAITING.(held := Some(0))
  const BOTH: seq<Message> := [FORWARD, REPLY]

  const S1: State := At(QUIET, QUIET, ASKING, [REQUEST], false, Requested)
  const S2: State := At(QUIET.(queue := [0]), QUIET, WAITING, [REQUEST], false, Requested)
  const S3: State := At(QUIET.(handling := Fresh(0)), QUIET, WAITING, [REQUEST], false, Requested)
  const S4: State := At(QUIET.(held := Some(0)), QUIET, WAITING, [FORWARD], true, Recorded)
  const S5: State := At(QUIET, QUIET.(queue := [0]), WAITING, [FORWARD], true, Recorded)
  const S6: State := At(QUIET, SERVING, WAITING, [FORWARD], true, Serving)
  const S7: State := At(QUIET, SERVING.(held := Some(1)), WAITING, BOTH, true, Answered(1))
  const S8: State := At(QUIET.(queue := [1]), SERVING, WAITING, BOTH, true, Answered(1))
  const S9: State := At(QUIET.(handling := Fresh(1)), SERVING, WAITING, BOTH, true, Answered(1))
  const S10: State := At(QUIET.(handling := Retiring(1, 1, 0)), SERVING, WAITING.(callSem := 1, out := 8), BOTH, true, Closed)
  const S11: State :=
    At(QUIET.(handling := Retiring(1, 1, 0)), SERVING, QUIET.(out := 8), BOTH, true, Closed).(returned := map[1 := 8])

  /** One step of the run. */
  ghost predicate Takes(s: State, e: Step, s': State) { Enabled(s, e) && Next(s, e) == s' }

  lemma Issues()
    ensures Takes(START, IssueCall(2, true, false, 1, 7), S1)
  {
    Alloc0(REQUEST);
    hide PoolOf;
  }

  lemma OneInQueue<T>(x: T)
    ensures [] + [x] == [x] && [x][1..] == []
  {
  }

  lemma Asks()
    ensures Takes(S1, Post(2), S2) && Takes(S2, Receive(0), S3)
  {
    OneInQueue(0 as nat);
    assert Next(S1, Post(2)).tasks == S2.tasks;
    assert Next(S2, Receive(0)).tasks == S3.tasks;
  }

  lemma Records()
    ensures Takes(S3, BusRecord, S4)
  {
    assert Address(Get(PoolOf([REQUEST]), 0), 0, 1) == PoolOf([FORWARD]);
    OneInQueue(Pending(0, true, 1));
    assert Next(S3, BusRecord).tasks == S4.tasks;
    assert Next(S3, BusRecord).lists == S4.lists;
  }

  lemma Serves()
    ensures Takes(S4, Post(0), S5) && Takes(S5, Receive(1), S6)
  {
    OneInQueue(0 as nat);
    assert Next(S4, Post(0)).tasks == S5.tasks;
    assert Next(S5, Receive(1)).tasks == S6.tasks;
  }

  lemma Replies()
    ensures Takes(S6, Reply(1, 1, 8), S7)
  {
    Alloc1(FORWARD, REPLY);
    hide PoolOf;
  }

  lemma Returns()
    ensures Takes(S7, Post(1), S8) && Takes(S8, Receive(0), S9)
  {
    OneInQueue(1 as nat);
    assert Next(S7, Post(1)).tasks == S8.tasks;
    assert Next(S8, Receive(0)).tasks == S9.tasks;
  }

  lemma Matches()
    ensures Takes(S9, BusMatch, S10)
  {
    assert FindEntry(S9.pool, S9.lists[1], 1, 0) == Some(0);
  }

  lemma Wakes()
    ensures Takes(S10, Wake(2), S11)
  {
  }

  const STATES: seq<State> := [START, S1, S2, S3, S4, S5, S6, S7, S8, S9, S10, S11]
  const STEPS: seq<Step> := [
    IssueCall(2, true, false, 1, 7), Post(2), Receive(0), BusRecord, Post(0), Receive(1),
    Reply(1, 1, 8), Post(1), Receive(0), BusMatch, Wake(2)]

  /**
   * The run reaches a state in which the caller has returned with the reply's payload, while its entry is
   * still in the bus's list.
   */
  lemma EntryOutlivesCall()
    ensures Run(STATES, STEPS)
    ensures var s := STATES[|STEPS|];
            && s.tasks[2].call.None? && s.returned == map[1 := 8]
            && s.lists[1] == [Pending(0, true, 1)] && s.pool.msgs[0].src == 2
  {
    Start();
    Issues(); Asks(); Records(); Serves(); Replies(); Returns(); Matches(); Wakes();
    hide Init, Enabled, Next;
    forall i | 0 <= i < |STEPS| ensures Takes(STATES[i], STEPS[i], STATES[i + 1]) {
    }
  }
}
