/**
 * The bus protocol with the look a task takes after it has posted. The code that hands a message over
 * reads the message once more, to see whether it was a synchronous call and whose semaphore to wait on;
 * by then the message may have been handled, freed and built again by somebody else.
 */
module BusLook {
  import opened Options
  import opened MessagePool
  import B = Bus

  /**
   * What a task has built and not yet looked at again: the message, whether it is a synchronous call, the
   * number of times the message had been built then, and how many builds there had been in all. free is
   * the number of free messages when it was posted.
   */
  datatype Claim = Claim(msg: nat, sync: bool, stamp: nat)
  datatype Look = Look(claim: Claim, since: nat, free: nat)

  /**
   * bus is the protocol so far; there, a task is inside of a call from the moment it builds it. own is what
   * a task has in hand and built itself, looks what it has posted and will look at, waits the task whose
   * semaphore it waits on. built and builds count builds: all of them, and those of each message.
   */
  datatype State = State(
    bus: B.State, own: seq<Option<Claim>>, looks: seq<Option<Look>>, waits: seq<Option<nat>>, built: nat, builds: seq<nat>)

  datatype Step = Do(e: B.Step) | LookAt(t: nat) | Wake(t: nat)

  /** The task whose code a step is. */
  function Actor(e: B.Step): nat {
    match e
    case IssueCall(t, _, _, _, _) => t
    case IssueFails(t) => t
    case IssueSignal(t, _, _, _, _) => t
    case Post(t) => t
    case Receive(t) => t
    case Reply(t, _, _) => t
    case Finish(t) => t
    case Abandon(t) => t
    case Wake(t) => t
    case _ => 0
  }

  /** The step builds a message from the free list. */
  predicate Builds(e: B.Step) { e.IssueCall? || e.IssueSignal? || e.Reply? || e.BusReplicate? }

  /** The message will be posted by code that looks again: not so the bus's own forwarding. */
  predicate Invokes(e: B.Step) { e.IssueCall? || e.IssueSignal? || e.Reply? }

  ghost predicate Shaped(f: State) {
    && |f.own| == |f.looks| == |f.waits| == |f.bus.tasks| && |f.builds| == |f.bus.pool.msgs|
  }

  predicate Idle(f: State, t: nat) { t < |f.looks| && t < |f.waits| && f.looks[t].None? && f.waits[t].None? }

  ghost predicate Enabled(f: State, e: Step) {
    Shaped(f) &&
    match e
    case Do(b) => !b.Wake? && B.Enabled(f.bus, b) && Idle(f, Actor(b))
    case LookAt(t) =>
      t < |f.looks| && f.looks[t].Some? && f.looks[t].value.claim.msg < |f.bus.pool.msgs|
    case Wake(t) =>
      t < |f.waits| && f.looks[t].None? && f.waits[t].Some? && f.waits[t].value < |f.bus.tasks|
      && f.bus.tasks[f.waits[t].value].callSem > 0
  }

  /** A task that was inside of a call comes out of it with what its variable holds. */
  function ComeBack(s: B.State, t: nat): B.State
    requires t < |s.tasks|
  {
    match s.tasks[t].call
    case None => s
    case Some(i) => B.SetTask(s, t, s.tasks[t].(call := None)).(returned := s.returned[i := s.tasks[t].out])
  }

  /** A build is counted, and claimed by a task that will look again. */
  function CountBuild(f: State, e: B.Step): State
    requires f.bus.pool.free != [] && f.bus.pool.free[0] < |f.builds| && Actor(e) < |f.own|
  {
    var id := f.bus.pool.free[0];
    var stamp := f.builds[id] + 1;
    f.(built := f.built + 1, builds := f.builds[id := stamp],
       own := f.own[Actor(e) := if Invokes(e) then Some(Claim(id, e.IssueCall? && e.sync, stamp)) else None])
  }

  ghost function DoStep(f: State, e: B.Step): State
    requires Shaped(f) && B.Enabled(f.bus, e) && Idle(f, Actor(e))
  {
    var g := if Builds(e) then CountBuild(f, e) else f;
    var bus := B.Next(f.bus, e);
    match e
    case BusRecord => g.(bus := bus, own := g.own[0 := None])
    case Post(t) =>
      g.(bus := bus, own := g.own[t := None],
         looks := if g.own[t].Some? then g.looks[t := Some(Look(g.own[t].value, g.built, |f.bus.pool.free|))] else g.looks)
    case _ => g.(bus := bus)
  }

  /** The look leads to the wait that the task's own message asks for. */
  predicate DecidesRight(f: State, t: nat)
    requires t < |f.looks| && f.looks[t].Some? && f.looks[t].value.claim.msg < |f.bus.pool.msgs|
  {
    var c := f.looks[t].value.claim;
    var m := f.bus.pool.msgs[c.msg];
    (m.kind.SyncCall? <==> c.sync) && (c.sync ==> m.src == t)
  }

  /**
   * Wait on the semaphore of the task the message names, if it now is a synchronous call; else go on. That a
   * look went wrong is history.
   */
  function DoLook(f: State, t: nat): State
    requires t < |f.looks| && t < |f.waits| && t < |f.bus.tasks|
    requires f.looks[t].Some? && f.looks[t].value.claim.msg < |f.bus.pool.msgs|
  {
    var m := f.bus.pool.msgs[f.looks[t].value.claim.msg];
    var g := f.(looks := f.looks[t := None], bus := f.bus.(sound := f.bus.sound && DecidesRight(f, t)));
    if m.kind.SyncCall? then g.(waits := g.waits[t := Some(m.src)]) else g.(bus := ComeBack(g.bus, t))
  }

  function DoWake(f: State, t: nat): State
    requires t < |f.waits| && t < |f.bus.tasks| && f.waits[t].Some? && f.waits[t].value < |f.bus.tasks|
    requires f.bus.tasks[f.waits[t].value].callSem > 0
  {
    var u := f.waits[t].value;
    var bus := B.SetTask(f.bus, u, f.bus.tasks[u].(callSem := f.bus.tasks[u].callSem - 1));
    f.(waits := f.waits[t := None], bus := ComeBack(bus, t))
  }

  ghost function Next(f: State, e: Step): State
    requires Enabled(f, e)
  {
    match e
    case Do(b) => DoStep(f, b)
    case LookAt(t) => DoLook(f, t)
    case Wake(t) => DoWake(f, t)
  }

  ghost predicate Init(f: State) {
    && B.Init(f.bus) && Shaped(f) && f.built == 0
    && (forall t :: 0 <= t < |f.own| ==> f.own[t].None? && f.looks[t].None? && f.waits[t].None?)
  }

  ghost predicate Run(states: seq<State>, steps: seq<Step>) {
    && |states| == |steps| + 1 && Init(states[0])
    && forall i :: 0 <= i < |steps| ==> Enabled(states[i], steps[i]) && states[i + 1] == Next(states[i], steps[i])
  }
}
