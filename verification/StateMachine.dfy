/**
 * Hierarchical state machines: an event goes to the nearest ancestor with an enabled transition, a
 * transition into a group goes on to the group's entry state, actions run on the way.
 */
module StateMachine {
  import opened Options

  /** States, guards, actions and data are numbers; None is a null pointer. */
  datatype Event = Event(kind: int, data: int)

  datatype Transition = Transition(
    kind: int, condition: Option<int>, guard: Option<nat>, action: Option<nat>, next: Option<nat>)

  /** The entry that ends a transition array. */
  const TRANSITION_END: Transition := Transition(0, None, None, None, None)

  datatype StateDef = StateDef(
    parent: Option<nat>, entryState: Option<nat>, transitions: Option<seq<Transition>>, count: nat,
    entryAction: bool, exitAction: bool)

  /** holds says what a guard answers for a condition and an event. */
  datatype Chart = Chart(states: seq<StateDef>, holds: (nat, Option<int>, Event) -> bool)

  /** Calls into the user's code. */
  datatype Action =
    | Exit(state: nat, event: Event)
    | Act(action: nat, from: nat, event: Event, to: nat)
    | Entry(state: nat, event: Event)

  datatype Outcome = ErrorStateReached | StateChanged | StateLoopSelf | NoStateChange | FinalStateReached

  /** The machine as a value, with the calls made so far. */
  datatype Machine = Machine(current: Option<nat>, previous: Option<nat>, error: Option<nat>, log: seq<Action>)

  // ---- Charts

  ghost predicate InRange(c: Chart, s: Option<nat>) { s.Some? ==> s.value < |c.states| }

  ghost predicate Terminated(ts: seq<Transition>) { TRANSITION_END in ts }

  /** The k-th ancestor of a state. */
  ghost function Ancestor(c: Chart, s: Option<nat>, k: nat): Option<nat>
    decreases k
  {
    if s.None? || s.value >= |c.states| then None
    else if k == 0 then s
    else Ancestor(c, c.states[s.value].parent, k - 1)
  }

  /** The k-th state on the way down through entry states. */
  ghost function Descendant(c: Chart, s: Option<nat>, k: nat): Option<nat>
    decreases k
  {
    if s.None? || s.value >= |c.states| then None
    else if k == 0 then s
    else Descendant(c, c.states[s.value].entryState, k - 1)
  }

  ghost predicate FiniteChains(c: Chart, s: nat) {
    && (exists k: nat :: Ancestor(c, Some(s), k).None?)
    && (exists k: nat :: Descendant(c, Some(s), k).None?)
  }

  /**
   * What the user must build: pointers to states of the chart, arrays with an end, no cycles among
   * parents or entry states.
   */
  ghost predicate WellBuilt(c: Chart) {
    forall s :: 0 <= s < |c.states| ==>
      var d := c.states[s];
      && InRange(c, d.parent) && InRange(c, d.entryState) && FiniteChains(c, s)
      && (d.transitions.Some? ==>
            && Terminated(d.transitions.value)
            && (forall i :: 0 <= i < |d.transitions.value| ==> InRange(c, d.transitions.value[i].next)))
  }

  /** Parents of states with an array have an array. */
  ghost predicate ArraysAbove(c: Chart) {
    forall s :: 0 <= s < |c.states| && c.states[s].transitions.Some? ==>
      var p := c.states[s].parent;
      p.Some? && p.value < |c.states| ==> c.states[p.value].transitions.Some?
  }

  /** A state without an entry state. */
  predicate Leaf(c: Chart, s: nat) { s < |c.states| && c.states[s].entryState.None? }

  // ---- Which transition an event takes

  predicate Fires(c: Chart, t: Transition, e: Event) {
    t.kind == e.kind && (t.guard.None? || c.holds(t.guard.value, t.condition, e))
  }

  /** Transition i is enabled and part of the array proper. */
  ghost predicate EnabledAt(c: Chart, ts: seq<Transition>, e: Event, i: nat) {
    i < |ts| && Fires(c, ts[i], e) && forall j :: 0 <= j <= i ==> ts[j] != TRANSITION_END
  }

  ghost predicate FirstEnabled(c: Chart, ts: seq<Transition>, e: Event, i: nat) {
    EnabledAt(c, ts, e, i) && forall j: nat :: j < i ==> !EnabledAt(c, ts, e, j)
  }

  ghost predicate NoneEnabled(c: Chart, ts: seq<Transition>, e: Event) {
    forall i: nat :: !EnabledAt(c, ts, e, i)
  }

  /** The k-th ancestor of s, if there is one and it has transitions, has none for the event. */
  ghost predicate Passes(c: Chart, s: nat, e: Event, k: nat) {
    var a := Ancestor(c, Some(s), k);
    (a.Some? && a.value < |c.states| && c.states[a.value].transitions.Some?) ==>
      NoneEnabled(c, c.states[a.value].transitions.value, e)
  }

  /** The k-th ancestor of s has an array, and nothing in it for the event. */
  ghost predicate Searched(c: Chart, s: nat, e: Event, k: nat) {
    var a := Ancestor(c, Some(s), k);
    && a.Some? && a.value < |c.states| && c.states[a.value].transitions.Some?
    && NoneEnabled(c, c.states[a.value].transitions.value, e)
  }

  /** The k-th ancestor has no array, and the search comes to it. */
  ghost predicate NullAt(c: Chart, s: nat, e: Event, k: nat) {
    var a := Ancestor(c, Some(s), k);
    && a.Some? && a.value < |c.states| && c.states[a.value].transitions.None?
    && forall j: nat :: j < k ==> Searched(c, s, e, j)
  }

  /** The search for a transition follows a null pointer. */
  ghost predicate MeetsNull(c: Chart, s: nat, e: Event) { exists k: nat :: NullAt(c, s, e, k) }

  /** Transition i of the k-th ancestor of s is the one taken: the first enabled one of the nearest ancestor that has one. */
  ghost predicate Taken(c: Chart, s: nat, e: Event, k: nat, i: nat) {
    var a := Ancestor(c, Some(s), k);
    && a.Some? && a.value < |c.states| && c.states[a.value].transitions.Some?
    && FirstEnabled(c, c.states[a.value].transitions.value, e, i)
    && forall j: nat :: j < k ==> Passes(c, s, e, j)
  }

  ghost function TakenTransition(c: Chart, s: nat, e: Event, k: nat, i: nat): Transition
    requires Taken(c, s, e, k, i)
  {
    c.states[Ancestor(c, Some(s), k).value].transitions.value[i]
  }

  /** l is where the way down from s ends. */
  ghost predicate EndsAt(c: Chart, s: nat, l: nat) {
    Leaf(c, l) && exists k: nat :: Descendant(c, Some(s), k) == Some(l)
  }

  // ---- One event

  function EnterError(c: Chart, m: Machine, e: Event): Machine {
    Machine(m.error, m.current, m.error,
      if m.error.Some? && m.error.value < |c.states| && c.states[m.error.value].entryAction
      then m.log + [Entry(m.error.value, e)] else m.log)
  }

  /** Exit, transition and entry actions, in this order; the exit action only if the state is left. */
  function Actions(c: Chart, from: nat, t: Transition, to: nat, e: Event): seq<Action>
    requires from < |c.states| && to < |c.states|
  {
    (if to != from && c.states[from].exitAction then [Exit(from, e)] else [])
      + (if t.action.Some? then [Act(t.action.value, from, e, to)] else [])
      + (if c.states[to].entryAction then [Entry(to, e)] else [])
  }

  function OutcomeOf(c: Chart, from: nat, to: nat, error: Option<nat>): Outcome
    requires to < |c.states|
  {
    if to == from then StateLoopSelf
    else if error == Some(to) then ErrorStateReached
    else if c.states[to].count == 0 then FinalStateReached
    else StateChanged
  }

  /** The transition taken decides what happens. */
  ghost predicate Follows(c: Chart, m: Machine, e: Event, t: Transition, m': Machine, r: Outcome) {
    m.current.Some? && m.current.value < |c.states| &&
    if t.next.None? then m' == EnterError(c, m, e) && r == ErrorStateReached
    else exists l: nat ::
      && EndsAt(c, t.next.value, l)
      && m' == Machine(Some(l), m.current, m.error, m.log + Actions(c, m.current.value, t, l, e))
      && r == OutcomeOf(c, m.current.value, l, m.error)
  }

  /** What handling event e may do to machine m: nothing is promised when the search meets a null array. */
  ghost predicate Handles(c: Chart, m: Machine, e: Event, m': Machine, r: Outcome) {
    if m.current.None? then m' == EnterError(c, m, e) && r == ErrorStateReached
    else if m.current.value >= |c.states| then false
    else if c.states[m.current.value].transitions.None? then m' == m && r == NoStateChange
    else if MeetsNull(c, m.current.value, e) then false
    else
      || (exists k: nat, i: nat :: Taken(c, m.current.value, e, k, i)
            && Follows(c, m, e, TakenTransition(c, m.current.value, e, k, i), m', r))
      || (m' == m && r == NoStateChange && forall k: nat :: Passes(c, m.current.value, e, k))
  }

  // ---- Facts about chains

  lemma {:induction false} AncestorStep(c: Chart, s: Option<nat>, k: nat)
    ensures Ancestor(c, s, k).None? ==> Ancestor(c, s, k + 1).None?
    ensures Ancestor(c, s, k).Some? ==>
              && Ancestor(c, s, k).value < |c.states|
              && Ancestor(c, s, k + 1) == Ancestor(c, c.states[Ancestor(c, s, k).value].parent, 0)
    decreases k
  {
    if k > 0 && s.Some? && s.value < |c.states| { AncestorStep(c, c.states[s.value].parent, k - 1); }
  }

  lemma {:induction false} DescendantStep(c: Chart, s: Option<nat>, k: nat)
    ensures Descendant(c, s, k).None? ==> Descendant(c, s, k + 1).None?
    ensures Descendant(c, s, k).Some? ==>
              && Descendant(c, s, k).value < |c.states|
              && Descendant(c, s, k + 1) == Descendant(c, c.states[Descendant(c, s, k).value].entryState, 0)
    decreases k
  {
    if k > 0 && s.Some? && s.value < |c.states| { DescendantStep(c, c.states[s.value].entryState, k - 1); }
  }

  lemma {:induction false} DescendantGone(c: Chart, s: Option<nat>, k: nat, n: nat)
    requires k <= n && Descendant(c, s, k).None?
    ensures Descendant(c, s, n).None?
    decreases n
  {
    if k < n {
      DescendantGone(c, s, k, n - 1);
      DescendantStep(c, s, n - 1);
    }
  }

  lemma {:induction false} AncestorGone(c: Chart, s: Option<nat>, k: nat, n: nat)
    requires k <= n && Ancestor(c, s, k).None?
    ensures Ancestor(c, s, n).None?
    decreases n
  {
    if k < n {
      AncestorGone(c, s, k, n - 1);
      AncestorStep(c, s, n - 1);
    }
  }

  /** With arrays above arrays, ancestors of a state with an array have arrays. */
  lemma {:induction false} AncestorsHaveArrays(c: Chart, s: nat, k: nat)
    requires ArraysAbove(c) && s < |c.states| && c.states[s].transitions.Some? && Ancestor(c, Some(s), k).Some?
    ensures Ancestor(c, Some(s), k).value < |c.states|
    ensures c.states[Ancestor(c, Some(s), k).value].transitions.Some?
  {
    if k > 0 {
      AncestorStep(c, Some(s), k - 1);
      AncestorsHaveArrays(c, s, k - 1);
    }
  }

  /** Then the search never meets a null array, whatever the event. */
  lemma ArraysNeverNull(c: Chart, s: nat, e: Event)
    requires ArraysAbove(c) && s < |c.states| && c.states[s].transitions.Some?
    ensures !MeetsNull(c, s, e)
  {
    if k: nat :| NullAt(c, s, e, k) { AncestorsHaveArrays(c, s, k); }
  }

  /** A group that leaves its array unset is met by every event its member does not take. */
  lemma UnsetGroupIsMet(c: Chart, s: nat, e: Event)
    requires s < |c.states| && c.states[s].transitions.Some? && c.states[s].parent.Some?
    requires c.states[s].parent.value < |c.states| && c.states[c.states[s].parent.value].transitions.None?
    ensures MeetsNull(c, s, e) <==> NoneEnabled(c, c.states[s].transitions.value, e)
  {
    assert Ancestor(c, Some(s), 0) == Some(s);
    assert Ancestor(c, Some(s), 1) == Ancestor(c, c.states[s].parent, 0) == c.states[s].parent;
    if NoneEnabled(c, c.states[s].transitions.value, e) {
      assert Searched(c, s, e, 0);
      assert NullAt(c, s, e, 1);
    }
    if k: nat :| NullAt(c, s, e, k) {
      assert k > 0;
      assert Searched(c, s, e, 0);
    }
  }

  // ---- What is taken is determined

  lemma TakenStops(c: Chart, s: nat, e: Event, k: nat, i: nat)
    requires Taken(c, s, e, k, i)
    ensures !Passes(c, s, e, k)
  {
  }

  lemma TakenUnique(c: Chart, s: nat, e: Event, k1: nat, i1: nat, k2: nat, i2: nat)
    requires Taken(c, s, e, k1, i1) && Taken(c, s, e, k2, i2)
    ensures k1 == k2 && i1 == i2
  {
    TakenStops(c, s, e, k1, i1);
    TakenStops(c, s, e, k2, i2);
    assert k1 == k2;
  }

  lemma EndUnique(c: Chart, s: nat, l1: nat, l2: nat)
    requires EndsAt(c, s, l1) && EndsAt(c, s, l2)
    ensures l1 == l2
  {
    var k1: nat :| Descendant(c, Some(s), k1) == Some(l1);
    var k2: nat :| Descendant(c, Some(s), k2) == Some(l2);
    DescendantStep(c, Some(s), k1);
    DescendantStep(c, Some(s), k2);
    if k1 < k2 {
      DescendantGone(c, Some(s), k1 + 1, k2);
    } else if k2 < k1 {
      DescendantGone(c, Some(s), k2 + 1, k1);
    }
  }

  /** Handling an event has one possible result. */
  lemma HandlingDetermined(c: Chart, m: Machine, e: Event, m1: Machine, r1: Outcome, m2: Machine, r2: Outcome)
    requires Handles(c, m, e, m1, r1) && Handles(c, m, e, m2, r2)
    ensures m1 == m2 && r1 == r2
  {
    if m.current.Some? && c.states[m.current.value].transitions.Some? {
      var s := m.current.value;
      if k1: nat, i1: nat :| Taken(c, s, e, k1, i1) && Follows(c, m, e, TakenTransition(c, s, e, k1, i1), m1, r1) {
        TakenStops(c, s, e, k1, i1);
        var k2: nat, i2: nat :| Taken(c, s, e, k2, i2) && Follows(c, m, e, TakenTransition(c, s, e, k2, i2), m2, r2);
        TakenUnique(c, s, e, k1, i1, k2, i2);
        FollowsDetermined(c, m, e, TakenTransition(c, s, e, k1, i1), m1, r1, m2, r2);
      } else if k2: nat, i2: nat :| Taken(c, s, e, k2, i2) && Follows(c, m, e, TakenTransition(c, s, e, k2, i2), m2, r2) {
        TakenStops(c, s, e, k2, i2);
      }
    }
  }

  lemma FollowsDetermined(c: Chart, m: Machine, e: Event, t: Transition, m1: Machine, r1: Outcome, m2: Machine, r2: Outcome)
    requires Follows(c, m, e, t, m1, r1) && Follows(c, m, e, t, m2, r2)
    ensures m1 == m2 && r1 == r2
  {
    if t.next.Some? {
      var l1: nat :| EndsAt(c, t.next.value, l1)
        && m1 == Machine(Some(l1), m.current, m.error, m.log + Actions(c, m.current.value, t, l1, e))
        && r1 == OutcomeOf(c, m.current.value, l1, m.error);
      var l2: nat :| EndsAt(c, t.next.value, l2)
        && m2 == Machine(Some(l2), m.current, m.error, m.log + Actions(c, m.current.value, t, l2, e))
        && r2 == OutcomeOf(c, m.current.value, l2, m.error);
      EndUnique(c, t.next.value, l1, l2);
    }
  }

  // ---- Which calls are made, and in which order

  /** Exit actions come before transition actions, these before entry actions. */
  function Rank(a: Action): nat {
    match a
    case Exit(_, _) => 0
    case Act(_, _, _, _) => 1
    case Entry(_, _) => 2
  }

  ghost predicate InOrder(calls: seq<Action>) {
    forall i, j :: 0 <= i < j < |calls| ==> Rank(calls[i]) < Rank(calls[j])
  }

  /** The calls a transition from one state to another may make, and has to make. */
  ghost predicate CallsFor(c: Chart, from: nat, t: Transition, to: nat, e: Event, calls: seq<Action>)
    requires from < |c.states| && to < |c.states|
  {
    && InOrder(calls)
    && (Exit(from, e) in calls <==> to != from && c.states[from].exitAction)
    && (forall a: nat :: Act(a, from, e, to) in calls <==> t.action == Some(a))
    && (Entry(to, e) in calls <==> c.states[to].entryAction)
    && (forall x :: x in calls ==> x == Exit(from, e) || x == Entry(to, e) || (x.Act? && x == Act(x.action, from, e, to)))
  }

  /** The error state is entered, with its entry action if it has one, and nothing else is called. */
  ghost predicate EntersError(c: Chart, m: Machine, e: Event, m': Machine) {
    && m'.current == m.error && m'.previous == m.current && m'.error == m.error && m.log <= m'.log
    && var calls := m'.log[|m.log|..];
    && |calls| <= 1 && (forall x :: x in calls ==> m.error.Some? && x == Entry(m.error.value, e))
    && (calls != [] <==> m.error.Some? && m.error.value < |c.states| && c.states[m.error.value].entryAction)
  }

  lemma ActionsAreCalls(c: Chart, from: nat, t: Transition, to: nat, e: Event)
    requires from < |c.states| && to < |c.states|
    ensures CallsFor(c, from, t, to, e, Actions(c, from, t, to, e))
  {
    var first: seq<Action> := if to != from && c.states[from].exitAction then [Exit(from, e)] else [];
    var second: seq<Action> := if t.action.Some? then [Act(t.action.value, from, e, to)] else [];
    var third: seq<Action> := if c.states[to].entryAction then [Entry(to, e)] else [];
    assert Actions(c, from, t, to, e) == first + second + third;
    hide Actions, InOrder;
    Members(first, second, third);
    Sorted(first, second, third);
  }

  lemma Members(first: seq<Action>, second: seq<Action>, third: seq<Action>)
    ensures forall x :: x in first + second + third <==> x in first || x in second || x in third
  {
  }

  lemma Sorted(first: seq<Action>, second: seq<Action>, third: seq<Action>)
    requires |first| <= 1 && |second| <= 1 && |third| <= 1
    requires (first != [] ==> first[0].Exit?) && (second != [] ==> second[0].Act?) && (third != [] ==> third[0].Entry?)
    ensures InOrder(first + second + third)
  {
    var calls := first + second + third;
    forall i, j | 0 <= i < j < |calls| ensures Rank(calls[i]) < Rank(calls[j]) {
      assert calls[i] == if i < |first| then first[0] else second[0];
      assert calls[j] == if j < |first| + |second| then second[0] else third[0];
    }
  }

  lemma ErrorIsEntered(c: Chart, m: Machine, e: Event)
    ensures EntersError(c, m, e, EnterError(c, m, e))
  {
    var m' := EnterError(c, m, e);
    assert m'.log[|m.log|..] == if |m'.log| > |m.log| then [Entry(m.error.value, e)] else [];
  }

  /**
   * An event that takes a transition: the transition is for that event and its guard holds; the machine goes to
   * the end of the way down from its target; exit, transition and entry actions run in this order, each exactly
   * if it is due; the outcome names what happened. A transition without a target leads to the error state.
   */
  lemma TakenCalls(c: Chart, m: Machine, e: Event, m': Machine, r: Outcome, k: nat, i: nat)
    requires Handles(c, m, e, m', r) && m.current.Some? && c.states[m.current.value].transitions.Some?
    requires Taken(c, m.current.value, e, k, i)
    ensures var from, t := m.current.value, TakenTransition(c, m.current.value, e, k, i);
            && t.kind == e.kind && (t.guard.Some? ==> c.holds(t.guard.value, t.condition, e))
            && if t.next.None? then EntersError(c, m, e, m') && r == ErrorStateReached
               else
                 && m'.current.Some? && m'.current.value < |c.states| && m'.previous == m.current && m'.error == m.error
                 && m.log <= m'.log
                 && var to := m'.current.value;
                 && EndsAt(c, t.next.value, to)
                 && CallsFor(c, from, t, to, e, m'.log[|m.log|..])
                 && (r == StateLoopSelf <==> to == from)
                 && (r == ErrorStateReached <==> to != from && m.error == Some(to))
                 && (r == FinalStateReached <==> to != from && m.error != Some(to) && c.states[to].count == 0)
                 && (r == StateChanged <==> to != from && m.error != Some(to) && c.states[to].count != 0)
  {
    hide Actions, CallsFor, EntersError;
    var s := m.current.value;
    TakenStops(c, s, e, k, i);
    var k1: nat, i1: nat :| Taken(c, s, e, k1, i1) && Follows(c, m, e, TakenTransition(c, s, e, k1, i1), m', r);
    TakenUnique(c, s, e, k, i, k1, i1);
    var t := TakenTransition(c, s, e, k, i);
    if t.next.None? {
      ErrorIsEntered(c, m, e);
    } else {
      var l: nat :| EndsAt(c, t.next.value, l)
        && m' == Machine(Some(l), m.current, m.error, m.log + Actions(c, s, t, l, e))
        && r == OutcomeOf(c, s, l, m.error);
      ActionsAreCalls(c, s, t, l, e);
      assert m'.log[|m.log|..] == Actions(c, s, t, l, e);
    }
  }

  /** Without a current state the machine goes to its error state; an event that nothing takes changes nothing. */
  lemma OtherCalls(c: Chart, m: Machine, e: Event, m': Machine, r: Outcome)
    requires Handles(c, m, e, m', r)
    ensures m.current.None? ==> EntersError(c, m, e, m') && r == ErrorStateReached
    ensures (m.current.Some? && (c.states[m.current.value].transitions.None? || forall k: nat :: Passes(c, m.current.value, e, k)))
            ==> m' == m && r == NoStateChange
  {
    ErrorIsEntered(c, m, e);
    if m.current.Some? && forall k: nat :: Passes(c, m.current.value, e, k) {
      if k: nat, i: nat :| Taken(c, m.current.value, e, k, i) { TakenStops(c, m.current.value, e, k, i); }
    }
  }

  lemma ActionsOfLoop(c: Chart, s: nat, t: Transition, e: Event)
    requires s < |c.states|
    ensures forall x :: x in Actions(c, s, t, s, e) ==> !x.Exit?
    ensures Entry(s, e) in Actions(c, s, t, s, e) <==> c.states[s].entryAction
  {
    var acts := Actions(c, s, t, s, e);
    assert acts == (if t.action.Some? then [Act(t.action.value, s, e, s)] else []) + (if c.states[s].entryAction then [Entry(s, e)] else []);
    if c.states[s].entryAction { assert acts[|acts| - 1] == Entry(s, e); }
  }

  /** An event that leads back to its state runs no exit action, but the entry action if the state has one. */
  lemma SelfLoopActions(c: Chart, m: Machine, e: Event, m': Machine)
    requires Handles(c, m, e, m', StateLoopSelf)
    ensures m.current.Some? && m.current.value < |c.states| && m'.current == m.current && m.log <= m'.log
    ensures var added := m'.log[|m.log|..];
            && (forall x :: x in added ==> !x.Exit?)
            && (Entry(m.current.value, e) in added <==> c.states[m.current.value].entryAction)
  {
    var s := m.current.value;
    var k: nat, i: nat :| Taken(c, s, e, k, i) && Follows(c, m, e, TakenTransition(c, s, e, k, i), m', StateLoopSelf);
    var t := TakenTransition(c, s, e, k, i);
    var l: nat :| EndsAt(c, t.next.value, l)
      && m' == Machine(Some(l), m.current, m.error, m.log + Actions(c, s, t, l, e))
      && StateLoopSelf == OutcomeOf(c, s, l, m.error);
    assert l == s;
    ActionsOfLoop(c, s, t, e);
    assert m'.log[|m.log|..] == Actions(c, s, t, s, e);
  }

  /** A state with an entry action and a transition to itself. */
  const LOOPING: Chart := Chart(
    [StateDef(None, None, Some([Transition(5, None, None, None, Some(0)), TRANSITION_END]), 1, true, true)],
    (_, _, _) => false)

  /** The documented rule fails: the state returns to itself and its entry action is called. */
  lemma SelfLoopEnters()
    ensures Handles(LOOPING, Machine(Some(0), None, None, []), Event(5, 0),
                    Machine(Some(0), Some(0), None, [Entry(0, Event(5, 0))]), StateLoopSelf)
  {
    var c, e, m := LOOPING, Event(5, 0), Machine(Some(0), None, None, []);
    assert Ancestor(c, Some(0), 0) == Some(0);
    var ts := c.states[0].transitions.value;
    assert FirstEnabled(c, ts, e, 0);
    assert Taken(c, 0, e, 0, 0);
    assert Descendant(c, Some(0), 0) == Some(0);
    assert EndsAt(c, 0, 0);
    ArraysNeverNull(c, 0, e);
    var m' := Machine(Some(0), Some(0), None, [Entry(0, e)]);
    assert m.log + Actions(c, 0, ts[0], 0, e) == [Entry(0, e)];
    assert Follows(c, m, e, TakenTransition(c, 0, e, 0, 0), m', StateLoopSelf);
  }

  /** The outcome says that the error state was reached exactly when it was entered from elsewhere. */
  lemma ErrorReachedIff(c: Chart, m: Machine, e: Event, m': Machine, r: Outcome)
    requires Handles(c, m, e, m', r)
    ensures m.current != m.error ==> (r == ErrorStateReached <==> m'.current == m.error)
    ensures r == ErrorStateReached ==> m'.current == m.error && m'.previous == m.current && m'.error == m.error
  {
  }

  // ---- States that absorb events

  /** No event has a transition here or above; or there is no array to look into. */
  ghost predicate Absorbing(c: Chart, s: nat) {
    s < |c.states| && (c.states[s].transitions.None? || forall e: Event, k: nat :: Passes(c, s, e, k))
  }

  lemma {:induction false} FirstExists(c: Chart, ts: seq<Transition>, e: Event, i: nat)
    requires EnabledAt(c, ts, e, i)
    ensures exists j: nat :: FirstEnabled(c, ts, e, j)
  {
    if j: nat :| j < i && EnabledAt(c, ts, e, j) {
      FirstExists(c, ts, e, j);
    } else {
      assert FirstEnabled(c, ts, e, i);
    }
  }

  lemma {:induction false} TakenExists(c: Chart, s: nat, e: Event, k: nat)
    requires !Passes(c, s, e, k)
    ensures exists k: nat, i: nat :: Taken(c, s, e, k, i)
  {
    if j: nat :| j < k && !Passes(c, s, e, j) {
      TakenExists(c, s, e, j);
    } else {
      var ts := c.states[Ancestor(c, Some(s), k).value].transitions.value;
      var i: nat :| EnabledAt(c, ts, e, i);
      FirstExists(c, ts, e, i);
      var j: nat :| FirstEnabled(c, ts, e, j);
      assert Taken(c, s, e, k, j);
    }
  }

  lemma {:induction false} LeafBelow(c: Chart, s: nat, k: nat, depth: nat) returns (l: nat)
    requires WellBuilt(c) && s < |c.states| && Descendant(c, Some(s), k).Some? && Descendant(c, Some(s), depth).None?
    ensures EndsAt(c, s, l)
    decreases depth - k
  {
    DescendantStep(c, Some(s), k);
    if depth <= k { DescendantGone(c, Some(s), depth, k); }
    l := Descendant(c, Some(s), k).value;
    if !Leaf(c, l) { l := LeafBelow(c, s, k + 1, depth); }
  }

  /** A transition that is taken leads somewhere, and the outcome says so. */
  lemma FollowsSomewhere(c: Chart, m: Machine, e: Event, t: Transition) returns (m': Machine, r: Outcome)
    requires WellBuilt(c) && m.current.Some? && m.current.value < |c.states| && InRange(c, t.next)
    ensures Follows(c, m, e, t, m', r) && r != NoStateChange
  {
    if t.next.None? {
      m', r := EnterError(c, m, e), ErrorStateReached;
    } else {
      assert FiniteChains(c, t.next.value);
      var depth: nat :| Descendant(c, t.next, depth).None?;
      var l := LeafBelow(c, t.next.value, 0, depth);
      m' := Machine(Some(l), m.current, m.error, m.log + Actions(c, m.current.value, t, l, e));
      r := OutcomeOf(c, m.current.value, l, m.error);
    }
  }

  lemma AbsorbingStays(c: Chart, m: Machine, e: Event, m': Machine, r: Outcome)
    requires m.current.Some? && Absorbing(c, m.current.value) && Handles(c, m, e, m', r)
    ensures m' == m && r == NoStateChange
  {
    if k: nat, i: nat :| Taken(c, m.current.value, e, k, i) { TakenStops(c, m.current.value, e, k, i); }
  }

  /** Where an event has a transition, it does something. */
  lemma OthersMove(c: Chart, m: Machine, e: Event, k: nat) returns (m': Machine, r: Outcome)
    requires WellBuilt(c) && m.current.Some? && m.current.value < |c.states|
    requires c.states[m.current.value].transitions.Some? && !MeetsNull(c, m.current.value, e)
    requires !Passes(c, m.current.value, e, k)
    ensures Handles(c, m, e, m', r) && r != NoStateChange
  {
    var s := m.current.value;
    TakenExists(c, s, e, k);
    var k0: nat, i: nat :| Taken(c, s, e, k0, i);
    m', r := FollowsSomewhere(c, m, e, TakenTransition(c, s, e, k0, i));
  }

  /**
   * Exactly which states absorb every event: those without an array, and those for which no event has a
   * transition in their own array or an ancestor's. The transition count has no part in it.
   */
  lemma AbsorbsIff(c: Chart, m: Machine)
    requires WellBuilt(c) && m.current.Some? && m.current.value < |c.states|
    requires c.states[m.current.value].transitions.Some? ==> forall e: Event :: !MeetsNull(c, m.current.value, e)
    ensures Absorbing(c, m.current.value)
            <==> forall e: Event, m': Machine, r: Outcome :: Handles(c, m, e, m', r) ==> m' == m && r == NoStateChange
  {
    var s := m.current.value;
    if Absorbing(c, s) {
      forall e: Event, m': Machine, r: Outcome | Handles(c, m, e, m', r) ensures m' == m && r == NoStateChange {
        AbsorbingStays(c, m, e, m', r);
      }
    } else {
      var e: Event, k: nat :| !Passes(c, s, e, k);
      var m', r := OthersMove(c, m, e, k);
    }
  }

  /** A chart with a state of transition count 0 whose group takes event 5 elsewhere. */
  const COUNT_ZERO: Chart := Chart(
    [StateDef(Some(1), None, Some([TRANSITION_END]), 0, false, false),
     StateDef(None, None, Some([Transition(5, None, None, None, Some(2)), TRANSITION_END]), 1, false, false),
     StateDef(None, None, None, 0, false, false)],
    (_, _, _) => false)

  /** A state is called final by its count, but is left through its group's array. */
  lemma CountZeroIsLeft()
    ensures COUNT_ZERO.states[0].count == 0
    ensures Handles(COUNT_ZERO, Machine(Some(0), None, None, []), Event(5, 0),
                    Machine(Some(2), Some(0), None, []), FinalStateReached)
  {
    var c, e, m := COUNT_ZERO, Event(5, 0), Machine(Some(0), None, None, []);
    assert Ancestor(c, Some(0), 0) == Some(0);
    assert Ancestor(c, Some(0), 1) == Ancestor(c, Some(1), 0) == Some(1);
    assert NoneEnabled(c, [TRANSITION_END], e);
    assert Passes(c, 0, e, 0);
    var up := c.states[1].transitions.value;
    assert FirstEnabled(c, up, e, 0);
    assert Taken(c, 0, e, 1, 0);
    assert Descendant(c, Some(2), 0) == Some(2);
    assert EndsAt(c, 2, 2);
    ArraysNeverNull(c, 0, e);
    var m' := Machine(Some(2), Some(0), None, []);
    assert m.log + Actions(c, 0, up[0], 2, e) == [];
    assert Follows(c, m, e, TakenTransition(c, 0, e, 1, 0), m', FinalStateReached);
  }

  // ---- The search and the machine as the program runs them

  method GetTransition(c: Chart, ts: seq<Transition>, e: Event) returns (r: Option<nat>)
    requires Terminated(ts)
    ensures r.Some? ==> FirstEnabled(c, ts, e, r.value)
    ensures r.None? ==> NoneEnabled(c, ts, e)
  {
    ghost var end :| 0 <= end < |ts| && ts[end] == TRANSITION_END;
    var i: nat := 0;
    while true
      invariant i <= end
      invariant forall j :: 0 <= j < i ==> ts[j] != TRANSITION_END && !Fires(c, ts[j], e)
      decreases end - i
    {
      if ts[i] == TRANSITION_END {
        break;
      }
      if ts[i].kind == e.kind {
        if ts[i].guard.None? {
          return Some(i);
        } else if c.holds(ts[i].guard.value, ts[i].condition, e) {
          return Some(i);
        }
      }
      i := i + 1;
    }
    r := None;
  }

  /** What the search upwards comes to: transition i of state at, the end of the chain, or a null array. */
  datatype Search = Found(at: nat, i: nat) | Nothing | NullArray

  /** From a state with an array up through its ancestors. */
  method SearchUp(c: Chart, s: nat, e: Event) returns (r: Search, ghost k: nat)
    requires WellBuilt(c) && s < |c.states| && c.states[s].transitions.Some?
    ensures r.NullArray? <==> MeetsNull(c, s, e)
    ensures r.Found? ==> Taken(c, s, e, k, r.i) && Ancestor(c, Some(s), k) == Some(r.at)
    ensures r.Nothing? ==> forall j: nat :: Passes(c, s, e, j)
  {
    assert FiniteChains(c, s);
    ghost var height: nat :| Ancestor(c, Some(s), height).None?;
    k := 0;
    var nextState := Some(s);
    while nextState.Some?
      invariant Ancestor(c, Some(s), k) == nextState && (nextState.Some? ==> nextState.value < |c.states| && k < height)
      invariant forall j: nat :: j < k ==> Searched(c, s, e, j)
      decreases height - k
    {
      if c.states[nextState.value].transitions.None? {
        assert NullAt(c, s, e, k);
        return NullArray, k;
      }
      var ts := c.states[nextState.value].transitions.value;
      var found := GetTransition(c, ts, e);
      if found.Some? {
        SearchedPasses(c, s, e, k);
        assert Taken(c, s, e, k, found.value);
        TakenMeetsNone(c, s, e, k, found.value);
        return Found(nextState.value, found.value), k;
      }
      AncestorStep(c, Some(s), k);
      assert Searched(c, s, e, k);
      nextState := c.states[nextState.value].parent;
      k := k + 1;
      if height <= k { AncestorGone(c, Some(s), height, k); }
    }
    SearchedPasses(c, s, e, k);
    forall j: nat ensures Passes(c, s, e, j) && !NullAt(c, s, e, j) {
      if j >= k { AncestorGone(c, Some(s), k, j); }
    }
    r := Nothing;
  }

  lemma SearchedPasses(c: Chart, s: nat, e: Event, k: nat)
    requires forall j: nat :: j < k ==> Searched(c, s, e, j)
    ensures forall j: nat :: j < k ==> Passes(c, s, e, j) && !NullAt(c, s, e, j)
  {
    forall j: nat | j < k ensures Passes(c, s, e, j) && !NullAt(c, s, e, j) { assert Searched(c, s, e, j); }
  }

  /** Where the search has found a transition it has met no null array, and goes no further. */
  lemma TakenMeetsNone(c: Chart, s: nat, e: Event, k: nat, i: nat)
    requires Taken(c, s, e, k, i) && forall j: nat :: j < k ==> Searched(c, s, e, j)
    ensures !MeetsNull(c, s, e)
  {
    SearchedPasses(c, s, e, k);
    assert !Searched(c, s, e, k);
    forall j: nat ensures !NullAt(c, s, e, j) {
    }
  }

  class Fsm {
    const chart: Chart
    var current: Option<nat>
    var previous: Option<nat>
    var error: Option<nat>
    var log: seq<Action>

    ghost function Value(): Machine
      reads this
    {
      Machine(current, previous, error, log)
    }

    ghost predicate Valid()
      reads this
    {
      WellBuilt(chart) && InRange(chart, current) && InRange(chart, error)
    }

    constructor (c: Chart, initialState: Option<nat>, errorState: Option<nat>)
      requires WellBuilt(c) && InRange(c, initialState) && InRange(c, errorState)
      ensures Valid() && chart == c && Value() == Machine(initialState, None, errorState, [])
    {
      chart := c;
      current, previous, error, log := initialState, None, errorState, [];
    }

    method GoToErrorState(e: Event)
      requires Valid()
      modifies this
      ensures Valid() && Value() == EnterError(chart, old(Value()), e)
    {
      previous := current;
      current := error;
      if current.Some? && chart.states[current.value].entryAction {
        log := log + [Entry(current.value, e)];
      }
    }

    /** Down through entry states. */
    method EnterGroup(start: nat) returns (l: nat)
      requires Valid() && start < |chart.states|
      ensures EndsAt(chart, start, l)
    {
      assert FiniteChains(chart, start);
      ghost var depth: nat :| Descendant(chart, Some(start), depth).None?;
      ghost var k: nat := 0;
      l := start;
      while chart.states[l].entryState.Some?
        invariant l < |chart.states| && Descendant(chart, Some(start), k) == Some(l) && k < depth
        decreases depth - k
      {
        DescendantStep(chart, Some(start), k);
        l := chart.states[l].entryState.value;
        k := k + 1;
        if depth <= k { DescendantGone(chart, Some(start), depth, k); }
      }
    }

    method HandleEvent(e: Event) returns (r: Outcome)
      requires Valid()
      requires current.Some? && chart.states[current.value].transitions.Some? ==> !MeetsNull(chart, current.value, e)
      modifies this
      ensures Valid() && Handles(chart, old(Value()), e, Value(), r)
    {
      if current.None? {
        GoToErrorState(e);
        return ErrorStateReached;
      }
      if chart.states[current.value].transitions.None? {
        return NoStateChange;
      }
      ghost var s := current.value;
      var found;
      ghost var k;
      found, k := SearchUp(chart, current.value, e);
      if found.Found? {
        var t := chart.states[found.at].transitions.value[found.i];
        assert TakenTransition(chart, s, e, k, found.i) == t;
        r := Take(t, e);
      } else {
        r := NoStateChange;
      }
    }

    /** Go where a transition leads, running the actions on the way. */
    method Take(t: Transition, e: Event) returns (r: Outcome)
      requires Valid() && current.Some? && InRange(chart, t.next)
      modifies this
      ensures Valid() && Follows(chart, old(Value()), e, t, Value(), r)
    {
      if t.next.None? {
        GoToErrorState(e);
        return ErrorStateReached;
      }
      var nextState := EnterGroup(t.next.value);
      if nextState != current.value && chart.states[current.value].exitAction {
        log := log + [Exit(current.value, e)];
      }
      if t.action.Some? {
        log := log + [Act(t.action.value, current.value, e, nextState)];
      }
      if chart.states[nextState].entryAction {
        log := log + [Entry(nextState, e)];
      }
      assert log == old(log) + Actions(chart, current.value, t, nextState, e);
      previous := current;
      current := Some(nextState);
      if current == previous {
        return StateLoopSelf;
      }
      if current == error {
        return ErrorStateReached;
      }
      if chart.states[current.value].count == 0 {
        return FinalStateReached;
      }
      return StateChanged;
    }
  }

  // ---- Over every sequence of events

  ghost predicate Step(c: Chart, m: Machine, e: Event, m': Machine) {
    exists r: Outcome :: Handles(c, m, e, m', r)
  }

  ghost predicate Run(c: Chart, ms: seq<Machine>, es: seq<Event>) {
    |ms| == |es| + 1 && forall i :: 0 <= i < |es| ==> Step(c, ms[i], es[i], ms[i + 1])
  }

  ghost predicate AtLeaf(c: Chart, m: Machine) {
    m.current.Some? && Leaf(c, m.current.value) && m.error.Some? && Leaf(c, m.error.value)
  }

  lemma StepKeepsLeaf(c: Chart, m: Machine, e: Event, m': Machine)
    requires AtLeaf(c, m) && Step(c, m, e, m')
    ensures AtLeaf(c, m') && m'.error == m.error && m.log <= m'.log
  {
  }

  /** From a leaf, with a leaf as error state, the machine is always in a leaf. */
  lemma {:induction false} AlwaysAtLeaf(c: Chart, ms: seq<Machine>, es: seq<Event>, n: nat)
    requires Run(c, ms, es) && n < |ms| && AtLeaf(c, ms[0])
    ensures AtLeaf(c, ms[n])
  {
    if n > 0 {
      AlwaysAtLeaf(c, ms, es, n - 1);
      StepKeepsLeaf(c, ms[n - 1], es[n - 1], ms[n]);
    }
  }

  /** An absorbing state is never left: nothing happens any more, and no action is called. */
  lemma {:induction false} FinalAbsorbs(c: Chart, ms: seq<Machine>, es: seq<Event>, i: nat, n: nat)
    requires Run(c, ms, es) && i <= n < |ms|
    requires ms[i].current.Some? && Absorbing(c, ms[i].current.value)
    ensures ms[n] == ms[i]
    decreases n
  {
    hide Absorbing, Handles;
    if i < n {
      FinalAbsorbs(c, ms, es, i, n - 1);
      assert Step(c, ms[n - 1], es[n - 1], ms[n]);
      var r :| Handles(c, ms[n - 1], es[n - 1], ms[n], r);
      AbsorbingStays(c, ms[n - 1], es[n - 1], ms[n], r);
    }
  }

  /** A run is determined by where it starts and the events. */
  lemma {:induction false} RunDetermined(c: Chart, ms: seq<Machine>, ms': seq<Machine>, es: seq<Event>, n: nat)
    requires Run(c, ms, es) && Run(c, ms', es) && ms[0] == ms'[0] && n < |ms|
    ensures ms[n] == ms'[n]
  {
    if n > 0 {
      RunDetermined(c, ms, ms', es, n - 1);
      assert Step(c, ms[n - 1], es[n - 1], ms[n]) && Step(c, ms'[n - 1], es[n - 1], ms'[n]);
      var r :| Handles(c, ms[n - 1], es[n - 1], ms[n], r);
      var r' :| Handles(c, ms[n - 1], es[n - 1], ms'[n], r');
      HandlingDetermined(c, ms[n - 1], es[n - 1], ms[n], r, ms'[n], r');
    }
  }
}
