/** A task's bounded queue, and the semaphore that counts what is in it. */
module TaskQueue {
  import opened Options

  // ---- The queue as a value

  /** What is queued after an attempt to add: a full queue stays as it is. */
  function Added<T>(q: seq<T>, capacity: nat, value: T): seq<T> {
    if |q| < capacity then q + [value] else q
  }

  function Head<T>(q: seq<T>): Option<T> { if q == [] then None else Some(q[0]) }
  function Tail<T>(q: seq<T>): seq<T> { if q == [] then q else q[1..] }

  // ---- The queue as a circular buffer

  /** The slot of the k-th queued value. */
  function Slot(next: nat, k: nat, capacity: nat): nat {
    if next + k >= capacity then next + k - capacity else next + k
  }

  class Queue<T> {
    const data: array<T>
    const capacity: nat
    var next: nat
    var size: nat

    ghost predicate Valid()
      reads this
    {
      data.Length == capacity && size <= capacity && next <= capacity && (capacity > 0 ==> next < capacity)
    }

    /** First in, first listed. */
    ghost function Contents(): seq<T>
      reads this, data
      requires Valid()
    {
      ContentsOf(data[..], next, size)
    }

    constructor (data: array<T>)
      ensures Valid() && Contents() == [] && this.data == data && capacity == data.Length
    {
      this.data := data;
      capacity := data.Length;
      next, size := 0, 0;
    }

    method Add(value: T) returns (r: int)
      requires Valid()
      modifies this, data
      ensures Valid()
      ensures |old(Contents())| < capacity ==> Contents() == old(Contents()) + [value] && r == 0
      ensures |old(Contents())| >= capacity ==> Contents() == old(Contents()) && r == -1
    {
      if size >= capacity {
        return -1;
      }
      var pos := next + size;
      if pos >= capacity {
        pos := pos - capacity;
      }
      data[pos] := value;
      size := size + 1;
      r := 0;
    }

    method Remove() returns (value: Option<T>)
      requires Valid()
      modifies this
      ensures Valid()
      ensures old(Contents()) == [] ==> value.None? && Contents() == []
      ensures old(Contents()) != [] ==> value.Some? && old(Contents()) == [value.value] + Contents()
    {
      value := None;
      if size > 0 {
        value := Some(data[next]);
        next := next + 1;
        size := size - 1;
        if next >= capacity {
          next := next - capacity;
        }
      }
    }

    method Peek() returns (value: Option<T>)
      requires Valid()
      ensures value.None? <==> Contents() == []
      ensures value.Some? ==> value.value == Contents()[0]
    {
      value := if size > 0 then Some(data[next]) else None;
    }
  }

  ghost function ContentsOf<T>(data: seq<T>, next: nat, size: nat): (q: seq<T>)
    requires size <= |data| && (|data| > 0 ==> next < |data|)
    ensures |q| == size
  {
    seq(size, k requires 0 <= k < size => data[Slot(next, k, |data|)])
  }

  // ---- Posters, the consumer and the semaphore

  /** A poster that has added its message has yet to post the semaphore. */
  datatype Poster = Away | Adding

  /** The task's thread: pending on the semaphore, past it, or handling what it removed. */
  datatype Consumer = Pending | Woken | Handling(msg: Option<nat>)

  /** accepted and delivered are history: what was added and what was removed, in order. */
  datatype State = State(
    capacity: nat, queue: seq<nat>, tokens: nat, posters: seq<Poster>, consumer: Consumer,
    accepted: seq<nat>, delivered: seq<nat>)

  datatype Step = AddMessage(p: nat, m: nat) | Signal(p: nat) | Pend | RemoveMessage | Handled

  predicate Enabled(s: State, e: Step) {
    match e
    case AddMessage(p, _) => p < |s.posters| && s.posters[p].Away?
    case Signal(p) => p < |s.posters| && s.posters[p].Adding?
    case Pend => s.consumer.Pending? && s.tokens > 0
    case RemoveMessage => s.consumer.Woken?
    case Handled => s.consumer.Handling?
  }

  function Next(s: State, e: Step): State
    requires Enabled(s, e)
  {
    match e
    case AddMessage(p, m) =>
      if |s.queue| < s.capacity
      then s.(queue := Added(s.queue, s.capacity, m), posters := s.posters[p := Adding], accepted := s.accepted + [m])
      else s
    case Signal(p) => s.(tokens := s.tokens + 1, posters := s.posters[p := Away])
    case Pend => s.(tokens := s.tokens - 1, consumer := Woken)
    case RemoveMessage =>
      s.(queue := Tail(s.queue), consumer := Handling(Head(s.queue)),
         delivered := s.delivered + (if s.queue == [] then [] else [s.queue[0]]))
    case Handled => s.(consumer := Pending)
  }

  ghost predicate Init(s: State) {
    && s.queue == [] && s.tokens == 0 && s.consumer.Pending? && s.accepted == [] && s.delivered == []
    && forall p :: 0 <= p < |s.posters| ==> s.posters[p].Away?
  }

  ghost predicate Run(states: seq<State>, steps: seq<Step>) {
    && |states| == |steps| + 1 && Init(states[0])
    && forall i :: 0 <= i < |steps| ==> Enabled(states[i], steps[i]) && states[i + 1] == Next(states[i], steps[i])
  }

  /** Posts that have not been signalled yet. */
  function Unsignalled(posters: seq<Poster>): nat {
    if posters == [] then 0 else (if posters[0].Adding? then 1 else 0) + Unsignalled(posters[1..])
  }

  function Held(c: Consumer): nat { if c.Woken? then 1 else 0 }

  ghost predicate Inv(s: State) {
    && |s.queue| == s.tokens + Unsignalled(s.posters) + Held(s.consumer)
    && |s.queue| <= s.capacity
    && s.accepted == s.delivered + s.queue
    && s.consumer != Handling(None)
  }

  lemma {:induction false} PosterChanges(posters: seq<Poster>, p: nat, to: Poster)
    requires p < |posters|
    ensures Unsignalled(posters[p := to]) + (if posters[p].Adding? then 1 else 0)
            == Unsignalled(posters) + (if to.Adding? then 1 else 0)
  {
    if p == 0 {
      assert posters[0 := to][1..] == posters[1..];
    } else {
      assert posters[p := to][1..] == posters[1..][p - 1 := to];
      PosterChanges(posters[1..], p - 1, to);
    }
  }

  lemma {:induction false} AllAway(posters: seq<Poster>)
    requires forall p :: 0 <= p < |posters| ==> posters[p].Away?
    ensures Unsignalled(posters) == 0
  {
    if posters != [] { AllAway(posters[1..]); }
  }

  lemma StepKeeps(s: State, e: Step)
    requires Inv(s) && Enabled(s, e)
    ensures Inv(Next(s, e))
  {
    match e {
      case AddMessage(p, m) => PosterChanges(s.posters, p, Adding);
      case Signal(p) => PosterChanges(s.posters, p, Away);
      case Pend =>
      case RemoveMessage =>
      case Handled =>
    }
  }

  lemma {:induction false} RunInv(states: seq<State>, steps: seq<Step>, n: nat)
    requires Run(states, steps) && n < |states|
    ensures Inv(states[n])
  {
    if n == 0 {
      AllAway(states[0].posters);
    } else {
      RunInv(states, steps, n - 1);
      StepKeeps(states[n - 1], steps[n - 1]);
    }
  }

  /**
   * The queue holds as many messages as there are tokens, posts not yet signalled and a token the woken
   * consumer has taken: so the consumer never removes from an empty queue.
   */
  lemma QueueMatchesSemaphore(states: seq<State>, steps: seq<Step>, n: nat)
    requires Run(states, steps) && n < |states|
    ensures var s := states[n];
            && |s.queue| == s.tokens + Unsignalled(s.posters) + Held(s.consumer) <= s.capacity
            && (s.consumer.Woken? ==> s.queue != [])
            && s.consumer != Handling(None)
  {
    RunInv(states, steps, n);
  }

  /** Accepted messages are delivered in the order they were accepted, none skipped and none twice. */
  lemma DeliveredInOrder(states: seq<State>, steps: seq<Step>, n: nat)
    requires Run(states, steps) && n < |states|
    ensures states[n].accepted == states[n].delivered + states[n].queue
  {
    RunInv(states, steps, n);
  }

  /** The messages that posters added while there was room, in the order of the steps. */
  ghost function Offered(states: seq<State>, steps: seq<Step>, n: nat): seq<nat>
    requires |states| == |steps| + 1 && n <= |steps|
  {
    if n == 0 then []
    else
      Offered(states, steps, n - 1)
        + (if steps[n - 1].AddMessage? && |states[n - 1].queue| < states[n - 1].capacity then [steps[n - 1].m] else [])
  }

  /** Accepted is exactly what was offered while the queue had room; the consumer handles what it removed. */
  lemma {:induction false} AcceptedIsOffered(states: seq<State>, steps: seq<Step>, n: nat)
    requires Run(states, steps) && n < |states|
    ensures states[n].accepted == Offered(states, steps, n)
    ensures states[n].consumer.Handling? ==> states[n].delivered != [] && states[n].consumer.msg == Some(states[n].delivered[|states[n].delivered| - 1])
  {
    if n > 0 {
      AcceptedIsOffered(states, steps, n - 1);
      RunInv(states, steps, n - 1);
      assert Enabled(states[n - 1], steps[n - 1]) && states[n] == Next(states[n - 1], steps[n - 1]);
    }
  }
}
