/** Conditions under which no message is built again before its poster has looked at it. */
module BusLookBounds {
  import opened Options
  import opened MessagePool
  import B = Bus
  import C = BusCalls
  import O = BusOwnership
  import T = BusTheorems
  import S = BusSteps
  import opened BusLook
  import opened BusLookProofs

  // ---- No step builds what is still to be looked at

  /** The step builds no message that a task has still to look at. */
  ghost predicate Spares(f: State, e: Step) {
    e.Do? && Builds(e.e) && f.bus.pool.free != [] ==>
      forall t :: 0 <= t < |f.looks| && f.looks[t].Some? ==> f.looks[t].value.claim.msg != f.bus.pool.free[0]
  }

  ghost predicate Unspoilt(f: State, t: nat)
    requires Shaped(f) && t < |f.own|
  {
    (f.own[t].Some? ==> !Rebuilt(f, f.own[t].value)) && (f.looks[t].Some? ==> !Rebuilt(f, f.looks[t].value.claim))
  }

  ghost predicate AllUnspoilt(f: State) {
    Shaped(f) && forall t :: 0 <= t < |f.own| ==> Unspoilt(f, t)
  }

  lemma UnspoiltTask(f: State, e: B.Step, f': State, t: nat)
    requires Stepped(f, e, f') && t < |f.own| && TaskClean(f, t) && Unspoilt(f, t) && Spares(f, Do(e))
    requires f.bus.tasks[t].held.Some? ==> f.bus.tasks[t].held.value !in f.bus.pool.free
    ensures Unspoilt(f', t)
  {
  }

  lemma UnspoiltStep(f: State, e: Step)
    requires CleanInv(f) && f.bus.sound && AllUnspoilt(f) && Enabled(f, e) && Spares(f, e)
    ensures AllUnspoilt(Next(f, e))
  {
    var f' := Next(f, e);
    SoundBus(f);
    if e.Do? {
      DoShape(f, e.e);
      hide B.Enabled, B.Next, C.Inv, TaskClean, Unspoilt, Spares, Stepped, DoStep, ClaimsOk;
      SteppedLength(f, e.e, f');
      forall t | 0 <= t < |f'.own| ensures Unspoilt(f', t) {
        T.HeldInUse(f.bus, t);
        UnspoiltTask(f, e.e, f', t);
      }
    } else {
      LookFrame(f, e);
      hide C.Inv, Enabled, Next;
      forall t | 0 <= t < |f'.own| ensures Unspoilt(f', t) { assert Unspoilt(f, t); }
    }
  }

  lemma UnspoiltRight(f: State, e: Step)
    requires AllClaimsOk(f) && AllUnspoilt(f) && Enabled(f, e)
    ensures LooksRight(f, e)
  {
    if e.LookAt? { assert ClaimsOk(f, e.t) && Unspoilt(f, e.t); }
  }

  lemma UnspoiltStart(f: State)
    requires Init(f)
    ensures AllUnspoilt(f)
  {
  }

  /** A run that builds nothing before its poster has looked at it: every look decides right. */
  lemma {:induction false} SparingRunsAreRight(states: seq<State>, steps: seq<Step>, n: nat)
    requires Run(states, steps) && n <= |steps| && forall i :: 0 <= i < n ==> Spares(states[i], steps[i])
    ensures RightSoFar(states, steps, n) && AllUnspoilt(states[n])
  {
    if n == 0 {
      UnspoiltStart(states[0]);
    } else {
      SparingRunsAreRight(states, steps, n - 1);
      RunClean(states, steps, n - 1);
      var f, e := states[n - 1], steps[n - 1];
      assert Enabled(f, e) && states[n] == Next(f, e) && Spares(f, e);
      assert AllClaimsOk(f);
      hide Enabled, Next, CleanInv, AllUnspoilt, AllClaimsOk, Spares, LooksRight, Init;
      UnspoiltRight(f, e);
      UnspoiltStep(f, e);
    }
  }

  // ---- Fewer builds than free messages

  /** Since each post not yet looked at there have been at most as many builds as messages were free then. */
  ghost predicate Prompt(f: State) {
    forall t :: 0 <= t < |f.looks| && f.looks[t].Some? ==> f.built <= f.looks[t].value.since + f.looks[t].value.free
  }

  /** The message to be looked at is free only behind what was free when it was posted. */
  ghost predicate Behind(p: Pool, built: nat, l: Look) {
    && l.since <= built && l.free <= |p.free| + (built - l.since)
    && forall k :: 0 <= k < |p.free| && p.free[k] == l.claim.msg ==> l.free <= k + (built - l.since)
  }

  ghost predicate AllBehind(f: State) {
    forall t :: 0 <= t < |f.looks| && f.looks[t].Some? ==> Behind(f.bus.pool, f.built, f.looks[t].value)
  }

  /** The free list loses its first message, gains one at the end, or stays. */
  ghost predicate FreeStep(s: B.State, e: B.Step, s': B.State) {
    if Builds(e) then s.pool.free != [] && s'.pool.free == s.pool.free[1..]
    else s'.pool.free == s.pool.free || (|s'.pool.free| == |s.pool.free| + 1 && s.pool.free <= s'.pool.free)
  }

  lemma FreeMoves(s: B.State, e: B.Step)
    requires B.Enabled(s, e)
    ensures FreeStep(s, e, B.Next(s, e))
  {
    hide B.DoBusMatch, B.DoPost;
    if e.BusMatch? { S.InHand(s, e); T.MatchTouches(s); }
    if e.Post? { O.PostPool(s, e.t); T.PostedPool(s, e.t); }
  }

  lemma BehindStays(f: State, e: B.Step, f': State, l: Look)
    requires FreeStep(f.bus, e, f'.bus) && Behind(f.bus.pool, f.built, l)
    requires f'.built == if Builds(e) then f.built + 1 else f.built
    ensures Behind(f'.bus.pool, f'.built, l)
  {
    var free, free' := f.bus.pool.free, f'.bus.pool.free;
    forall k | 0 <= k < |free'| && free'[k] == l.claim.msg ensures l.free <= k + (f'.built - l.since) {
      if Builds(e) {
        assert free[k + 1] == l.claim.msg;
      } else if k < |free| {
        assert free[k] == l.claim.msg;
      }
    }
  }

  lemma BehindStep(f: State, e: Step)
    requires CleanInv(f) && f.bus.sound && AllBehind(f) && Enabled(f, e)
    ensures AllBehind(Next(f, e))
  {
    var f' := Next(f, e);
    SoundBus(f);
    if e.Do? {
      DoShape(f, e.e);
      FreeMoves(f.bus, e.e);
      hide B.Enabled, B.Next, C.Inv, DoStep, Behind, FreeStep, ClaimsOk;
      forall t | 0 <= t < |f'.looks| && f'.looks[t].Some? ensures Behind(f'.bus.pool, f'.built, f'.looks[t].value) {
        if f'.looks[t] == f.looks[t] {
          BehindStays(f, e.e, f', f.looks[t].value);
        } else {
          assert TaskClean(f, t);
          T.HeldInUse(f.bus, t);
          BehindFresh(f.bus.pool, f.built, f'.looks[t].value);
          BehindStays(f, e.e, f', f'.looks[t].value);
        }
      }
    } else {
      LookFrame(f, e);
      hide C.Inv, Enabled, Next, Behind;
    }
  }

  lemma BehindFresh(p: Pool, built: nat, l: Look)
    requires l.since == built && l.free == |p.free| && l.claim.msg !in p.free
    ensures Behind(p, built, l)
  {
  }

  lemma PromptSpares(f: State, e: Step)
    requires AllBehind(f) && Enabled(f, e) && Prompt(Next(f, e))
    ensures Spares(f, e)
  {
    if e.Do? && Builds(e.e) {
      DoShape(f, e.e);
      hide B.Enabled, B.Next, DoStep;
      forall t | 0 <= t < |f.looks| && f.looks[t].Some? && f.bus.pool.free != []
        ensures f.looks[t].value.claim.msg != f.bus.pool.free[0]
      {
        var l := f.looks[t].value;
        assert Behind(f.bus.pool, f.built, l) && Next(f, e).looks[t] == Some(l);
      }
    }
  }

  /**
   * The free list is first in, first out. So in a run in which never more builds come between a post and its
   * look than messages were free at the post, no message is built again before it has been looked at, and
   * every look decides right.
   */
  lemma {:induction false} PromptRunsAreRight(states: seq<State>, steps: seq<Step>, n: nat)
    requires Run(states, steps) && n <= |steps| && forall i :: 0 <= i <= n ==> Prompt(states[i])
    ensures AllBehind(states[n]) && RightSoFar(states, steps, n)
    ensures forall i :: 0 <= i < n ==> Spares(states[i], steps[i])
  {
    if n > 0 {
      PromptRunsAreRight(states, steps, n - 1);
      RunClean(states, steps, n - 1);
      var f, e := states[n - 1], steps[n - 1];
      assert Enabled(f, e) && states[n] == Next(f, e);
      hide Enabled, Next, CleanInv, AllBehind, Spares, Init, Prompt, LooksRight;
      BehindStep(f, e);
      PromptSpares(f, e);
      SparingRunsAreRight(states, steps, n);
    }
  }
}
