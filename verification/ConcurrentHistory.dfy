/**
 The flags of `Concurrent` read as history, over every run: they tell exactly what has
 happened, and a fiber's context is reused only when it is out of use.
 */
module ConcurrentHistory {
  import opened ConcurrentCore
  import opened Concurrent

  // ------------------------------------------------------------ what the flags tell

  /** Upstream has ended, or downstream has called Done. */
  predicate Took<V>(script: nat -> seq<V>, steps: seq<Step>, upstream: bool) {
    steps != [] &&
    var before, last := steps[..|steps| - 1], steps[|steps| - 1];
    || Took(script, before, upstream)
    || (Enabled(script, After(script, before), last) && if upstream then last.UpstreamEnd? else last.CallDone?)
  }

  /** What one step does to the three flags. */
  predicate FlagsFollow<V>(script: nat -> seq<V>, s: State<V>, step: Step) {
    var s', taken := Next(script, s, step), Enabled(script, s, step);
    && (s'.core.interrupted <==> s.core.interrupted || step.InterruptAdaptor?)
    && (s'.core.upstreamDone <==> s.core.upstreamDone || (taken && step.UpstreamEnd?))
    && (s'.core.downstreamDone <==> s.core.downstreamDone || (taken && step.CallDone?))
  }

  lemma {:induction false} FlagsFollowFiber<V>(script: nat -> seq<V>, s: State<V>, step: Step)
    requires step.FiberEmit? || step.FiberEnd? || step.FiberLeaves? || step.UpstreamValue?
    ensures FlagsFollow(script, s, step)
  {
  }

  lemma {:induction false} FlagsFollowDownstream<V>(script: nat -> seq<V>, s: State<V>, step: Step)
    requires step.AskNext? || step.RunEgress? || step.RunWaiter?
    ensures FlagsFollow(script, s, step)
  {
  }

  lemma {:induction false} FlagsFollowSignal<V>(script: nat -> seq<V>, s: State<V>, step: Step)
    requires step.UpstreamEnd? || step.InterruptAdaptor? || step.CallDone?
    ensures FlagsFollow(script, s, step)
  {
  }

  /** No interrupt, end or done is missed or made up. */
  lemma {:induction false} FlagsTellHistory<V>(script: nat -> seq<V>, steps: seq<Step>)
    ensures var s := After(script, steps);
            && (s.core.interrupted <==> InterruptAdaptor in steps)
            && (s.core.upstreamDone <==> Took(script, steps, true))
            && (s.core.downstreamDone <==> Took(script, steps, false))
    decreases |steps|
  {
    if steps != [] {
      var before, last := steps[..|steps| - 1], steps[|steps| - 1];
      var s := After(script, before);
      FlagsTellHistory(script, before);
      if last.AskNext? || last.RunEgress? || last.RunWaiter? {
        FlagsFollowDownstream(script, s, last);
      } else if last.UpstreamEnd? || last.InterruptAdaptor? || last.CallDone? {
        FlagsFollowSignal(script, s, last);
      } else {
        FlagsFollowFiber(script, s, last);
      }
      assert FlagsFollow(script, s, last) && steps == before + [last];
    }
  }

  // ------------------------------------------------------------ contexts in use

  /** What one step does to the set of fibers whose context is in use. */
  function UseAfter<V>(script: nat -> seq<V>, s: State<V>, step: Step, used: set<nat>): set<nat> {
    var s' := Next(script, s, step);
    if |s'.jobs| > |s.jobs| then used + {s'.jobs[|s.jobs|].fiber}
    else if step.FiberLeaves? && Enabled(script, s, step) then used - {step.fiber}
    else used
  }

  /** From the value that starts a fiber until the fiber leaves. */
  function InUse<V>(script: nat -> seq<V>, steps: seq<Step>): set<nat> {
    if steps == [] then {}
    else
      var before := steps[..|steps| - 1];
      UseAfter(script, After(script, before), steps[|steps| - 1], InUse(script, before))
  }

  predicate BusyOk(fibers: seq<Fiber>, used: set<nat>, i: nat) {
    (i in used ==> i < |fibers|) && (i < |fibers| ==> (fibers[i].busy <==> i in used))
  }

  lemma {:induction false} BusyAfterValue<V>(script: nat -> seq<V>, s: State<V>, used: set<nat>, i: nat)
    requires forall k: nat :: BusyOk(s.core.fibers, used, k)
    ensures var s' := Next(script, s, UpstreamValue);
            && (|s'.jobs| > |s.jobs| ==> s'.jobs[|s.jobs|].fiber !in used)
            && BusyOk(s'.core.fibers, UseAfter(script, s, UpstreamValue, used), i)
  {
    assert BusyOk(s.core.fibers, used, i);
    assert BusyOk(s.core.fibers, used, FirstReusable(s.core.fibers));
  }

  lemma {:induction false} BusyAfterLeave<V>(script: nat -> seq<V>, s: State<V>, n: nat, used: set<nat>, i: nat)
    requires forall k: nat :: BusyOk(s.core.fibers, used, k)
    ensures BusyOk(Next(script, s, FiberLeaves(n)).core.fibers, UseAfter(script, s, FiberLeaves(n), used), i)
    ensures |Next(script, s, FiberLeaves(n)).jobs| == |s.jobs|
  {
    assert BusyOk(s.core.fibers, used, i);
  }

  /** As many jobs and fibers as before, and the same contexts in use. */
  predicate SameUse<V>(s: State<V>, s': State<V>) {
    && |s'.jobs| == |s.jobs| && |s'.core.fibers| == |s.core.fibers|
    && forall i :: 0 <= i < |s.core.fibers| ==> s'.core.fibers[i].busy == s.core.fibers[i].busy
  }

  lemma {:induction false} UseAfterDownstream<V>(script: nat -> seq<V>, s: State<V>, step: Step)
    requires step.AskNext? || step.RunEgress? || step.RunWaiter? || step.FiberEmit? || step.UpstreamEnd?
    ensures SameUse(s, Next(script, s, step))
  {
    assert Next(script, s, step).core.fibers == s.core.fibers;
  }

  lemma {:induction false} UseAfterInterrupt<V>(script: nat -> seq<V>, s: State<V>, step: Step)
    requires step.InterruptAdaptor? || step.CallDone?
    ensures SameUse(s, Next(script, s, step))
  {
  }

  lemma {:induction false} UseAfterEnd<V>(script: nat -> seq<V>, s: State<V>, i: nat, o: Outcome)
    ensures SameUse(s, Next(script, s, FiberEnd(i, o)))
  {
  }

  lemma {:induction false} BusyStep<V>(script: nat -> seq<V>, s: State<V>, step: Step, used: set<nat>, i: nat)
    requires forall k: nat :: BusyOk(s.core.fibers, used, k)
    ensures var s' := Next(script, s, step);
            && (|s'.jobs| > |s.jobs| ==> s'.jobs[|s.jobs|].fiber !in used)
            && BusyOk(s'.core.fibers, UseAfter(script, s, step, used), i)
  {
    if step.UpstreamValue? {
      BusyAfterValue(script, s, used, i);
    } else if step.FiberLeaves? {
      BusyAfterLeave(script, s, step.fiber, used, i);
    } else {
      if step.FiberEnd? {
        UseAfterEnd(script, s, step.fiber, step.outcome);
      } else if step.InterruptAdaptor? || step.CallDone? {
        UseAfterInterrupt(script, s, step);
      } else {
        UseAfterDownstream(script, s, step);
      }
      assert SameUse(s, Next(script, s, step)) && BusyOk(s.core.fibers, used, i);
    }
  }

  lemma {:induction false} BusyIsInUse<V>(script: nat -> seq<V>, steps: seq<Step>)
    ensures forall i: nat :: BusyOk(After(script, steps).core.fibers, InUse(script, steps), i)
    decreases |steps|
  {
    if steps != [] {
      var before, last := steps[..|steps| - 1], steps[|steps| - 1];
      BusyIsInUse(script, before);
      forall i: nat ensures BusyOk(After(script, steps).core.fibers, InUse(script, steps), i) {
        BusyStep(script, After(script, before), last, InUse(script, before), i);
      }
    }
  }

  /** A fiber is given a new value only when its context is out of use. */
  lemma {:induction false} NeverReusesAContextInUse<V>(script: nat -> seq<V>, steps: seq<Step>, step: Step)
    ensures var s, s' := After(script, steps), Next(script, After(script, steps), step);
            |s'.jobs| > |s.jobs| ==> s'.jobs[|s.jobs|].fiber !in InUse(script, steps)
  {
    BusyIsInUse(script, steps);
    BusyStep(script, After(script, steps), step, InUse(script, steps), 0);
  }
}
