/**
 Progress of `Concurrent`: once upstream and the fibers have finished, a downstream that
 keeps asking receives everything and then Ended, or the first failure, whatever happened
 before.
 */
module ConcurrentEnding {
  import opened ConcurrentCore
  import opened Concurrent

  /** Everything upstream of egress has finished without failure, and downstream wants it all. */
  predicate Draining<V>(s: State<V>) {
    Quiescent(s) && s.failures == [] && !s.core.downstreamDone
  }

  lemma {:induction false} EmptyUpstreamSteps<V>(script: nat -> seq<V>)
    ensures var s: State<V> := Next(script, Next(script, Init(), AskNext), RunEgress);
            var t := Next(script, s, UpstreamEnd(Ended));
            Draining(t) && t.downstream.Asking? && t.core.egress.Notified? && t.pushed == []
  {
    var s0: State<V> := Init();
    var s1 := s0.(downstream := Asking);
    var s2 := s1.(open := true, core := s1.core.(egress := Parked));
    assert Next(script, s0, AskNext) == s1;
    assert Next(script, s1, RunEgress) == s2;
    assert AllDone(s2.core.fibers);
  }

  /** An upstream that ends at once wakes the parked egress and leaves an empty stream to drain. */
  lemma {:induction false} EmptyUpstreamDrains<V>(script: nat -> seq<V>)
    ensures var s := After(script, [] + [AskNext] + [RunEgress] + [UpstreamEnd(Ended)]);
            Draining(s) && s.downstream.Asking? && s.core.egress.Notified? && s.pushed == []
  {
    AfterConcat(script, [], AskNext);
    AfterConcat(script, [] + [AskNext], RunEgress);
    AfterConcat(script, [] + [AskNext] + [RunEgress], UpstreamEnd(Ended));
    EmptyUpstreamSteps(script);
  }

  /** Egress is never stuck on a finished stream: it hands over the next value, or ends. */
  lemma {:induction false} DrainStep<V>(script: nat -> seq<V>, steps: seq<Step>, step: Step)
    requires Draining(After(script, steps))
    requires var d := After(script, steps).downstream;
             (d.Idle? && step.AskNext?) || (d.Asking? && step.RunEgress?)
    ensures var s, t := After(script, steps), After(script, steps + [step]);
            && Draining(t) && t.pushed == s.pushed && t.jobs == s.jobs && t.offered == s.offered
            && t.core.interrupted == s.core.interrupted
            && (step.AskNext? ==> t.downstream.Asking? && t.values == s.values)
            && (step.RunEgress? && s.values != [] ==> t.downstream.Idle? && t.values == s.values[1..])
            && (step.RunEgress? && s.values == [] ==> t.downstream == Finished(EndOfStream))
  {
    RunKeepsInv(script, steps);
    AfterConcat(script, steps, step);
  }

  lemma {:induction false} DrainsToEnd<V>(script: nat -> seq<V>, steps: seq<Step>) returns (more: seq<Step>)
    requires Draining(After(script, steps))
    ensures var s, t := After(script, steps), After(script, steps + more);
            Draining(t) && t.pushed == s.pushed && t.downstream == Finished(EndOfStream)
    decreases |After(script, steps).values|, if After(script, steps).downstream.Idle? then 1 else 0
  {
    var s := After(script, steps);
    if s.downstream.Finished? {
      RunKeepsInv(script, steps);
      more := [];
      assert steps + more == steps;
    } else {
      var step := if s.downstream.Idle? then AskNext else RunEgress;
      var before := steps + [step];
      DrainStep(script, steps, step);
      if step.RunEgress? && s.values == [] {
        more := [step];
      } else {
        var rest := DrainsToEnd(script, before);
        more := [step] + rest;
        assert steps + more == before + rest;
      }
    }
  }

  /** After the end marker, done is called and the parked WaitForDone sends Ended, once. */
  lemma {:induction false} DoneStep<V>(script: nat -> seq<V>, steps: seq<Step>)
    requires Draining(After(script, steps)) && After(script, steps).downstream == Finished(EndOfStream)
    ensures var s, t := After(script, steps), After(script, steps + [CallDone]);
            && t.core.waiter.Notified? && t.endings == 0 && !NotAllDone(t.core)
            && t.jobs == s.jobs && t.offered == s.offered && t.core.interrupted == s.core.interrupted
            && t.delivered == s.delivered && t.pushed == s.pushed && t.downstream == s.downstream
  {
    RunKeepsInv(script, steps);
    AfterConcat(script, steps, CallDone);
    AllDoneAfterInterrupt(After(script, steps).core.fibers);
  }

  /**
   No run gets into a corner: whenever upstream and the fibers have finished without
   failure and downstream has not given up, asking on delivers everything that was pushed
   and then sends Ended, exactly once.
   */
  lemma {:induction false} CanAlwaysEnd<V>(script: nat -> seq<V>, steps: seq<Step>) returns (more: seq<Step>)
    requires Draining(After(script, steps))
    ensures var s, t := After(script, steps), After(script, steps + more);
            && t.downstream == Finished(EndOfStream) && t.endings == 1
            && t.delivered == Values(s.pushed)
  {
    var rest := DrainsToEnd(script, steps);
    EndOfStreamMeansEverything(script, steps + rest);
    DoneStep(script, steps + rest);
    AfterConcat(script, steps + rest + [CallDone], RunWaiter);
    more := rest + [CallDone, RunWaiter];
    assert steps + more == steps + rest + [CallDone] + [RunWaiter];
  }

  // ------------------------------------------------------------ failures

  lemma {:induction false} RaiseStep<V>(script: nat -> seq<V>, steps: seq<Step>)
    requires var s := After(script, steps);
             Quiescent(s) && s.failures != [] && !s.core.downstreamDone && s.downstream.Asking?
    ensures After(script, steps + [RunEgress]).downstream == Finished(Raised(After(script, steps).failures[0]))
  {
    RunKeepsInv(script, steps);
    AfterConcat(script, steps, RunEgress);
  }

  lemma {:induction false} AskStep<V>(script: nat -> seq<V>, steps: seq<Step>)
    requires var s := After(script, steps); !s.core.downstreamDone && s.downstream.Idle?
    ensures After(script, steps + [AskNext]) == After(script, steps).(downstream := Asking)
  {
    AfterConcat(script, steps, AskNext);
  }

  /**
   Nor does a failure get lost: once upstream and the fibers have finished, one more request
   of a downstream that has not given up is answered with the first failure, even if values
   are left.
   */
  lemma {:induction false} CanAlwaysFail<V>(script: nat -> seq<V>, steps: seq<Step>) returns (more: seq<Step>)
    requires var s := After(script, steps);
             Quiescent(s) && s.failures != [] && !s.core.downstreamDone
    ensures |more| <= 2
    ensures After(script, steps + more).downstream == Finished(Raised(After(script, steps).failures[0]))
  {
    var s := After(script, steps);
    if s.downstream.Finished? {
      FinishedMeansRaised(script, steps);
      more := [];
      assert steps + more == steps;
    } else if s.downstream.Asking? {
      RaiseStep(script, steps);
      more := [RunEgress];
    } else {
      AskStep(script, steps);
      var asked := steps + [AskNext];
      assert After(script, asked).failures == s.failures;
      RaiseStep(script, asked);
      more := [AskNext] + [RunEgress];
      assert steps + more == asked + [RunEgress];
    }
  }

  lemma {:induction false} FinishedMeansRaised<V>(script: nat -> seq<V>, steps: seq<Step>)
    requires After(script, steps).downstream.Finished? && After(script, steps).failures != []
    ensures After(script, steps).downstream == Finished(Raised(After(script, steps).failures[0]))
  {
    RunKeepsInv(script, steps);
    var s := After(script, steps);
    match s.downstream.final
    case EndOfStream => assert false;
    case Raised(f) => FirstFailureGoesDownstream(script, steps, f);
  }
}
