/**
 `Concurrent` as a step machine. Each synchronized block of the adaptor is one atomic
 step, upstream, the fibers, downstream, interrupts and the two parked continuations
 take steps in any order, and there may be any number of fibers. `script(j)` is the
 stream that the eventual started for the `j`-th upstream value would emit in full.
 */
module Concurrent {
  import opened Options
  import opened ConcurrentCore

  datatype Emission<V> = Emission(job: nat, value: V)

  /** What has become of one accepted upstream value, and the fiber it runs on. */
  datatype Job = Job(fiber: nat, emitted: nat, outcome: Option<Outcome>)

  datatype Final = EndOfStream | Raised(failure: Failure)
  datatype Downstream = Idle | Asking | Finished(final: Final)

  datatype State<V> = State(
    core: Core,
    open: bool,                   // egress has run its block once, so both notify callbacks are set
    offered: nat,                 // upstream values that arrived
    refused: bool,                // ingress was told to take no further value
    values: seq<V>,
    downstream: Downstream,
    endings: nat,                 // how often WaitForDone has completed and sent Ended downstream
    jobs: seq<Job>,
    pushed: seq<Emission<V>>,
    delivered: seq<V>,
    failures: seq<Failure>)

  function Init<V>(): State<V> {
    State(ConcurrentCore.INIT, false, 0, false, [], Idle, 0, [], [], [], [])
  }

  datatype Step =
    | AskNext                              // downstream calls Next
    | RunEgress                            // egress holds the lock
    | UpstreamValue                        // ingress holds the lock in CreateOrReuseFiber
    | UpstreamEnd(outcome: Outcome)        // ingress holds the lock in IngressEpilogue
    | FiberEmit(fiber: nat)                // a fiber pushes its next value
    | FiberEnd(fiber: nat, outcome: Outcome)
    | FiberLeaves(fiber: nat)              // a finished fiber's context is no longer in use
    | InterruptAdaptor
    | CallDone                             // downstream, or the end marker, calls Done
    | RunWaiter                            // WaitForDone holds the lock again

  predicate Live<V>(s: State<V>, i: nat) {
    i < |s.core.fibers| && !s.core.fibers[i].done && s.core.fibers[i].job < |s.jobs|
  }

  predicate Enabled<V>(script: nat -> seq<V>, s: State<V>, step: Step) {
    match step
    case AskNext => s.downstream.Idle? && !s.core.downstreamDone
    case RunEgress => s.downstream.Asking? && !s.core.egress.Parked?
    case UpstreamValue => s.open && !s.core.upstreamDone && !s.refused
    case UpstreamEnd(_) => s.open && !s.core.upstreamDone
    case FiberEmit(i) =>
      Live(s, i) && s.jobs[s.core.fibers[i].job].emitted < |script(s.core.fibers[i].job)|
    case FiberEnd(i, o) =>
      Live(s, i) && (o.Ended? ==> s.jobs[s.core.fibers[i].job].emitted == |script(s.core.fibers[i].job)|)
    case FiberLeaves(i) => i < |s.core.fibers| && s.core.fibers[i].done
    case InterruptAdaptor => true
    case CallDone => s.open && !s.core.downstreamDone && (s.downstream.Idle? || s.downstream == Finished(EndOfStream))
    case RunWaiter => s.core.waiter.Notified?
  }

  /** The condition of the `Wait` in Egress, while it holds egress waits. */
  predicate EgressWaits<V>(s: State<V>) {
    s.values == [] && !(s.core.upstreamDone && s.core.fibersDone)
  }

  /** The condition of the `Wait` in WaitForDone. */
  predicate NotAllDone(c: Core) {
    !c.downstreamDone || !c.upstreamDone || !c.fibersDone
  }

  function RunEgressBlock<V>(s: State<V>): State<V> {
    var t := s.(open := true);
    if EgressWaits(s) then t.(core := s.core.(egress := Parked))
    else
      var u := t.(core := s.core.(egress := Absent));
      if s.core.failure.Some? && s.core.upstreamDone && s.core.fibersDone then
        u.(downstream := Finished(Raised(s.core.failure.value)))
      else if s.values != [] then
        u.(downstream := Idle, values := s.values[1..], delivered := s.delivered + [s.values[0]])
      else
        u.(downstream := Finished(EndOfStream))
  }

  function Logged(failures: seq<Failure>, o: Outcome): seq<Failure> {
    if o.Failed? then failures + [o.failure] else failures
  }

  function Next<V>(script: nat -> seq<V>, s: State<V>, step: Step): State<V> {
    if !Enabled(script, s, step) then s
    else
      match step
      case AskNext => s.(downstream := Asking)
      case RunEgress => RunEgressBlock(s)
      case UpstreamValue =>
        var t := s.(offered := s.offered + 1);
        if Admits(s.core) then
          t.(core := Admit(s.core, |s.jobs|), jobs := s.jobs + [Job(FirstReusable(s.core.fibers), 0, None)])
        else t.(refused := true)
      case UpstreamEnd(o) =>
        s.(core := EndIngress(s.core, o), failures := Logged(s.failures, o))
      case FiberEmit(i) =>
        var j := s.core.fibers[i].job;
        var v := script(j)[s.jobs[j].emitted];
        s.(core := NotifyEgress(s.core), values := s.values + [v], pushed := s.pushed + [Emission(j, v)],
           jobs := s.jobs[j := s.jobs[j].(emitted := s.jobs[j].emitted + 1)])
      case FiberEnd(i, o) =>
        var j := s.core.fibers[i].job;
        s.(core := EndFiber(s.core, i, o), failures := Logged(s.failures, o),
           jobs := s.jobs[j := s.jobs[j].(outcome := Some(o))])
      case FiberLeaves(i) =>
        s.(core := s.core.(fibers := s.core.fibers[i := s.core.fibers[i].(busy := false)]))
      case InterruptAdaptor => s.(core := InterruptCore(s.core))
      case CallDone => s.(core := DoneCore(s.core))
      case RunWaiter =>
        if NotAllDone(s.core) then s.(core := s.core.(waiter := Parked))
        else s.(core := s.core.(waiter := Absent), endings := s.endings + 1)
  }

  // ------------------------------------------------------------ the invariants

  /** Upstream has ended and no fiber is running. */
  predicate Quiescent<V>(s: State<V>) { s.core.upstreamDone && s.core.fibersDone }

  predicate FlagsOk<V>(s: State<V>) {
    && (s.core.fibersDone ==> AllDone(s.core.fibers))
    && (s.core.upstreamDone ==> (s.core.fibersDone <==> AllDone(s.core.fibers)))
    && (s.core.egress.Parked? ==> s.downstream.Asking? && EgressWaits(s))
    && (s.core.egress.Notified? ==> s.downstream.Asking?)
    && (s.core.waiter.Parked? ==> NotAllDone(s.core))
    && (s.endings == if s.core.waiter.Absent? then 1 else 0)
    && (s.core.waiter.Absent? ==> !NotAllDone(s.core))
    && (!s.open ==> !s.core.upstreamDone && s.jobs == [] && s.core.fibers == [] && s.values == [])
    && (s.core.downstreamDone ==> s.open && !s.downstream.Asking?)
  }

  predicate FiberOk(fibers: seq<Fiber>, jobs: seq<Job>, i: nat) {
    i < |fibers| && !fibers[i].done ==>
      fibers[i].job < |jobs| && jobs[fibers[i].job].fiber == i && jobs[fibers[i].job].outcome.None?
  }

  predicate JobOk(fibers: seq<Fiber>, jobs: seq<Job>, j: nat) {
    j < |jobs| && jobs[j].outcome.None? ==>
      jobs[j].fiber < |fibers| && !fibers[jobs[j].fiber].done && fibers[jobs[j].fiber].job == j
  }

  ghost predicate Placed(fibers: seq<Fiber>, jobs: seq<Job>) {
    && (forall i: nat :: FiberOk(fibers, jobs, i))
    && (forall j: nat :: JobOk(fibers, jobs, j))
  }

  function Values<V>(es: seq<Emission<V>>): seq<V> {
    seq(|es|, i requires 0 <= i < |es| => es[i].value)
  }

  /** What one job has emitted, in order. */
  function Of<V>(es: seq<Emission<V>>, j: nat): seq<V> {
    if es == [] then []
    else
      var before, last := Of(es[..|es| - 1], j), es[|es| - 1];
      if last.job == j then before + [last.value] else before
  }

  ghost predicate Progress<V>(script: nat -> seq<V>, s: State<V>, j: nat) {
    if j < |s.jobs| then
      && s.jobs[j].emitted <= |script(j)|
      && Of(s.pushed, j) == script(j)[..s.jobs[j].emitted]
      && (s.jobs[j].outcome == Some(Ended) ==> s.jobs[j].emitted == |script(j)|)
      && (s.jobs[j].outcome.Some? && s.jobs[j].outcome.value.Failed? ==> s.failures != [])
    else Of(s.pushed, j) == []
  }

  ghost predicate StreamOk<V>(script: nat -> seq<V>, s: State<V>) {
    && Values(s.pushed) == s.delivered + s.values
    && (forall j: nat :: Progress(script, s, j))
  }

  predicate FailureOk<V>(s: State<V>) {
    && (s.core.failure == if s.failures == [] then None else Some(s.failures[0]))
    && (s.downstream.Finished? ==> Quiescent(s))
    && (s.downstream == Finished(EndOfStream) ==> s.failures == [] && s.values == [])
    && (s.downstream.Finished? && s.downstream.final.Raised? ==> s.core.failure == Some(s.downstream.final.failure))
  }

  /** A value is turned away only by an interrupt, a done or a failure, and only the last one is. */
  predicate AdmissionOk<V>(s: State<V>) {
    && s.offered == |s.jobs| + (if s.refused then 1 else 0)
    && (s.refused ==> !Admits(s.core))
  }

  /** A stream that ends without an interrupt has turned no value away. */
  predicate EndOk<V>(s: State<V>) {
    s.downstream == Finished(EndOfStream) && !s.core.interrupted ==> !s.refused
  }

  predicate AnyFailed(jobs: seq<Job>) {
    exists j :: 0 <= j < |jobs| && jobs[j].outcome.Some? && jobs[j].outcome.value.Failed?
  }

  /** The adaptor is winding up its fibers: interrupted, told to be done, or one of them failed. */
  predicate WindingUp<V>(s: State<V>) {
    s.core.interrupted || s.core.downstreamDone || AnyFailed(s.jobs)
  }

  predicate NoneUninterrupted(fibers: seq<Fiber>) {
    forall i :: 0 <= i < |fibers| ==> fibers[i].done || fibers[i].interrupted
  }

  predicate InterruptsOk<V>(s: State<V>) {
    WindingUp(s) ==> !Admits(s.core) && NoneUninterrupted(s.core.fibers)
  }

  predicate NoneInterrupted(fibers: seq<Fiber>) {
    forall i :: 0 <= i < |fibers| ==> fibers[i].done || !fibers[i].interrupted
  }

  /** Nothing but winding up interrupts a fiber. */
  predicate CalmOk<V>(s: State<V>) { !WindingUp(s) ==> NoneInterrupted(s.core.fibers) }

  ghost predicate Inv<V>(script: nat -> seq<V>, s: State<V>) {
    && FlagsOk(s) && Placed(s.core.fibers, s.jobs) && StreamOk(script, s) && FailureOk(s)
    && AdmissionOk(s) && EndOk(s) && InterruptsOk(s) && CalmOk(s)
  }

  lemma {:induction false} AllDoneAfterInterrupt(fibers: seq<Fiber>)
    ensures AllDone(InterruptAll(fibers)) <==> AllDone(fibers)
  {
    assert forall i :: 0 <= i < |fibers| ==> InterruptAll(fibers)[i].done == fibers[i].done;
  }

  lemma {:induction false} FlagsAfterDownstream<V>(script: nat -> seq<V>, s: State<V>, step: Step)
    requires FlagsOk(s) && Enabled(script, s, step)
    requires step.AskNext? || step.RunEgress? || step.CallDone? || step.RunWaiter?
    ensures FlagsOk(Next(script, s, step))
  {
    AllDoneAfterInterrupt(s.core.fibers);
  }

  lemma {:induction false} FlagsAfterUpstream<V>(script: nat -> seq<V>, s: State<V>, step: Step)
    requires FlagsOk(s) && Enabled(script, s, step)
    requires step.UpstreamValue? || step.UpstreamEnd? || step.InterruptAdaptor?
    ensures FlagsOk(Next(script, s, step))
  {
    AllDoneAfterInterrupt(s.core.fibers);
  }

  lemma {:induction false} FlagsAfterEnd<V>(script: nat -> seq<V>, s: State<V>, i: nat, o: Outcome)
    requires FlagsOk(s) && Enabled(script, s, FiberEnd(i, o))
    ensures FlagsOk(Next(script, s, FiberEnd(i, o)))
  {
    AllDoneAfterInterrupt(s.core.fibers[i := s.core.fibers[i].(done := true)]);
  }

  lemma {:induction false} FlagsAfterFiber<V>(script: nat -> seq<V>, s: State<V>, step: Step)
    requires FlagsOk(s) && Enabled(script, s, step)
    requires step.FiberEmit? || step.FiberLeaves?
    ensures FlagsOk(Next(script, s, step))
  {
    var fibers, i := s.core.fibers, step.fiber;
    if step.FiberLeaves? {
      var after := fibers[i := fibers[i].(busy := false)];
      assert forall k :: 0 <= k < |fibers| ==> after[k].done == fibers[k].done;
      assert AllDone(after) <==> AllDone(fibers);
    }
  }

  lemma {:induction false} FlagsPreserved<V>(script: nat -> seq<V>, s: State<V>, step: Step)
    requires FlagsOk(s) && Enabled(script, s, step)
    ensures FlagsOk(Next(script, s, step))
  {
    if step.AskNext? || step.RunEgress? || step.CallDone? || step.RunWaiter? {
      FlagsAfterDownstream(script, s, step);
    } else if step.UpstreamValue? || step.UpstreamEnd? || step.InterruptAdaptor? {
      FlagsAfterUpstream(script, s, step);
    } else if step.FiberEnd? {
      FlagsAfterEnd(script, s, step.fiber, step.outcome);
    } else {
      FlagsAfterFiber(script, s, step);
    }
  }

  /** Interrupting changes neither which fibers run nor what they run. */
  lemma {:induction false} PlacedAfterInterrupt(fibers: seq<Fiber>, jobs: seq<Job>)
    requires Placed(fibers, jobs)
    ensures Placed(InterruptAll(fibers), jobs)
  {
    var after := InterruptAll(fibers);
    forall i: nat ensures FiberOk(after, jobs, i) {
      assert FiberOk(fibers, jobs, i);
    }
    forall j: nat ensures JobOk(after, jobs, j) {
      assert JobOk(fibers, jobs, j);
    }
  }

  lemma {:induction false} PlacedAfterAdmit(c: Core, jobs: seq<Job>)
    requires Placed(c.fibers, jobs) && Admits(c)
    ensures Placed(Admit(c, |jobs|).fibers, jobs + [Job(FirstReusable(c.fibers), 0, None)])
  {
    var k := FirstReusable(c.fibers);
    var fibers', jobs' := Admit(c, |jobs|).fibers, jobs + [Job(k, 0, None)];
    forall i: nat ensures FiberOk(fibers', jobs', i) {
      assert FiberOk(c.fibers, jobs, i);
    }
    forall j: nat ensures JobOk(fibers', jobs', j) {
      assert JobOk(c.fibers, jobs, j);
    }
  }

  lemma {:induction false} PlacedAfterEnd(fibers: seq<Fiber>, jobs: seq<Job>, i: nat, o: Outcome)
    requires Placed(fibers, jobs) && i < |fibers| && !fibers[i].done && fibers[i].job < |jobs|
    ensures Placed(fibers[i := fibers[i].(done := true)],
                   jobs[fibers[i].job := jobs[fibers[i].job].(outcome := Some(o))])
  {
    var fibers' := fibers[i := fibers[i].(done := true)];
    var jobs' := jobs[fibers[i].job := jobs[fibers[i].job].(outcome := Some(o))];
    assert FiberOk(fibers, jobs, i);
    forall k: nat ensures FiberOk(fibers', jobs', k) {
      assert FiberOk(fibers, jobs, k);
    }
    forall j: nat ensures JobOk(fibers', jobs', j) {
      assert JobOk(fibers, jobs, j);
    }
  }

  lemma {:induction false} PlacedSame(fibers: seq<Fiber>, jobs: seq<Job>, fibers': seq<Fiber>, jobs': seq<Job>)
    requires Placed(fibers, jobs) && |fibers'| == |fibers| && |jobs'| == |jobs|
    requires forall i :: 0 <= i < |fibers| ==> fibers'[i].done == fibers[i].done && fibers'[i].job == fibers[i].job
    requires forall j :: 0 <= j < |jobs| ==> jobs'[j].fiber == jobs[j].fiber && jobs'[j].outcome == jobs[j].outcome
    ensures Placed(fibers', jobs')
  {
    forall i: nat ensures FiberOk(fibers', jobs', i) {
      assert FiberOk(fibers, jobs, i);
    }
    forall j: nat ensures JobOk(fibers', jobs', j) {
      assert JobOk(fibers, jobs, j);
    }
  }

  lemma {:induction false} PlacementAfterFiber<V>(script: nat -> seq<V>, s: State<V>, step: Step)
    requires Placed(s.core.fibers, s.jobs) && Enabled(script, s, step) && (step.FiberEmit? || step.FiberLeaves?)
    ensures Placed(Next(script, s, step).core.fibers, Next(script, s, step).jobs)
  {
    PlacedSame(s.core.fibers, s.jobs, Next(script, s, step).core.fibers, Next(script, s, step).jobs);
  }

  lemma {:induction false} PlacementAfterEnd<V>(script: nat -> seq<V>, s: State<V>, i: nat, o: Outcome)
    requires Placed(s.core.fibers, s.jobs) && Enabled(script, s, FiberEnd(i, o))
    ensures var s' := Next(script, s, FiberEnd(i, o)); Placed(s'.core.fibers, s'.jobs)
  {
    var s' := Next(script, s, FiberEnd(i, o));
    PlacedAfterEnd(s.core.fibers, s.jobs, i, o);
    PlacedAfterInterrupt(s.core.fibers[i := s.core.fibers[i].(done := true)], s'.jobs);
  }

  lemma {:induction false} PlacementAfterRest<V>(script: nat -> seq<V>, s: State<V>, step: Step)
    requires Placed(s.core.fibers, s.jobs) && Enabled(script, s, step)
    requires !step.FiberEmit? && !step.FiberLeaves? && !step.FiberEnd?
    ensures Placed(Next(script, s, step).core.fibers, Next(script, s, step).jobs)
  {
    if step.UpstreamValue? && Admits(s.core) {
      PlacedAfterAdmit(s.core, s.jobs);
    } else if step.InterruptAdaptor? || step.CallDone? {
      PlacedAfterInterrupt(s.core.fibers, s.jobs);
    } else {
      assert Next(script, s, step).core.fibers == s.core.fibers;
    }
  }

  lemma {:induction false} PlacementPreserved<V>(script: nat -> seq<V>, s: State<V>, step: Step)
    requires Placed(s.core.fibers, s.jobs) && Enabled(script, s, step)
    ensures Placed(Next(script, s, step).core.fibers, Next(script, s, step).jobs)
  {
    match step
    case FiberEmit(_) | FiberLeaves(_) => PlacementAfterFiber(script, s, step);
    case FiberEnd(i, o) => PlacementAfterEnd(script, s, i, o);
    case _ => PlacementAfterRest(script, s, step);
  }

  lemma {:induction false} Snoc<V>(es: seq<Emission<V>>, e: Emission<V>, j: nat)
    ensures Of(es + [e], j) == if e.job == j then Of(es, j) + [e.value] else Of(es, j)
    ensures Values(es + [e]) == Values(es) + [e.value]
  {
    assert (es + [e])[..|es|] == es;
  }

  lemma {:induction false} StreamAfterEmit<V>(script: nat -> seq<V>, s: State<V>, i: nat)
    requires StreamOk(script, s) && Enabled(script, s, FiberEmit(i))
    ensures StreamOk(script, Next(script, s, FiberEmit(i)))
  {
    var s', k := Next(script, s, FiberEmit(i)), s.core.fibers[i].job;
    var v := script(k)[s.jobs[k].emitted];
    forall j: nat ensures Progress(script, s', j) {
      assert Progress(script, s, j);
      Snoc(s.pushed, Emission(k, v), j);
      if j == k {
        assert script(k)[..s.jobs[k].emitted] + [v] == script(k)[..s.jobs[k].emitted + 1];
      }
    }
    Snoc(s.pushed, Emission(k, v), k);
  }

  /** Steps that push nothing keep the stream if they only start, end or fail jobs. */
  lemma {:induction false} StreamUnpushed<V>(script: nat -> seq<V>, s: State<V>, s': State<V>)
    requires StreamOk(script, s)
    requires s'.pushed == s.pushed && s'.delivered + s'.values == s.delivered + s.values
    requires |s.jobs| <= |s'.jobs| && (s.failures != [] ==> s'.failures != [])
    requires forall j :: 0 <= j < |s.jobs| ==>
               && s'.jobs[j].emitted == s.jobs[j].emitted
               && (s'.jobs[j].outcome == s.jobs[j].outcome
                   || (s'.jobs[j].outcome == Some(Ended) && s.jobs[j].emitted == |script(j)|)
                   || (s'.jobs[j].outcome.Some? && s'.jobs[j].outcome.value.Failed? && s'.failures != []))
    requires forall j :: |s.jobs| <= j < |s'.jobs| ==> s'.jobs[j].emitted == 0 && s'.jobs[j].outcome.None?
    ensures StreamOk(script, s')
  {
    forall j: nat ensures Progress(script, s', j) {
      assert Progress(script, s, j);
    }
  }

  lemma {:induction false} StreamPreserved<V>(script: nat -> seq<V>, s: State<V>, step: Step)
    requires StreamOk(script, s) && Enabled(script, s, step)
    ensures StreamOk(script, Next(script, s, step))
  {
    if step.FiberEmit? {
      StreamAfterEmit(script, s, step.fiber);
    } else {
      StreamUnpushed(script, s, Next(script, s, step));
    }
  }

  /** Once quiescent, nothing can be pushed, started, ended or recorded any more. */
  lemma {:induction false} QuiescentIsFrozen<V>(script: nat -> seq<V>, s: State<V>, step: Step)
    requires FlagsOk(s) && Quiescent(s)
    ensures var s' := Next(script, s, step);
            && Quiescent(s')
            && s'.pushed == s.pushed && s'.jobs == s.jobs && s'.failures == s.failures
            && s'.core.failure == s.core.failure && s'.offered == s.offered && s'.refused == s.refused
  {
    AllDoneAfterInterrupt(s.core.fibers);
  }

  lemma {:induction false} FailureRecorded<V>(script: nat -> seq<V>, s: State<V>, step: Step)
    requires FailureOk(s) && Enabled(script, s, step) && !Quiescent(s)
    requires step.UpstreamEnd? || step.FiberEnd?
    ensures FailureOk(Next(script, s, step))
  {
  }

  lemma {:induction false} FailureUnchanged<V>(script: nat -> seq<V>, s: State<V>, step: Step)
    requires FailureOk(s) && Enabled(script, s, step) && !Quiescent(s)
    requires !step.UpstreamEnd? && !step.FiberEnd?
    ensures FailureOk(Next(script, s, step))
  {
    var s' := Next(script, s, step);
    assert s'.failures == s.failures && s'.core.failure == s.core.failure;
    assert !s'.downstream.Finished?;
  }

  lemma {:induction false} FailurePreserved<V>(script: nat -> seq<V>, s: State<V>, step: Step)
    requires FlagsOk(s) && FailureOk(s) && Enabled(script, s, step)
    ensures FailureOk(Next(script, s, step))
  {
    if Quiescent(s) {
      QuiescentIsFrozen(script, s, step);
    } else if step.UpstreamEnd? || step.FiberEnd? {
      FailureRecorded(script, s, step);
    } else {
      FailureUnchanged(script, s, step);
    }
  }

  lemma {:induction false} AdmissionPreserved<V>(script: nat -> seq<V>, s: State<V>, step: Step)
    requires AdmissionOk(s) && Enabled(script, s, step)
    ensures AdmissionOk(Next(script, s, step))
  {
  }

  lemma {:induction false} EndPreserved<V>(script: nat -> seq<V>, s: State<V>, step: Step)
    requires FlagsOk(s) && FailureOk(s) && AdmissionOk(s) && EndOk(s) && Enabled(script, s, step)
    ensures EndOk(Next(script, s, step))
  {
    if Quiescent(s) {
      QuiescentIsFrozen(script, s, step);
      EndOfQuiescent(script, s, step);
    } else {
      OnlyQuiescentEnds(script, s, step);
    }
  }

  lemma {:induction false} OnlyQuiescentEnds<V>(script: nat -> seq<V>, s: State<V>, step: Step)
    requires FailureOk(s) && Enabled(script, s, step) && !Quiescent(s)
    ensures !Next(script, s, step).downstream.Finished?
  {
  }

  lemma {:induction false} EndOfQuiescent<V>(script: nat -> seq<V>, s: State<V>, step: Step)
    requires FlagsOk(s) && FailureOk(s) && AdmissionOk(s) && Enabled(script, s, step) && Quiescent(s)
    ensures var s' := Next(script, s, step);
            && (s.core.interrupted ==> s'.core.interrupted)
            && (s'.downstream == Finished(EndOfStream) ==>
                  s.downstream == Finished(EndOfStream) || (s.refused ==> s.core.interrupted))
  {
  }

  lemma {:induction false} FailedSame(jobs: seq<Job>, jobs': seq<Job>)
    requires |jobs| <= |jobs'|
    requires forall j :: 0 <= j < |jobs| ==> jobs'[j].outcome == jobs[j].outcome || jobs'[j].outcome == Some(Ended)
    requires forall j :: |jobs| <= j < |jobs'| ==> jobs'[j].outcome.None?
    ensures AnyFailed(jobs') ==> AnyFailed(jobs)
  {
    if AnyFailed(jobs') {
      var j :| 0 <= j < |jobs'| && jobs'[j].outcome.Some? && jobs'[j].outcome.value.Failed?;
      assert j < |jobs| && jobs[j].outcome.Some?;
    }
  }

  lemma {:induction false} InterruptAllReaches(fibers: seq<Fiber>)
    ensures NoneUninterrupted(InterruptAll(fibers))
  {
  }

  lemma {:induction false} InterruptsAfterJob<V>(script: nat -> seq<V>, s: State<V>, step: Step)
    requires InterruptsOk(s) && Enabled(script, s, step) && (step.UpstreamValue? || step.FiberEmit?)
    ensures InterruptsOk(Next(script, s, step))
  {
    FailedSame(s.jobs, Next(script, s, step).jobs);
  }

  lemma {:induction false} InterruptsAfterEnd<V>(script: nat -> seq<V>, s: State<V>, i: nat, o: Outcome)
    requires InterruptsOk(s) && Enabled(script, s, FiberEnd(i, o))
    ensures InterruptsOk(Next(script, s, FiberEnd(i, o)))
  {
    var s', fibers := Next(script, s, FiberEnd(i, o)), s.core.fibers;
    var ended := fibers[i := fibers[i].(done := true)];
    if o.Ended? {
      FailedSame(s.jobs, s'.jobs);
      assert NoneUninterrupted(fibers) ==> NoneUninterrupted(ended);
    } else {
      InterruptAllReaches(ended);
    }
  }

  lemma {:induction false} InterruptsAfterInterrupt<V>(script: nat -> seq<V>, s: State<V>, step: Step)
    requires Enabled(script, s, step) && (step.InterruptAdaptor? || step.CallDone?)
    ensures InterruptsOk(Next(script, s, step))
  {
    InterruptAllReaches(s.core.fibers);
  }

  lemma {:induction false} InterruptsSame<V>(s: State<V>, s': State<V>)
    requires InterruptsOk(s) && s'.core.fibers == s.core.fibers && s'.jobs == s.jobs
    requires s'.core.interrupted == s.core.interrupted && s'.core.downstreamDone == s.core.downstreamDone
    requires s.core.failure.Some? ==> s'.core.failure.Some?
    ensures InterruptsOk(s')
  {
  }

  lemma {:induction false} InterruptsAfterRest<V>(script: nat -> seq<V>, s: State<V>, step: Step)
    requires InterruptsOk(s) && Enabled(script, s, step)
    requires step.AskNext? || step.RunWaiter?
    ensures InterruptsOk(Next(script, s, step))
  {
    InterruptsSame(s, Next(script, s, step));
  }

  lemma {:induction false} InterruptsAfterEgress<V>(script: nat -> seq<V>, s: State<V>)
    requires InterruptsOk(s) && Enabled(script, s, RunEgress)
    ensures InterruptsOk(Next(script, s, RunEgress))
  {
    InterruptsSame(s, RunEgressBlock(s));
  }

  lemma {:induction false} InterruptsAfterUpstream<V>(script: nat -> seq<V>, s: State<V>, o: Outcome)
    requires InterruptsOk(s) && Enabled(script, s, UpstreamEnd(o))
    ensures InterruptsOk(Next(script, s, UpstreamEnd(o)))
  {
    InterruptsSame(s, Next(script, s, UpstreamEnd(o)));
  }

  lemma {:induction false} InterruptsAfterLeave<V>(script: nat -> seq<V>, s: State<V>, i: nat)
    requires InterruptsOk(s) && Enabled(script, s, FiberLeaves(i))
    ensures InterruptsOk(Next(script, s, FiberLeaves(i)))
  {
    assert NoneUninterrupted(s.core.fibers) ==> NoneUninterrupted(Next(script, s, FiberLeaves(i)).core.fibers);
  }

  lemma {:induction false} InterruptsPreserved<V>(script: nat -> seq<V>, s: State<V>, step: Step)
    requires InterruptsOk(s) && Enabled(script, s, step)
    ensures InterruptsOk(Next(script, s, step))
  {
    match step
    case UpstreamValue | FiberEmit(_) => InterruptsAfterJob(script, s, step);
    case FiberEnd(i, o) => InterruptsAfterEnd(script, s, i, o);
    case RunEgress => InterruptsAfterEgress(script, s);
    case UpstreamEnd(o) => InterruptsAfterUpstream(script, s, o);
    case FiberLeaves(i) => InterruptsAfterLeave(script, s, i);
    case InterruptAdaptor | CallDone => InterruptsAfterInterrupt(script, s, step);
    case _ => InterruptsAfterRest(script, s, step);
  }

  /** Jobs that have failed stay failed. */
  lemma {:induction false} FailedStays(jobs: seq<Job>, jobs': seq<Job>)
    requires AnyFailed(jobs) && |jobs| <= |jobs'|
    requires forall j :: 0 <= j < |jobs| && jobs[j].outcome.Some? ==> jobs'[j].outcome == jobs[j].outcome
    ensures AnyFailed(jobs')
  {
    var j :| 0 <= j < |jobs| && jobs[j].outcome.Some? && jobs[j].outcome.value.Failed?;
    assert jobs'[j].outcome == jobs[j].outcome;
  }

  lemma {:induction false} CalmAfterValue<V>(script: nat -> seq<V>, s: State<V>)
    requires CalmOk(s) && Enabled(script, s, UpstreamValue)
    ensures CalmOk(Next(script, s, UpstreamValue))
  {
    if AnyFailed(s.jobs) {
      FailedStays(s.jobs, Next(script, s, UpstreamValue).jobs);
    }
  }

  lemma {:induction false} CalmAfterEmit<V>(script: nat -> seq<V>, s: State<V>, i: nat)
    requires CalmOk(s) && Enabled(script, s, FiberEmit(i))
    ensures CalmOk(Next(script, s, FiberEmit(i)))
  {
    if AnyFailed(s.jobs) {
      FailedStays(s.jobs, Next(script, s, FiberEmit(i)).jobs);
    }
  }

  lemma {:induction false} CalmAfterEnd<V>(script: nat -> seq<V>, s: State<V>, i: nat, o: Outcome)
    requires CalmOk(s) && Placed(s.core.fibers, s.jobs) && Enabled(script, s, FiberEnd(i, o))
    ensures CalmOk(Next(script, s, FiberEnd(i, o)))
  {
    var s', j := Next(script, s, FiberEnd(i, o)), s.core.fibers[i].job;
    assert FiberOk(s.core.fibers, s.jobs, i);
    if o.Failed? {
      assert s'.jobs[j].outcome == Some(o);
    } else if AnyFailed(s.jobs) {
      FailedStays(s.jobs, s'.jobs);
    }
  }

  lemma {:induction false} CalmSame<V>(s: State<V>, s': State<V>)
    requires CalmOk(s) && s'.jobs == s.jobs
    requires s.core.interrupted ==> s'.core.interrupted
    requires s.core.downstreamDone ==> s'.core.downstreamDone
    requires s'.core.interrupted || s'.core.downstreamDone || s'.core.fibers == s.core.fibers
    ensures CalmOk(s')
  {
  }

  lemma {:induction false} CalmAfterDownstream<V>(script: nat -> seq<V>, s: State<V>, step: Step)
    requires CalmOk(s) && Enabled(script, s, step) && (step.AskNext? || step.RunEgress? || step.RunWaiter?)
    ensures CalmOk(Next(script, s, step))
  {
    CalmSame(s, Next(script, s, step));
  }

  lemma {:induction false} CalmAfterSignal<V>(script: nat -> seq<V>, s: State<V>, step: Step)
    requires CalmOk(s) && Enabled(script, s, step) && (step.UpstreamEnd? || step.InterruptAdaptor? || step.CallDone?)
    ensures CalmOk(Next(script, s, step))
  {
    CalmSame(s, Next(script, s, step));
  }

  lemma {:induction false} CalmAfterLeave<V>(script: nat -> seq<V>, s: State<V>, i: nat)
    requires CalmOk(s) && Enabled(script, s, FiberLeaves(i))
    ensures CalmOk(Next(script, s, FiberLeaves(i)))
  {
    var s' := Next(script, s, FiberLeaves(i));
    assert WindingUp(s') <==> WindingUp(s);
    assert NoneInterrupted(s.core.fibers) ==> NoneInterrupted(s'.core.fibers);
  }

  lemma {:induction false} CalmPreserved<V>(script: nat -> seq<V>, s: State<V>, step: Step)
    requires CalmOk(s) && Placed(s.core.fibers, s.jobs) && Enabled(script, s, step)
    ensures CalmOk(Next(script, s, step))
  {
    match step
    case UpstreamValue => CalmAfterValue(script, s);
    case FiberEmit(i) => CalmAfterEmit(script, s, i);
    case FiberEnd(i, o) => CalmAfterEnd(script, s, i, o);
    case FiberLeaves(i) => CalmAfterLeave(script, s, i);
    case UpstreamEnd(_) | InterruptAdaptor | CallDone => CalmAfterSignal(script, s, step);
    case _ => CalmAfterDownstream(script, s, step);
  }

  // ------------------------------------------------------------ whole runs

  function After<V>(script: nat -> seq<V>, steps: seq<Step>): State<V> {
    if steps == [] then Init()
    else Next(script, After(script, steps[..|steps| - 1]), steps[|steps| - 1])
  }

  lemma {:induction false} StepKeepsInv<V>(script: nat -> seq<V>, s: State<V>, step: Step)
    requires Inv(script, s)
    ensures Inv(script, Next(script, s, step))
  {
    if Enabled(script, s, step) {
      FlagsPreserved(script, s, step);
      PlacementPreserved(script, s, step);
      StreamPreserved(script, s, step);
      FailurePreserved(script, s, step);
      AdmissionPreserved(script, s, step);
      EndPreserved(script, s, step);
      InterruptsPreserved(script, s, step);
      CalmPreserved(script, s, step);
    }
  }

  lemma {:induction false} RunKeepsInv<V>(script: nat -> seq<V>, steps: seq<Step>)
    ensures Inv(script, After(script, steps))
    decreases |steps|
  {
    if steps == [] {
      assert Values<V>([]) == [];
    } else {
      RunKeepsInv(script, steps[..|steps| - 1]);
      StepKeepsInv(script, After(script, steps[..|steps| - 1]), steps[|steps| - 1]);
    }
  }

  lemma {:induction false} AfterConcat<V>(script: nat -> seq<V>, steps: seq<Step>, step: Step)
    ensures After(script, steps + [step]) == Next(script, After(script, steps), step)
  {
    assert (steps + [step])[..|steps|] == steps;
  }

  /** Nothing but the egress block of an asking downstream delivers a value or finishes it. */
  lemma {:induction false} OnlyEgressDelivers<V>(script: nat -> seq<V>, s: State<V>, step: Step)
    requires !step.AskNext?
    ensures var s' := Next(script, s, step);
            && |s.jobs| <= |s'.jobs|
            && (|| (s'.delivered == s.delivered && s'.downstream == s.downstream)
                || (s'.delivered == s.delivered && s.downstream.Asking? && !s'.downstream.Idle?)
                || (s.values != [] && s'.delivered == s.delivered + [s.values[0]]
                    && s.downstream.Asking? && s'.downstream.Idle?))
  {
  }

  /** Only a running fiber pushes, and only for the value that it runs. */
  lemma {:induction false} OnlyFibersPush<V>(script: nat -> seq<V>, s: State<V>, step: Step)
    ensures var s' := Next(script, s, step);
            || s'.pushed == s.pushed
            || (step.FiberEmit? && Live(s, step.fiber)
                && |s'.pushed| == |s.pushed| + 1 && s'.pushed[..|s.pushed|] == s.pushed
                && s'.pushed[|s.pushed|].job == s.core.fibers[step.fiber].job)
  {
  }

  /**
   No lost wakeup, whatever the interleaving: egress stays parked only while there is
   nothing to deliver and more may come, and WaitForDone only while somebody is not done.
   */
  lemma {:induction false} NoLostWakeup<V>(script: nat -> seq<V>, steps: seq<Step>)
    ensures var s := After(script, steps);
            && (s.core.egress.Parked? ==> s.values == [] && !(s.core.upstreamDone && s.core.fibersDone))
            && (s.core.waiter.Parked? ==> !s.core.downstreamDone || !s.core.upstreamDone || !s.core.fibersDone)
            && s.endings <= 1
            && (s.endings == 1 ==> s.core.downstreamDone && s.core.upstreamDone && s.core.fibersDone)
  {
    RunKeepsInv(script, steps);
  }

  /** `fibers_done_` is never wrongly set, and after upstream has ended it is the truth about the fibers. */
  lemma {:induction false} FibersDoneIsExact<V>(script: nat -> seq<V>, steps: seq<Step>)
    ensures var s := After(script, steps);
            var all := forall j :: 0 <= j < |s.jobs| ==> s.jobs[j].outcome.Some?;
            (s.core.fibersDone ==> all) && (s.core.upstreamDone && all ==> s.core.fibersDone)
  {
    RunKeepsInv(script, steps);
    var s := After(script, steps);
    forall j: nat | j < |s.jobs| && AllDone(s.core.fibers) ensures s.jobs[j].outcome.Some? {
      assert JobOk(s.core.fibers, s.jobs, j);
    }
    if !AllDone(s.core.fibers) {
      var i: nat :| i < |s.core.fibers| && !s.core.fibers[i].done;
      assert FiberOk(s.core.fibers, s.jobs, i);
    }
  }

  /** Every upstream value is run unless an interrupt, a done or a failure came first. */
  lemma {:induction false} EveryValueIsRun<V>(script: nat -> seq<V>, steps: seq<Step>)
    ensures var s := After(script, steps);
            && |s.jobs| <= s.offered <= |s.jobs| + 1
            && (Admits(s.core) ==> |s.jobs| == s.offered)
  {
    RunKeepsInv(script, steps);
  }

  /** Once interrupted, told to be done, or hit by a fiber's failure, no fiber runs uninterrupted. */
  lemma {:induction false} InterruptsReachEveryFiber<V>(script: nat -> seq<V>, steps: seq<Step>)
    requires WindingUp(After(script, steps))
    ensures var s := After(script, steps);
            !Admits(s.core) && NoneUninterrupted(s.core.fibers)
  {
    RunKeepsInv(script, steps);
  }

  /** Quiescent, with the same values, failures and fibers' work as `s`. */
  ghost predicate StillQuiescent<V>(s: State<V>, s': State<V>) {
    && Quiescent(s') && s'.pushed == s.pushed && s'.failures == s.failures && s'.jobs == s.jobs
    && s'.offered == s.offered
  }

  /** And only then: otherwise no running fiber has been interrupted. */
  lemma {:induction false} OnlyWindingUpInterrupts<V>(script: nat -> seq<V>, steps: seq<Step>)
    requires !WindingUp(After(script, steps))
    ensures var s := After(script, steps);
            forall i :: 0 <= i < |s.core.fibers| && !s.core.fibers[i].done ==> !s.core.fibers[i].interrupted
  {
    RunKeepsInv(script, steps);
  }

  lemma {:induction false} QuiescentStep<V>(script: nat -> seq<V>, steps: seq<Step>, step: Step)
    requires Quiescent(After(script, steps))
    ensures StillQuiescent(After(script, steps), After(script, steps + [step]))
  {
    RunKeepsInv(script, steps);
    AfterConcat(script, steps, step);
    QuiescentIsFrozen(script, After(script, steps), step);
  }

  lemma {:induction false} QuiescentPrefix<V>(script: nat -> seq<V>, steps: seq<Step>, n: nat)
    requires n <= |steps| && Quiescent(After(script, steps[..n]))
    ensures StillQuiescent(After(script, steps[..n]), After(script, steps))
    decreases |steps| - n
  {
    if n == |steps| {
      assert steps[..n] == steps;
    } else {
      QuiescentStep(script, steps[..n], steps[n]);
      assert steps[..n + 1] == steps[..n] + [steps[n]];
      QuiescentPrefix(script, steps, n + 1);
    }
  }

  /** Upstream and fibers done is stable, and from then on no value or failure is added. */
  lemma {:induction false} QuiescenceIsStable<V>(script: nat -> seq<V>, steps: seq<Step>, more: seq<Step>)
    requires Quiescent(After(script, steps))
    ensures var s, s' := After(script, steps), After(script, steps + more);
            && Quiescent(s') && s'.pushed == s.pushed && s'.failures == s.failures && s'.jobs == s.jobs
            && s'.offered == s.offered
  {
    assert (steps + more)[..|steps|] == steps;
    QuiescentPrefix(script, steps + more, |steps|);
  }

  /** A failure or stop goes downstream only after everything has finished, and it is the first. */
  lemma {:induction false} FirstFailureGoesDownstream<V>(script: nat -> seq<V>, steps: seq<Step>, f: Failure)
    requires After(script, steps).downstream == Finished(Raised(f))
    ensures var s := After(script, steps);
            && s.core.upstreamDone && s.core.fibersDone && AllDone(s.core.fibers)
            && s.failures != [] && f == s.failures[0]
  {
    RunKeepsInv(script, steps);
  }

  /** Values go downstream each once and in the order they were pushed. */
  lemma {:induction false} DeliversInPushOrder<V>(script: nat -> seq<V>, steps: seq<Step>)
    ensures var s := After(script, steps); s.delivered + s.values == Values(s.pushed)
    ensures forall j: nat :: Of(After(script, steps).pushed, j) <= script(j)
    ensures forall j: nat :: j >= |After(script, steps).jobs| ==> Of(After(script, steps).pushed, j) == []
  {
    RunKeepsInv(script, steps);
    var s := After(script, steps);
    forall j: nat ensures Of(s.pushed, j) <= script(j) && (j >= |s.jobs| ==> Of(s.pushed, j) == []) {
      assert Progress(script, s, j);
    }
  }

  /**
   The end marker comes only after every value of every accepted upstream value, and every
   upstream value was accepted unless there was an interrupt.
   */
  lemma {:induction false} EndOfStreamMeansEverything<V>(script: nat -> seq<V>, steps: seq<Step>)
    requires After(script, steps).downstream == Finished(EndOfStream)
    ensures var s := After(script, steps);
            && s.failures == [] && s.core.failure.None?
            && s.delivered == Values(s.pushed)
            && |s.jobs| <= s.offered && (!s.core.interrupted ==> |s.jobs| == s.offered)
            && (forall j: nat :: Of(s.pushed, j) == if j < |s.jobs| then script(j) else [])
  {
    RunKeepsInv(script, steps);
    var s := After(script, steps);
    forall j: nat ensures Of(s.pushed, j) == if j < |s.jobs| then script(j) else [] {
      assert Progress(script, s, j);
      assert JobOk(s.core.fibers, s.jobs, j);
    }
  }
}
