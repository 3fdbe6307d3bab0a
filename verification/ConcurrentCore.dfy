/**
 The type-erased half of `Concurrent`: the flags, the list of fibers and the two parked
 continuations that every synchronized block of the adaptor updates, first as functions
 on values and then as the class whose methods run under the adaptor's lock.
 */
module ConcurrentCore {
  import opened Options

  datatype Failure = Stopped | Error(code: nat)

  /** How a stream comes to its end. */
  datatype Outcome = Ended | Failed(failure: Failure)

  /** One fiber; `busy` while its context is in use or blocked, which forbids reuse. */
  datatype Fiber = Fiber(done: bool, interrupted: bool, busy: bool, job: nat)

  /** A `Wait` continuation: not waiting, waiting and notifiable, or queued on the lock again. */
  datatype Waiting = Absent | Parked | Notified

  datatype Core = Core(
    fibers: seq<Fiber>,
    upstreamDone: bool,
    downstreamDone: bool,
    fibersDone: bool,
    interrupted: bool,
    failure: Option<Failure>,
    egress: Waiting,
    waiter: Waiting)

  const INIT: Core := Core([], false, false, false, false, None, Absent, Parked)

  predicate AllDone(fibers: seq<Fiber>) {
    forall i :: 0 <= i < |fibers| ==> fibers[i].done
  }

  predicate Reusable(f: Fiber) { f.done && !f.busy }

  function Fresh(job: nat): Fiber { Fiber(false, false, true, job) }

  /** The first reusable fiber, or the end of the list. */
  function FirstReusable(fibers: seq<Fiber>): (i: nat)
    ensures i <= |fibers|
    ensures forall j :: 0 <= j < i ==> !Reusable(fibers[j])
    ensures i < |fibers| ==> Reusable(fibers[i])
  {
    if fibers == [] || Reusable(fibers[0]) then 0 else 1 + FirstReusable(fibers[1..])
  }

  function Interrupted(f: Fiber): Fiber { if f.done then f else f.(interrupted := true) }

  function InterruptAll(fibers: seq<Fiber>): seq<Fiber> {
    seq(|fibers|, i requires 0 <= i < |fibers| => Interrupted(fibers[i]))
  }

  function Notify(w: Waiting): Waiting { if w.Parked? then Notified else w }

  function NotifyEgress(c: Core): Core { c.(egress := Notify(c.egress)) }

  function NotifyBoth(c: Core): Core { c.(egress := Notify(c.egress), waiter := Notify(c.waiter)) }

  /** Wakes both sides once upstream and every fiber are done. */
  function Settle(c: Core): Core {
    if c.upstreamDone && c.fibersDone then NotifyBoth(c) else c
  }

  /** Only the first failure is kept. */
  function Record(c: Core, o: Outcome): Core {
    if o.Failed? && c.failure.None? then c.(failure := Some(o.failure)) else c
  }

  predicate Admits(c: Core) {
    !c.downstreamDone && !c.interrupted && c.failure.None?
  }

  /** The fiber the next upstream value runs on, reused or appended. */
  function Admit(c: Core, job: nat): Core
    requires Admits(c)
  {
    var i := FirstReusable(c.fibers);
    c.(fibers := if i < |c.fibers| then c.fibers[i := Fresh(job)] else c.fibers + [Fresh(job)],
       fibersDone := false)
  }

  function EndIngress(c: Core, o: Outcome): Core {
    Settle(Record(c, o).(upstreamDone := true, fibersDone := AllDone(c.fibers)))
  }

  function EndFiber(c: Core, i: nat, o: Outcome): Core
    requires i < |c.fibers|
  {
    var fibers := c.fibers[i := c.fibers[i].(done := true)];
    Settle(Record(c, o).(fibers := if o.Ended? then fibers else InterruptAll(fibers),
                         fibersDone := AllDone(fibers)))
  }

  function InterruptCore(c: Core): Core {
    Settle(c.(interrupted := true, fibers := InterruptAll(c.fibers), fibersDone := AllDone(c.fibers)))
  }

  /** Note that only the waiter for done is notified here, not egress. */
  function DoneCore(c: Core): Core {
    var d := c.(downstreamDone := true, fibers := InterruptAll(c.fibers), fibersDone := AllDone(c.fibers));
    if d.upstreamDone && d.fibersDone then d.(waiter := Notify(d.waiter)) else d
  }

  /** Every method runs as one block synchronized on the adaptor's lock. */
  class Adaptor {
    var fibers: seq<Fiber>
    var upstreamDone: bool
    var downstreamDone: bool
    var fibersDone: bool
    var interrupted: bool
    var failure: Option<Failure>
    var egress: Waiting
    var waiter: Waiting

    function View(): Core
      reads this
    {
      Core(fibers, upstreamDone, downstreamDone, fibersDone, interrupted, failure, egress, waiter)
    }

    constructor ()
      ensures View() == INIT
    {
      fibers, failure := [], None;
      upstreamDone, downstreamDone, fibersDone, interrupted := false, false, false, false;
      egress, waiter := Absent, Parked;
    }

    method FibersDone() returns (done: bool)
      ensures done == AllDone(fibers)
    {
      done := true;
      var i := 0;
      while i < |fibers|
        invariant 0 <= i <= |fibers|
        invariant done
        invariant forall j :: 0 <= j < i ==> fibers[j].done
      {
        if !fibers[i].done {
          done := false;
          break;
        }
        i := i + 1;
      }
    }

    /** Interrupts every running fiber and says whether there was one. */
    method InterruptFibers() returns (any: bool)
      modifies this`fibers
      ensures fibers == InterruptAll(old(fibers)) && |fibers| == |old(fibers)|
      ensures forall i :: 0 <= i < |fibers| ==>
                if old(fibers)[i].done then fibers[i] == old(fibers)[i]
                else fibers[i].interrupted && fibers[i] == old(fibers)[i].(interrupted := true)
      ensures any == !AllDone(old(fibers)) == !AllDone(fibers)
    {
      any := false;
      var i := 0;
      while i < |fibers|
        invariant 0 <= i <= |fibers| == |old(fibers)|
        invariant forall j :: 0 <= j < i ==> fibers[j] == Interrupted(old(fibers)[j])
        invariant forall j :: i <= j < |fibers| ==> fibers[j] == old(fibers)[j]
        invariant any == !forall j :: 0 <= j < i ==> old(fibers)[j].done
      {
        if !fibers[i].done {
          fibers := fibers[i := fibers[i].(interrupted := true)];
          any := true;
        }
        i := i + 1;
      }
      assert forall j :: 0 <= j < |fibers| ==> fibers[j].done == old(fibers)[j].done;
    }

    method SettleAll()
      modifies this`egress, this`waiter
      ensures View() == Settle(old(View()))
    {
      if upstreamDone && fibersDone {
        egress, waiter := Notify(egress), Notify(waiter);
      }
    }

    method RecordFirst(o: Outcome)
      modifies this`failure
      ensures View() == Record(old(View()), o)
    {
      if o.Failed? && failure.None? {
        failure := Some(o.failure);
      }
    }

    /** The position of the fiber to start, or None when no further value is taken. */
    method CreateOrReuseFiber(job: nat) returns (r: Option<nat>)
      modifies this`fibers, this`fibersDone
      ensures r.Some? <==> Admits(old(View()))
      ensures View() == if r.Some? then Admit(old(View()), job) else old(View())
      ensures r.Some? ==> r.value == FirstReusable(old(fibers)) && fibers[r.value] == Fresh(job)
    {
      if downstreamDone || interrupted || failure.Some? {
        return None;
      }
      var i := 0;
      while i < |fibers| && !Reusable(fibers[i])
        invariant 0 <= i <= |fibers|
        invariant forall j :: 0 <= j < i ==> !Reusable(fibers[j])
      {
        i := i + 1;
      }
      assert FirstReusable(fibers) == i;
      fibers := if i < |fibers| then fibers[i := Fresh(job)] else fibers + [Fresh(job)];
      fibersDone := false;
      return Some(i);
    }

    method IngressEpilogue(o: Outcome)
      modifies this
      ensures View() == EndIngress(old(View()), o)
    {
      upstreamDone := true;
      RecordFirst(o);
      fibersDone := FibersDone();
      SettleAll();
    }

    method FiberEpilogue(i: nat, o: Outcome)
      requires i < |fibers|
      modifies this
      ensures View() == EndFiber(old(View()), i, o)
    {
      fibers := fibers[i := fibers[i].(done := true)];
      if o.Ended? {
        fibersDone := FibersDone();
      } else {
        RecordFirst(o);
        var any := InterruptFibers();
        fibersDone := !any;
      }
      SettleAll();
    }

    method Interrupt()
      modifies this
      ensures View() == InterruptCore(old(View()))
    {
      interrupted := true;
      var any := InterruptFibers();
      fibersDone := !any;
      SettleAll();
    }

    method Done()
      modifies this
      ensures View() == DoneCore(old(View()))
    {
      downstreamDone := true;
      var any := InterruptFibers();
      fibersDone := !any;
      if upstreamDone && fibersDone {
        waiter := Notify(waiter);
      }
    }
  }
}
