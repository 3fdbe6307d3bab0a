/**
 `EventLoop::Clock`: a clock that can be paused and advanced by hand. Callbacks are
 identified by an id and `fired` records each call with the nanoseconds it was given.
 Nanoseconds are unbounded integers and may be negative, as `std::chrono` allows.
 */
module VirtualClock {
  import opened Options

  type Id = nat
  datatype Pending = Pending(deadline: int, id: Id)
  datatype Firing = Firing(id: Id, nanoseconds: int)

  datatype Time = Time(paused: Option<int>, advanced: int, pending: seq<Pending>, fired: seq<Firing>)

  datatype Op = Pause(now: int) | Resume | Advance(nanoseconds: int) | Submit(id: Id, nanoseconds: int)

  /** The CHECKs: pausing needs a running clock, resuming and advancing a paused one. */
  predicate Allowed(t: Time, op: Op) {
    match op
    case Pause(_) => t.paused.None?
    case Resume => t.paused.Some?
    case Advance(_) => t.paused.Some?
    case Submit(_, _) => true
  }

  /** Of the first `n` callbacks those that are due, called with 0 in list order. */
  function Due(pending: seq<Pending>, n: nat, advanced: int): seq<Firing>
    requires n <= |pending|
  {
    if n == 0 then []
    else
      var before := Due(pending, n - 1, advanced);
      if advanced >= pending[n - 1].deadline then before + [Firing(pending[n - 1].id, 0)] else before
  }

  function NotDue(pending: seq<Pending>, n: nat, advanced: int): seq<Pending>
    requires n <= |pending|
  {
    if n == 0 then []
    else
      var before := NotDue(pending, n - 1, advanced);
      if advanced >= pending[n - 1].deadline then before else before + [pending[n - 1]]
  }

  /** Every pending callback with what is left of its wait. */
  function Remaining(pending: seq<Pending>, advanced: int): seq<Firing> {
    seq(|pending|, i requires 0 <= i < |pending| => Firing(pending[i].id, pending[i].deadline - advanced))
  }

  function Apply(t: Time, op: Op): Time
    requires Allowed(t, op)
  {
    match op
    case Pause(now) => t.(paused := Some(now), advanced := 0)
    case Resume => t.(paused := None, pending := [], fired := t.fired + Remaining(t.pending, t.advanced))
    case Advance(ns) =>
      var a := t.advanced + ns;
      t.(advanced := a, pending := NotDue(t.pending, |t.pending|, a),
          fired := t.fired + Due(t.pending, |t.pending|, a))
    case Submit(id, ns) =>
      if t.paused.None? then t.(fired := t.fired + [Firing(id, ns)])
      else t.(pending := t.pending + [Pending(ns + t.advanced, id)])
  }

  /** What the clock shows; `loopNow` is what libuv says the time is. */
  function NowAt(t: Time, loopNow: int): int {
    if t.paused.Some? then t.paused.value + t.advanced else loopNow
  }

  /** A libuv handle of the event loop. */
  datatype Handle = Handle(timer: bool, active: bool)

  predicate ActiveTimer(h: Handle) { h.timer && h.active }

  class Clock {
    var paused: Option<int>
    var advanced: int
    var pending: seq<Pending>
    var fired: seq<Firing>

    function View(): Time
      reads this
    {
      Time(paused, advanced, pending, fired)
    }

    constructor ()
      ensures View() == Time(None, 0, [], [])
    {
      paused, advanced, pending, fired := None, 0, [], [];
    }

    function Now(loopNow: int): int
      reads this
    {
      NowAt(View(), loopNow)
    }

    /** Not ok means that a CHECK aborts: the clock is paused, or the loop has an active timer. */
    method PauseAt(loopNow: int, handles: seq<Handle>) returns (ok: bool)
      modifies this
      ensures ok <==> old(paused).None? && forall i :: 0 <= i < |handles| ==> !ActiveTimer(handles[i])
      ensures View() == if ok then Apply(old(View()), Pause(loopNow)) else old(View())
      ensures Now(loopNow) == old(Now(loopNow))
    {
      if paused.Some? {
        return false;
      }
      var timers: nat := 0;
      for i := 0 to |handles|
        invariant timers == 0 <==> forall k :: 0 <= k < i ==> !ActiveTimer(handles[k])
        invariant View() == old(View())
      {
        if ActiveTimer(handles[i]) {
          timers := timers + 1;
        }
      }
      if timers != 0 {
        return false;
      }
      paused := Some(Now(loopNow));
      advanced := 0;
      return true;
    }

    method ResumeAll()
      requires Allowed(View(), Resume)
      modifies this
      ensures View() == Apply(old(View()), Resume)
    {
      for i := 0 to |pending|
        invariant paused == old(paused) && advanced == old(advanced) && pending == old(pending)
        invariant fired == old(fired) + Remaining(pending, advanced)[..i]
      {
        fired := fired + [Firing(pending[i].id, pending[i].deadline - advanced)];
      }
      pending := [];
      paused := None;
    }

    /** `erase(remove_if(...))`: one pass that calls what is due and keeps the rest in order. */
    method AdvanceBy(ns: int)
      requires Allowed(View(), Advance(ns))
      modifies this
      ensures View() == Apply(old(View()), Advance(ns))
    {
      advanced := advanced + ns;
      var kept: seq<Pending> := [];
      for i := 0 to |pending|
        invariant paused == old(paused) && advanced == old(advanced) + ns && pending == old(pending)
        invariant kept == NotDue(pending, i, advanced)
        invariant fired == old(fired) + Due(pending, i, advanced)
      {
        if advanced >= pending[i].deadline {
          fired := fired + [Firing(pending[i].id, 0)];
        } else {
          kept := kept + [pending[i]];
        }
      }
      pending := kept;
    }

    method SubmitCallback(id: Id, ns: int)
      modifies this
      ensures View() == Apply(old(View()), Submit(id, ns))
    {
      if paused.None? {
        fired := fired + [Firing(id, ns)];
      } else {
        pending := pending + [Pending(ns + advanced, id)];
      }
    }
  }

  // ------------------------------------------------------------ the order of calls

  /** How many of the first `n` callbacks are due. */
  function CountDue(pending: seq<Pending>, n: nat, a: int): (c: nat)
    requires n <= |pending|
    ensures c <= n
  {
    if n == 0 then 0 else CountDue(pending, n - 1, a) + if pending[n - 1].deadline <= a then 1 else 0
  }

  lemma {:induction false} SplitCounts(pending: seq<Pending>, n: nat, a: int)
    requires n <= |pending|
    ensures |Due(pending, n, a)| == CountDue(pending, n, a)
    ensures |NotDue(pending, n, a)| == n - CountDue(pending, n, a)
  {
    if n > 0 {
      SplitCounts(pending, n - 1, a);
    }
  }

  /**
   Advancing goes through the callbacks in the order in which they were submitted: one that is
   due is called with 0 after exactly the due ones before it, and one that is not is kept behind
   exactly the others before it.
   */
  lemma {:induction false} AdvanceKeepsOrder(pending: seq<Pending>, i: nat, n: nat, a: int)
    requires i < n <= |pending|
    ensures var c := CountDue(pending, i, a);
            if pending[i].deadline <= a then
              c < |Due(pending, n, a)| && Due(pending, n, a)[c] == Firing(pending[i].id, 0)
            else
              i - c < |NotDue(pending, n, a)| && NotDue(pending, n, a)[i - c] == pending[i]
  {
    SplitCounts(pending, n - 1, a);
    if i < n - 1 {
      AdvanceKeepsOrder(pending, i, n - 1, a);
    }
  }

  /** Resuming calls everything that is pending, in the order of submission, with what is left of its wait. */
  lemma {:induction false} ResumeKeepsOrder(t: Time)
    requires t.paused.Some?
    ensures var u := Apply(t, Resume);
            && u.paused.None? && u.pending == []
            && |u.fired| == |t.fired| + |t.pending| && u.fired[..|t.fired|] == t.fired
            && forall i :: 0 <= i < |t.pending| ==>
                 u.fired[|t.fired| + i] == Firing(t.pending[i].id, t.pending[i].deadline - t.advanced)
  {
  }

  // ------------------------------------------------------------ one callback's life

  /** What one callback was called with, call by call. */
  function Calls(fired: seq<Firing>, id: Id): seq<int> { CallsIn(fired, |fired|, id) }

  function CallsIn(fired: seq<Firing>, n: nat, id: Id): seq<int>
    requires n <= |fired|
  {
    if n == 0 then []
    else
      var before := CallsIn(fired, n - 1, id);
      if fired[n - 1].id == id then before + [fired[n - 1].nanoseconds] else before
  }

  /** The deadlines one callback is waiting for. */
  function Deadlines(pending: seq<Pending>, id: Id): seq<int> { DeadlinesIn(pending, |pending|, id) }

  function DeadlinesIn(pending: seq<Pending>, n: nat, id: Id): seq<int>
    requires n <= |pending|
  {
    if n == 0 then []
    else
      var before := DeadlinesIn(pending, n - 1, id);
      if pending[n - 1].id == id then before + [pending[n - 1].deadline] else before
  }

  lemma {:induction false} CallsInPrefix(f: seq<Firing>, g: seq<Firing>, n: nat, id: Id)
    requires n <= |f|
    ensures CallsIn(f + g, n, id) == CallsIn(f, n, id)
  {
    if n > 0 {
      CallsInPrefix(f, g, n - 1, id);
    }
  }

  lemma {:induction false} CallsInConcat(f: seq<Firing>, g: seq<Firing>, n: nat, id: Id)
    requires n <= |g|
    ensures CallsIn(f + g, |f| + n, id) == Calls(f, id) + CallsIn(g, n, id)
  {
    if n == 0 {
      CallsInPrefix(f, g, |f|, id);
    } else {
      CallsInConcat(f, g, n - 1, id);
      assert (f + g)[|f| + n - 1] == g[n - 1];
    }
  }

  lemma {:induction false} CallsConcat(f: seq<Firing>, g: seq<Firing>, id: Id)
    ensures Calls(f + g, id) == Calls(f, id) + Calls(g, id)
  {
    CallsInConcat(f, g, |g|, id);
  }

  lemma {:induction false} CallsSnoc(fired: seq<Firing>, f: Firing, id: Id)
    ensures Calls(fired + [f], id) == if f.id == id then Calls(fired, id) + [f.nanoseconds] else Calls(fired, id)
  {
    CallsInPrefix(fired, [f], |fired|, id);
  }

  lemma {:induction false} DeadlinesInPrefix(pending: seq<Pending>, p: Pending, n: nat, id: Id)
    requires n <= |pending|
    ensures DeadlinesIn(pending + [p], n, id) == DeadlinesIn(pending, n, id)
  {
    if n > 0 {
      DeadlinesInPrefix(pending, p, n - 1, id);
    }
  }

  lemma {:induction false} DeadlinesSnoc(pending: seq<Pending>, p: Pending, id: Id)
    ensures Deadlines(pending + [p], id) ==
            if p.id == id then Deadlines(pending, id) + [p.deadline] else Deadlines(pending, id)
  {
    DeadlinesInPrefix(pending, p, |pending|, id);
  }

  /** Advancing calls a waiting callback exactly if its deadline is reached, and keeps it otherwise. */
  lemma {:induction false} AdvanceOne(pending: seq<Pending>, n: nat, a: int, id: Id)
    requires n <= |pending| && |DeadlinesIn(pending, n, id)| <= 1
    ensures var d := DeadlinesIn(pending, n, id);
            && Deadlines(NotDue(pending, n, a), id) == (if d != [] && a >= d[0] then [] else d)
            && Calls(Due(pending, n, a), id) == (if d != [] && a >= d[0] then [0] else [])
  {
    if n > 0 {
      AdvanceOne(pending, n - 1, a, id);
      if a >= pending[n - 1].deadline {
        CallsSnoc(Due(pending, n - 1, a), Firing(pending[n - 1].id, 0), id);
      } else {
        DeadlinesSnoc(NotDue(pending, n - 1, a), pending[n - 1], id);
      }
    }
  }

  lemma {:induction false} ResumeOne(pending: seq<Pending>, n: nat, a: int, id: Id)
    requires n <= |pending| && |DeadlinesIn(pending, n, id)| <= 1
    ensures var d := DeadlinesIn(pending, n, id);
            CallsIn(Remaining(pending, a), n, id) == if d == [] then [] else [d[0] - a]
  {
    if n > 0 {
      ResumeOne(pending, n - 1, a, id);
    }
  }

  /** What happens while the clock stays paused: advances, and submissions of others. */
  predicate Quiet(ops: seq<Op>, id: Id) {
    forall i :: 0 <= i < |ops| ==> ops[i].Advance? || (ops[i].Submit? && ops[i].id != id)
  }

  function Elapsed(ops: seq<Op>): int {
    if ops == [] then 0
    else Elapsed(ops[..|ops| - 1]) + if ops[|ops| - 1].Advance? then ops[|ops| - 1].nanoseconds else 0
  }

  /** Some advance brings the time elapsed to `wait` or beyond. */
  predicate Reaches(ops: seq<Op>, wait: int) {
    ops != [] &&
    (Reaches(ops[..|ops| - 1], wait) || (ops[|ops| - 1].Advance? && Elapsed(ops) >= wait))
  }

  function Run(t: Time, ops: seq<Op>, id: Id): (u: Time)
    requires t.paused.Some? && Quiet(ops, id)
    ensures u.paused == t.paused
    ensures u.advanced == t.advanced + Elapsed(ops)
  {
    if ops == [] then t else Apply(Run(t, ops[..|ops| - 1], id), ops[|ops| - 1])
  }

  /** While the clock is paused its time moves by what it is advanced by and by nothing else. */
  lemma {:induction false} NowFollowsAdvances(t: Time, pausedAt: int, ops: seq<Op>, id: Id, loopNow: int)
    requires t.paused.None? && Quiet(ops, id)
    ensures NowAt(Run(Apply(t, Pause(pausedAt)), ops, id), loopNow) == pausedAt + Elapsed(ops)
  {
  }

  lemma {:induction false} AdvanceStep(u: Time, ns: int, id: Id)
    requires u.paused.Some? && |Deadlines(u.pending, id)| <= 1
    ensures var v, d := Apply(u, Advance(ns)), Deadlines(u.pending, id);
            var due := d != [] && u.advanced + ns >= d[0];
            && Deadlines(v.pending, id) == (if due then [] else d)
            && Calls(v.fired, id) == if due then Calls(u.fired, id) + [0] else Calls(u.fired, id)
  {
    var a := u.advanced + ns;
    var due, kept := Due(u.pending, |u.pending|, a), NotDue(u.pending, |u.pending|, a);
    assert Apply(u, Advance(ns)) == u.(advanced := a, pending := kept, fired := u.fired + due);
    assert Calls(u.fired + due, id) == Calls(u.fired, id) + Calls(due, id) by {
      CallsConcat(u.fired, due, id);
    }
    AdvanceOne(u.pending, |u.pending|, a, id);
  }

  lemma {:induction false} QuietStep(u: Time, op: Op, id: Id)
    requires u.paused.Some? && |Deadlines(u.pending, id)| <= 1
    requires op.Advance? || (op.Submit? && op.id != id)
    ensures var v, d := Apply(u, op), Deadlines(u.pending, id);
            var due := op.Advance? && d != [] && u.advanced + op.nanoseconds >= d[0];
            && Deadlines(v.pending, id) == (if due then [] else d)
            && Calls(v.fired, id) == if due then Calls(u.fired, id) + [0] else Calls(u.fired, id)
  {
    if op.Advance? {
      AdvanceStep(u, op.nanoseconds, id);
    } else {
      DeadlinesSnoc(u.pending, Pending(op.nanoseconds + u.advanced, op.id), id);
    }
  }

  lemma {:induction false} WhilePaused(t: Time, ops: seq<Op>, id: Id, wait: int)
    requires t.paused.Some? && Quiet(ops, id)
    requires Deadlines(t.pending, id) == [t.advanced + wait] && Calls(t.fired, id) == []
    ensures var u := Run(t, ops, id);
            && Deadlines(u.pending, id) == (if Reaches(ops, wait) then [] else [t.advanced + wait])
            && Calls(u.fired, id) == (if Reaches(ops, wait) then [0] else [])
    decreases |ops|
  {
    if ops != [] {
      var before, last := ops[..|ops| - 1], ops[|ops| - 1];
      WhilePaused(t, before, id, wait);
      QuietStep(Run(t, before, id), last, id);
    }
  }

  lemma {:induction false} NotReachedIsEarly(ops: seq<Op>, wait: int, id: Id)
    requires Quiet(ops, id) && !Reaches(ops, wait) && wait >= 0
    ensures Elapsed(ops) <= wait
    decreases |ops|
  {
    if ops != [] {
      NotReachedIsEarly(ops[..|ops| - 1], wait, id);
    }
  }

  /**
   A callback submitted to a paused clock runs exactly once: with 0 in the first advance
   that reaches its wait, and otherwise when the clock resumes, with its wait less the
   virtual time that has passed, which is never negative for a non-negative wait. The
   statement holds after every prefix of `ops`, so it also fixes the moment.
   */
  lemma {:induction false} RunsExactlyOnce(t: Time, id: Id, wait: int, ops: seq<Op>)
    requires t.paused.Some? && Quiet(ops, id)
    requires Deadlines(t.pending, id) == [] && Calls(t.fired, id) == []
    ensures var u := Run(Apply(t, Submit(id, wait)), ops, id);
            var v := Apply(u, Resume);
            && Calls(u.fired, id) == (if Reaches(ops, wait) then [0] else [])
            && Calls(v.fired, id) == (if Reaches(ops, wait) then [0] else [wait - Elapsed(ops)])
            && v.pending == []
    ensures wait >= 0 && !Reaches(ops, wait) ==> wait - Elapsed(ops) >= 0
  {
    SubmitStep(t, id, wait);
    WhilePaused(Apply(t, Submit(id, wait)), ops, id, wait);
    PendingRunsOnce(Apply(t, Submit(id, wait)), id, wait, ops);
    if wait >= 0 && !Reaches(ops, wait) {
      NotReachedIsEarly(ops, wait, id);
    }
  }

  lemma {:induction false} SubmitStep(t: Time, id: Id, wait: int)
    requires t.paused.Some? && Deadlines(t.pending, id) == []
    ensures var s := Apply(t, Submit(id, wait));
            && Deadlines(s.pending, id) == [s.advanced + wait]
            && s.paused == t.paused && s.fired == t.fired
  {
    DeadlinesSnoc(t.pending, Pending(wait + t.advanced, id), id);
  }

  lemma {:induction false} ResumeStep(u: Time, id: Id, called: bool, left: int)
    requires u.paused.Some?
    requires Deadlines(u.pending, id) == (if called then [] else [u.advanced + left])
    requires Calls(u.fired, id) == (if called then [0] else [])
    ensures var v := Apply(u, Resume);
            Calls(v.fired, id) == (if called then [0] else [left]) && v.pending == []
  {
    ResumeOne(u.pending, |u.pending|, u.advanced, id);
    CallsConcat(u.fired, Remaining(u.pending, u.advanced), id);
  }

  lemma {:induction false} PendingRunsOnce(s: Time, id: Id, wait: int, ops: seq<Op>)
    requires s.paused.Some? && Quiet(ops, id)
    requires Deadlines(s.pending, id) == [s.advanced + wait] && Calls(s.fired, id) == []
    ensures var v := Apply(Run(s, ops, id), Resume);
            && Calls(v.fired, id) == (if Reaches(ops, wait) then [0] else [wait - Elapsed(ops)])
            && v.pending == []
  {
    var u := Run(s, ops, id);
    assert s.advanced + wait == u.advanced + (wait - Elapsed(ops));
    WhilePaused(s, ops, id, wait);
    ResumeStep(u, id, Reaches(ops, wait), wait - Elapsed(ops));
  }

  // ------------------------------------------------------------ whole runs

  /** Any run from the start; an operation whose CHECK fails does nothing. */
  function After(ops: seq<Op>): Time {
    if ops == [] then Time(None, 0, [], [])
    else
      var t, op := After(ops[..|ops| - 1]), ops[|ops| - 1];
      if Allowed(t, op) then Apply(t, op) else t
  }

  function Submissions(ops: seq<Op>, id: Id): nat {
    if ops == [] then 0
    else
      var last := ops[|ops| - 1];
      Submissions(ops[..|ops| - 1], id) + if last.Submit? && last.id == id then 1 else 0
  }

  lemma {:induction false} AdvanceCounts(pending: seq<Pending>, n: nat, a: int, id: Id)
    requires n <= |pending|
    ensures |Deadlines(NotDue(pending, n, a), id)| + |Calls(Due(pending, n, a), id)| == |DeadlinesIn(pending, n, id)|
  {
    if n > 0 {
      AdvanceCounts(pending, n - 1, a, id);
      AdvanceCountsOne(NotDue(pending, n - 1, a), Due(pending, n - 1, a), pending[n - 1], a, id);
    }
  }

  lemma {:induction false} AdvanceCountsOne(kept: seq<Pending>, due: seq<Firing>, p: Pending, a: int, id: Id)
    ensures var one := if p.id == id then 1 else 0;
            if a >= p.deadline then |Calls(due + [Firing(p.id, 0)], id)| == |Calls(due, id)| + one
            else |Deadlines(kept + [p], id)| == |Deadlines(kept, id)| + one
  {
    if a >= p.deadline {
      CallsSnoc(due, Firing(p.id, 0), id);
    } else {
      DeadlinesSnoc(kept, p, id);
    }
  }

  lemma {:induction false} ResumeCounts(pending: seq<Pending>, n: nat, a: int, id: Id)
    requires n <= |pending|
    ensures |CallsIn(Remaining(pending, a), n, id)| == |DeadlinesIn(pending, n, id)|
  {
    if n > 0 {
      ResumeCounts(pending, n - 1, a, id);
    }
  }

  lemma {:induction false} StepCounts(t: Time, op: Op, id: Id)
    requires Allowed(t, op) && (t.pending != [] ==> t.paused.Some?)
    ensures var u := Apply(t, op);
            && |Calls(u.fired, id)| + |Deadlines(u.pending, id)| ==
               |Calls(t.fired, id)| + |Deadlines(t.pending, id)| + (if op.Submit? && op.id == id then 1 else 0)
            && (u.pending != [] ==> u.paused.Some?)
  {
    match op
    case Pause(_) =>
    case Resume =>
      ResumeCounts(t.pending, |t.pending|, t.advanced, id);
      CallsConcat(t.fired, Remaining(t.pending, t.advanced), id);
    case Advance(ns) =>
      AdvanceCounts(t.pending, |t.pending|, t.advanced + ns, id);
      CallsConcat(t.fired, Due(t.pending, |t.pending|, t.advanced + ns), id);
    case Submit(i, ns) =>
      if t.paused.None? {
        CallsSnoc(t.fired, Firing(i, ns), id);
      } else {
        DeadlinesSnoc(t.pending, Pending(ns + t.advanced, i), id);
      }
  }

  lemma {:induction false} AfterSnoc(ops: seq<Op>, op: Op)
    ensures var t := After(ops); After(ops + [op]) == if Allowed(t, op) then Apply(t, op) else t
  {
    assert (ops + [op])[..|ops|] == ops;
  }

  /** A callback submitted to a running clock is called at once, with its own wait, and nothing is kept. */
  lemma {:induction false} RunningCallsAtOnce(ops: seq<Op>, id: Id, wait: int)
    requires After(ops).paused.None?
    ensures var t, u := After(ops), After(ops + [Submit(id, wait)]);
            u.fired == t.fired + [Firing(id, wait)] && u.pending == [] && u.paused.None?
  {
    AfterSnoc(ops, Submit(id, wait));
    EverySubmissionIsAccountedFor(ops, id);
  }

  /** A callback submitted to a paused clock waits behind those submitted before it. */
  lemma {:induction false} PausedKeepsOrder(ops: seq<Op>, id: Id, wait: int)
    requires After(ops).paused.Some?
    ensures var t, u := After(ops), After(ops + [Submit(id, wait)]);
            u.fired == t.fired && u.pending == t.pending + [Pending(t.advanced + wait, id)]
  {
    AfterSnoc(ops, Submit(id, wait));
  }

  /**
   No callback is lost or called twice, over any run of pauses, advances, resumes and
   submissions: each submission has been called or is pending, and nothing is pending
   unless the clock is paused.
   */
  lemma {:induction false} EverySubmissionIsAccountedFor(ops: seq<Op>, id: Id)
    ensures var t := After(ops);
            && |Calls(t.fired, id)| + |Deadlines(t.pending, id)| == Submissions(ops, id)
            && (t.paused.None? ==> t.pending == [])
    decreases |ops|
  {
    if ops != [] {
      var t, op := After(ops[..|ops| - 1]), ops[|ops| - 1];
      EverySubmissionIsAccountedFor(ops[..|ops| - 1], id);
      if Allowed(t, op) {
        StepCounts(t, op, id);
      }
    }
  }
}
