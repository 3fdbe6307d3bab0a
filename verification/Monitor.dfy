/**
 `ConditionVariable::Wait` and `Notify` on top of the FIFO lock. Any number of
 continuations acquire, wait, notify and release in any order the lock allows, and any
 number of condition variables share the lock; `lock[0]` owns the lock.
 */
module Monitor {
  import opened Sequences
  import FifoLock

  type Id = nat
  type Variable = nat

  datatype Phase =
    | Outside
    | Acquiring                // queued on the lock by Acquire
    | Inside                   // owns the lock and runs
    | Waiting(cv: Variable)    // in the variable's list, notifiable_
    | Woken(cv: Variable)      // notified, queued on the lock by AcquireSlow

  /** One condition variable: its list, and who has waited, was notified and has resumed, in order. */
  datatype Condition = Condition(list: seq<Id>, waits: seq<Id>, wakes: seq<Id>, resumed: seq<Id>)

  datatype State = State(lock: seq<Id>, conds: map<Variable, Condition>, phases: map<Id, Phase>)
  {
    function Phase(i: Id): Phase { if i in phases then phases[i] else Outside }
    function At(i: Id, p: Phase): State { this.(phases := phases[i := p]) }
    function Cond(c: Variable): Condition { if c in conds then conds[c] else Condition([], [], [], []) }
    function With(c: Variable, d: Condition): State { this.(conds := conds[c := d]) }
  }

  const INIT: State := State([], map[], map[])

  datatype Step =
    | Acquire(i: Id)
    | Enter(i: Id)                   // the owner of the lock starts or resumes
    | Wait(i: Id, cv: Variable)      // its condition says wait: append to the list and release
    | Notify(i: Id, cv: Variable)    // the owner notifies the head of the list
    | Leave(i: Id)                   // release

  predicate Enabled(s: State, step: Step) {
    match step
    case Acquire(i) => s.Phase(i).Outside?
    case Enter(i) => s.lock != [] && s.lock[0] == i && !s.Phase(i).Inside?
    case Wait(i, _) => s.Phase(i).Inside?
    case Notify(i, c) => s.Phase(i).Inside? && s.Cond(c).list != []
    case Leave(i) => s.Phase(i).Inside?
  }

  /** `OwnedByCurrentSchedulerContext`, and that notifying never takes the lock. */
  predicate ChecksPass(s: State, step: Step) {
    match step
    case Acquire(_) => true
    case Enter(i) => s.Phase(i).Acquiring? || s.Phase(i).Woken?
    case Wait(i, c) => s.lock != [] && s.lock[0] == i && i !in s.Cond(c).list
    case Notify(i, c) =>
      && s.lock != [] && s.lock[0] == i && s.Cond(c).list != []
      && s.Cond(c).list[0] !in s.lock && s.Phase(s.Cond(c).list[0]) == Waiting(c)
    case Leave(i) => s.lock != [] && s.lock[0] == i
  }

  function Next(s: State, step: Step): State {
    if !Enabled(s, step) || !ChecksPass(s, step) then s
    else
      match step
      case Acquire(i) => s.(lock := s.lock + [i]).At(i, Acquiring)
      case Enter(i) => Resumed(s, i).At(i, Inside)
      case Wait(i, c) =>
        var d := s.Cond(c);
        s.(lock := s.lock[1..]).With(c, d.(list := d.list + [i], waits := d.waits + [i])).At(i, Waiting(c))
      case Notify(_, c) =>
        var d, j := s.Cond(c), s.Cond(c).list[0];
        s.(lock := s.lock + [j]).With(c, d.(list := d.list[1..], wakes := d.wakes + [j])).At(j, Woken(c))
      case Leave(i) => s.(lock := s.lock[1..]).At(i, Outside)
  }

  /** A notified continuation evaluates its condition again. */
  function Resumed(s: State, i: Id): State {
    if s.Phase(i).Woken? then
      var d := s.Cond(s.Phase(i).cv);
      s.With(s.Phase(i).cv, d.(resumed := d.resumed + [i]))
    else s
  }

  // ------------------------------------------------------------ the invariant

  /** The waiters that were notified of `c` and are still queued on the lock, in queue order. */
  function WokenIn(s: State, q: seq<Id>, c: Variable): seq<Id> {
    if q == [] then []
    else if s.Phase(q[0]) == Woken(c) then [q[0]] + WokenIn(s, q[1..], c)
    else WokenIn(s, q[1..], c)
  }

  predicate LockOk(s: State, i: Id) {
    && (i in s.lock <==> s.Phase(i).Acquiring? || s.Phase(i).Inside? || s.Phase(i).Woken?)
    && (s.Phase(i).Inside? ==> s.lock[0] == i)
  }

  predicate ListOk(s: State, c: Variable, i: Id) {
    i in s.Cond(c).list <==> s.Phase(i) == Waiting(c)
  }

  predicate OrderOk(s: State, c: Variable) {
    var d := s.Cond(c);
    Distinct(d.list) && d.waits == d.wakes + d.list && d.wakes == d.resumed + WokenIn(s, s.lock, c)
  }

  ghost predicate Places(s: State) {
    && Distinct(s.lock)
    && (forall i: Id :: LockOk(s, i))
    && (forall c: Variable, i: Id :: ListOk(s, c, i))
  }

  ghost predicate Inv(s: State) {
    Places(s) && forall c: Variable :: OrderOk(s, c)
  }

  lemma {:induction false} WokenSame(s: State, s': State, q: seq<Id>, c: Variable)
    requires forall i :: i in q ==> (s.Phase(i) == Woken(c) <==> s'.Phase(i) == Woken(c))
    ensures WokenIn(s, q, c) == WokenIn(s', q, c)
  {
    if q != [] {
      WokenSame(s, s', q[1..], c);
    }
  }

  lemma {:induction false} WokenSnoc(s: State, q: seq<Id>, j: Id, c: Variable)
    ensures WokenIn(s, q + [j], c) == if s.Phase(j) == Woken(c) then WokenIn(s, q, c) + [j] else WokenIn(s, q, c)
  {
    if q == [] {
      assert q + [j] == [j] && [j][1..] == [];
    } else {
      assert (q + [j])[1..] == q[1..] + [j];
      WokenSnoc(s, q[1..], j, c);
    }
  }

  lemma {:induction false} ChecksHold(s: State, step: Step)
    requires Inv(s) && Enabled(s, step)
    ensures ChecksPass(s, step)
  {
    assert LockOk(s, step.i);
    if step.Wait? {
      assert ListOk(s, step.cv, step.i);
    } else if step.Notify? {
      var j := s.Cond(step.cv).list[0];
      assert ListOk(s, step.cv, j) && LockOk(s, j);
    }
  }

  lemma {:induction false} JoinKeepsPlaces(s: State, step: Step)
    requires Inv(s) && Enabled(s, step) && (step.Acquire? || step.Notify?)
    ensures Places(Next(s, step))
  {
    ChecksHold(s, step);
    var s', j := Next(s, step), if step.Acquire? then step.i else s.Cond(step.cv).list[0];
    assert LockOk(s, j);
    assert step.Notify? ==> LockOk(s, step.i) && OrderOk(s, step.cv);
    assert step.Notify? ==> s.Cond(step.cv).list == [j] + s'.Cond(step.cv).list;
    forall i: Id ensures LockOk(s', i) {
      assert LockOk(s, i);
    }
    forall c: Variable, i: Id ensures ListOk(s', c, i) {
      assert ListOk(s, c, i);
    }
  }

  lemma {:induction false} FrontKeepsPlaces(s: State, step: Step)
    requires Inv(s) && Enabled(s, step) && (step.Enter? || step.Wait? || step.Leave?)
    ensures Places(Next(s, step))
  {
    ChecksHold(s, step);
    var s' := Next(s, step);
    assert LockOk(s, step.i);
    assert s.lock == [step.i] + s.lock[1..];
    forall i: Id ensures LockOk(s', i) {
      assert LockOk(s, i);
    }
    forall c: Variable, i: Id ensures ListOk(s', c, i) {
      assert ListOk(s, c, i);
    }
  }

  lemma {:induction false} JoinKeepsOrder(s: State, step: Step, c: Variable)
    requires Inv(s) && Enabled(s, step) && (step.Acquire? || step.Notify?)
    ensures OrderOk(Next(s, step), c)
  {
    ChecksHold(s, step);
    var s', j := Next(s, step), if step.Acquire? then step.i else s.Cond(step.cv).list[0];
    assert LockOk(s, j) && OrderOk(s, c);
    WokenSame(s, s', s.lock, c);
    WokenSnoc(s', s.lock, j, c);
  }

  lemma {:induction false} FrontKeepsOrder(s: State, step: Step, c: Variable)
    requires Inv(s) && Enabled(s, step) && (step.Enter? || step.Wait? || step.Leave?)
    ensures OrderOk(Next(s, step), c)
  {
    ChecksHold(s, step);
    var s', q := Next(s, step), s.lock[1..];
    assert LockOk(s, step.i) && OrderOk(s, c);
    assert step.Wait? ==> ListOk(s, step.cv, step.i);
    assert step.i !in q;
    WokenSame(s, s', q, c);
    if step.Enter? {
      EnterKeepsOrder(s, step.i, c);
    } else {
      assert WokenIn(s, s.lock, c) == WokenIn(s, q, c);
    }
  }

  lemma {:induction false} EnterKeepsOrder(s: State, i: Id, c: Variable)
    requires OrderOk(s, c) && Enabled(s, Enter(i)) && ChecksPass(s, Enter(i))
    requires WokenIn(s, s.lock[1..], c) == WokenIn(Next(s, Enter(i)), s.lock[1..], c)
    ensures OrderOk(Next(s, Enter(i)), c)
  {
    var s', q := Next(s, Enter(i)), s.lock[1..];
    assert WokenIn(s', s.lock, c) == WokenIn(s', q, c);
    if s.Phase(i) == Woken(c) {
      assert s.Cond(c).resumed + ([i] + WokenIn(s, q, c)) == s.Cond(c).resumed + [i] + WokenIn(s, q, c);
    }
  }

  lemma {:induction false} StepKeepsInv(s: State, step: Step)
    requires Inv(s)
    ensures Inv(Next(s, step))
  {
    if Enabled(s, step) {
      if step.Acquire? || step.Notify? {
        JoinKeepsPlaces(s, step);
        forall c: Variable ensures OrderOk(Next(s, step), c) {
          JoinKeepsOrder(s, step, c);
        }
      } else {
        FrontKeepsPlaces(s, step);
        forall c: Variable ensures OrderOk(Next(s, step), c) {
          FrontKeepsOrder(s, step, c);
        }
      }
    }
  }

  // ------------------------------------------------------------ whole runs

  function After(steps: seq<Step>): State {
    if steps == [] then INIT else Next(After(steps[..|steps| - 1]), steps[|steps| - 1])
  }

  lemma {:induction false} AfterSnoc(steps: seq<Step>, step: Step)
    ensures After(steps + [step]) == Next(After(steps), step)
  {
    assert (steps + [step])[..|steps|] == steps;
  }

  lemma {:induction false} RunKeepsInv(steps: seq<Step>)
    ensures Inv(After(steps))
    decreases |steps|
  {
    if steps != [] {
      RunKeepsInv(steps[..|steps| - 1]);
      StepKeepsInv(After(steps[..|steps| - 1]), steps[|steps| - 1]);
    }
  }

  /**
   In every reachable state a continuation that has waited and not resumed is in exactly
   one place, once: in the list of the variable it waits on and notifiable, or notified
   and queued on the lock. It is in no other variable's list. Only the owner of the lock
   is inside.
   */
  lemma {:induction false} BlockedInExactlyOnePlace(steps: seq<Step>, i: Id, c: Variable)
    ensures var s := After(steps);
            && Distinct(s.Cond(c).list) && Distinct(s.lock)
            && (i in s.Cond(c).list <==> s.Phase(i) == Waiting(c))
            && (s.Phase(i).Waiting? ==> i !in s.lock)
            && (s.Phase(i).Woken? ==> i in s.lock && i !in s.Cond(c).list)
            && (s.Phase(i).Inside? ==> s.lock != [] && s.lock[0] == i && i !in s.Cond(c).list)
  {
    RunKeepsInv(steps);
    var s := After(steps);
    assert LockOk(s, i) && ListOk(s, c, i) && OrderOk(s, c);
  }

  /**
   Wakeups are first in, first out from end to end, for each condition variable: the
   order in which conditions are evaluated again is the order in which the continuations
   waited. Those not yet resumed are the notified ones in lock order and then the ones
   still waiting.
   */
  lemma {:induction false} WakeupsFollowWaitOrder(steps: seq<Step>, c: Variable)
    ensures var s := After(steps);
            s.Cond(c).waits == s.Cond(c).resumed + WokenIn(s, s.lock, c) + s.Cond(c).list
  {
    RunKeepsInv(steps);
    assert OrderOk(After(steps), c);
  }

  /** Waiting, notifying and resuming all happen only while owning the lock. */
  lemma {:induction false} OnlyTheOwnerActs(steps: seq<Step>, step: Step)
    requires Enabled(After(steps), step) && !step.Acquire?
    ensures ChecksPass(After(steps), step)
    ensures After(steps).lock != [] && After(steps).lock[0] == step.i
  {
    RunKeepsInv(steps);
    ChecksHold(After(steps), step);
  }

  /** What a step does to the lock. */
  function LockEvent(s: State, step: Step): FifoLock.Event {
    if !Enabled(s, step) then FifoLock.Stutter
    else
      match step
      case Acquire(i) => FifoLock.Join(i)
      case Enter(_) => FifoLock.Stutter
      case Wait(_, _) => FifoLock.Leave
      case Notify(_, c) => FifoLock.Join(s.Cond(c).list[0])
      case Leave(_) => FifoLock.Leave
  }

  /** Waiting and notifying use the lock only as the FIFO lock allows. */
  lemma {:induction false} UsesTheFifoLock(steps: seq<Step>, step: Step)
    ensures var s := After(steps);
            && FifoLock.Allowed(s.lock, LockEvent(s, step))
            && Next(s, step).lock == FifoLock.Apply(s.lock, LockEvent(s, step))
  {
    RunKeepsInv(steps);
    var s := After(steps);
    if Enabled(s, step) {
      ChecksHold(s, step);
      assert LockOk(s, step.i);
    }
  }
}
