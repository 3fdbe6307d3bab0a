/**
 The pipe is built from a lock and two condition variables. Every run of the pipe's
 machine is a run of the monitor: its queue is the lock's queue, its parked readers and
 drain waiters are the lists of the two variables, and each synchronized block is a
 sequence of monitor steps taken by the owner of the lock.
 */
module PipeOnMonitor {
  import opened Sequences
  import P = Pipe
  import M = Monitor

  type Id = nat

  const HAS_VALUES_OR_CLOSED: M.Variable := 0
  const CLOSED_AND_EMPTY: M.Variable := 1

  function Ids<T>(q: seq<P.Entry<T>>): seq<Id> {
    seq(|q|, i requires 0 <= i < |q| => q[i].id)
  }

  // ------------------------------------------------------------ runs of the monitor

  function Run(m: M.State, steps: seq<M.Step>): M.State
    decreases |steps|
  {
    if steps == [] then m else Run(M.Next(m, steps[0]), steps[1..])
  }

  /** Every step can be taken and passes its CHECKs. */
  predicate Runs(m: M.State, steps: seq<M.Step>)
    decreases |steps|
  {
    steps == [] ||
    (M.Enabled(m, steps[0]) && M.ChecksPass(m, steps[0]) && Runs(M.Next(m, steps[0]), steps[1..]))
  }

  lemma {:induction false} RunKeepsInv(m: M.State, steps: seq<M.Step>)
    requires M.Inv(m)
    ensures M.Inv(Run(m, steps))
    decreases |steps|
  {
    if steps != [] {
      M.StepKeepsInv(m, steps[0]);
      RunKeepsInv(M.Next(m, steps[0]), steps[1..]);
    }
  }

  lemma {:induction false} RunConcat(m: M.State, a: seq<M.Step>, b: seq<M.Step>)
    ensures Run(m, a + b) == Run(Run(m, a), b)
    ensures Runs(m, a + b) <==> Runs(m, a) && Runs(Run(m, a), b)
    decreases |a|
  {
    if a == [] {
      assert a + b == b;
    } else {
      assert (a + b)[1..] == a[1..] + b;
      RunConcat(M.Next(m, a[0]), a[1..], b);
    }
  }

  lemma {:induction false} RunOne(m: M.State, step: M.Step)
    requires M.Inv(m) && M.Enabled(m, step)
    ensures Runs(m, [step]) && Run(m, [step]) == M.Next(m, step) && M.Inv(M.Next(m, step))
  {
    M.ChecksHold(m, step);
    M.StepKeepsInv(m, step);
    assert [step][1..] == [];
    assert Runs(M.Next(m, step), []);
  }

  lemma {:induction false} RunIsAfter(steps: seq<M.Step>)
    ensures Run(M.INIT, steps) == M.After(steps)
    decreases |steps|
  {
    if steps != [] {
      var before, last := steps[..|steps| - 1], steps[|steps| - 1];
      assert steps == before + [last] && [last][1..] == [];
      RunConcat(M.INIT, before, [last]);
      RunIsAfter(before);
    }
  }

  // ------------------------------------------------------------ the correspondence

  /** An entry is in the lock's queue because of a notification exactly if its continuation was woken. */
  predicate EntryOk<T>(m: M.State, e: P.Entry<T>) { e.woken <==> m.Phase(e.id).Woken? }

  ghost predicate Lists(m: M.State, readers: seq<Id>, drainers: seq<Id>) {
    && m.Cond(HAS_VALUES_OR_CLOSED).list == readers
    && m.Cond(CLOSED_AND_EMPTY).list == drainers
    && (forall c: M.Variable :: c > 1 ==> m.Cond(c).list == [])
  }

  ghost predicate Entries<T>(m: M.State, q: seq<P.Entry<T>>) {
    forall k :: 0 <= k < |q| ==> EntryOk(m, q[k])
  }

  /** Between synchronized blocks. */
  ghost predicate Matches<T>(m: M.State, q: seq<P.Entry<T>>, readers: seq<Id>, drainers: seq<Id>) {
    && m.lock == Ids(q) && Lists(m, readers, drainers) && Entries(m, q)
    && (forall i: Id :: !m.Phase(i).Inside?)
  }

  /** While `id` runs its block; its own entry has left the pipe's queue. */
  ghost predicate Running<T>(m: M.State, id: Id, q: seq<P.Entry<T>>, readers: seq<Id>, drainers: seq<Id>) {
    && m.lock == [id] + Ids(q) && Lists(m, readers, drainers) && Entries(m, q)
    && (forall i: Id :: m.Phase(i).Inside? <==> i == id)
  }

  /** Entries of others do not change when one continuation moves. */
  lemma {:induction false} EntriesSame<T>(m: M.State, m': M.State, q: seq<P.Entry<T>>)
    requires Entries(m, q)
    requires forall i :: i in Ids(q) ==> m'.Phase(i) == m.Phase(i)
    ensures Entries(m', q)
  {
    forall k | 0 <= k < |q| ensures EntryOk(m', q[k]) {
      assert EntryOk(m, q[k]) && Ids(q)[k] == q[k].id;
    }
  }

  lemma {:induction false} HeadNotInTail(id: Id, tail: seq<Id>)
    requires Distinct([id] + tail)
    ensures id !in tail
  {
    var all := [id] + tail;
    forall k | 0 <= k < |tail| ensures tail[k] != id {
      assert all[0] == id && all[k + 1] == tail[k];
    }
  }

  /** A step leaves alone the variables it does not name and the phases of all but one continuation. */
  lemma {:induction false} StepFrame(m: M.State, step: M.Step, j: Id)
    requires M.Enabled(m, step) && M.ChecksPass(m, step)
    requires j == if step.Notify? then m.Cond(step.cv).list[0] else step.i
    ensures var m' := M.Next(m, step);
            && (forall i: Id :: i != j ==> m'.Phase(i) == m.Phase(i))
            && (forall c: M.Variable ::
                  !(step.Wait? || step.Notify?) || c != step.cv ==> m'.Cond(c).list == m.Cond(c).list)
  {
  }

  lemma {:induction false} ArriveIsAcquire<T>(m: M.State, s: P.State<T>, id: Id, op: P.Op<T>)
    requires M.Inv(m) && Matches(m, s.queue, s.readers, s.drainers) && !P.Busy(s, id)
    ensures M.Enabled(m, M.Acquire(id))
    ensures Matches(M.Next(m, M.Acquire(id)), s.queue + [P.Entry(id, op, false)], s.readers, s.drainers)
  {
    var q' := s.queue + [P.Entry(id, op, false)];
    assert id !in Ids(s.queue);
    assert M.LockOk(m, id);
    assert m.Phase(id).Waiting? ==> M.ListOk(m, m.Phase(id).cv, id);
    var m' := M.Next(m, M.Acquire(id));
    StepFrame(m, M.Acquire(id), id);
    assert Ids(q') == Ids(s.queue) + [id];
    EntriesSame(m, m', s.queue);
    forall k | 0 <= k < |q'| ensures EntryOk(m', q'[k]) {
      assert k < |s.queue| ==> q'[k] == s.queue[k];
    }
  }

  lemma {:induction false} Enters<T>(m: M.State, q: seq<P.Entry<T>>, readers: seq<Id>, drainers: seq<Id>)
    requires M.Inv(m) && Matches(m, q, readers, drainers) && q != []
    ensures M.Enabled(m, M.Enter(q[0].id))
    ensures Running(M.Next(m, M.Enter(q[0].id)), q[0].id, q[1..], readers, drainers)
  {
    var id, m' := q[0].id, M.Next(m, M.Enter(q[0].id));
    assert Ids(q) == [id] + Ids(q[1..]);
    assert m.lock[0] == id;
    assert M.LockOk(m, id);
    HeadNotInTail(id, Ids(q[1..]));
    StepFrame(m, M.Enter(id), id);
    assert forall k :: 0 <= k < |q[1..]| ==> q[1..][k] == q[k + 1];
    EntriesSame(m, m', q[1..]);
  }

  lemma {:induction false} Leaves<T>(m: M.State, id: Id, q: seq<P.Entry<T>>, readers: seq<Id>, drainers: seq<Id>)
    requires M.Inv(m) && Running(m, id, q, readers, drainers)
    ensures M.Enabled(m, M.Leave(id))
    ensures Matches(M.Next(m, M.Leave(id)), q, readers, drainers)
  {
    assert m.Phase(id).Inside? && m.lock[1..] == Ids(q);
    HeadNotInTail(id, Ids(q));
    StepFrame(m, M.Leave(id), id);
    EntriesSame(m, M.Next(m, M.Leave(id)), q);
  }

  /** The owner waits on one of the two variables. */
  lemma {:induction false} Waits<T>(m: M.State, id: Id, q: seq<P.Entry<T>>, readers: seq<Id>, drainers: seq<Id>,
                                    c: M.Variable)
    requires M.Inv(m) && Running(m, id, q, readers, drainers) && c <= 1
    ensures M.Enabled(m, M.Wait(id, c))
    ensures Matches(M.Next(m, M.Wait(id, c)), q,
                    if c == HAS_VALUES_OR_CLOSED then readers + [id] else readers,
                    if c == CLOSED_AND_EMPTY then drainers + [id] else drainers)
  {
    assert m.Phase(id).Inside? && m.lock[1..] == Ids(q);
    HeadNotInTail(id, Ids(q));
    M.ChecksHold(m, M.Wait(id, c));
    StepFrame(m, M.Wait(id, c), id);
    EntriesSame(m, M.Next(m, M.Wait(id, c)), q);
  }

  /** The owner notifies the first waiter of one of the two variables. */
  lemma {:induction false} Notifies<T>(m: M.State, id: Id, q: seq<P.Entry<T>>, readers: seq<Id>, drainers: seq<Id>,
                                       c: M.Variable, op: P.Op<T>)
    requires M.Inv(m) && Running(m, id, q, readers, drainers)
    requires c <= 1 && m.Cond(c).list != []
    ensures M.Enabled(m, M.Notify(id, c))
    ensures Running(M.Next(m, M.Notify(id, c)), id, q + P.Wake(m.Cond(c).list[..1], op),
                    if c == HAS_VALUES_OR_CLOSED then readers[1..] else readers,
                    if c == CLOSED_AND_EMPTY then drainers[1..] else drainers)
  {
    var j, m' := m.Cond(c).list[0], M.Next(m, M.Notify(id, c));
    var q' := q + P.Wake(m.Cond(c).list[..1], op);
    assert m.Phase(id).Inside?;
    M.ChecksHold(m, M.Notify(id, c));
    StepFrame(m, M.Notify(id, c), j);
    assert j !in Ids(q) by {
      assert forall i :: i in Ids(q) ==> i in m.lock;
    }
    EntriesSame(m, m', q);
    assert q' == q + [P.Entry(j, op, true)] && Ids(q') == Ids(q) + [j];
    forall k | 0 <= k < |q'| ensures EntryOk(m', q'[k]) {
      assert k < |q| ==> q'[k] == q[k];
    }
  }

  lemma {:induction false} WakeFirst<T>(q: seq<P.Entry<T>>, list: seq<Id>, op: P.Op<T>)
    requires list != []
    ensures q + P.Wake(list[..1], op) + P.Wake(list[1..], op) == q + P.Wake(list, op)
  {
  }

  /** `NotifyAll`: the waiters join the lock's queue in waiting order. */
  lemma {:induction false} NotifiesAll<T>(m: M.State, id: Id, q: seq<P.Entry<T>>, readers: seq<Id>, drainers: seq<Id>,
                                          c: M.Variable, op: P.Op<T>) returns (steps: seq<M.Step>)
    requires M.Inv(m) && Running(m, id, q, readers, drainers) && c <= 1
    ensures Runs(m, steps) && M.Inv(Run(m, steps))
    ensures Running(Run(m, steps), id, q + P.Wake(m.Cond(c).list, op),
                    if c == HAS_VALUES_OR_CLOSED then [] else readers,
                    if c == CLOSED_AND_EMPTY then [] else drainers)
    decreases |m.Cond(c).list|
  {
    var list := m.Cond(c).list;
    if list == [] {
      steps := [];
      assert q + P.Wake(list, op) == q;
    } else {
      Notifies(m, id, q, readers, drainers, c, op);
      var step := M.Notify(id, c);
      RunOne(m, step);
      var m', q' := M.Next(m, step), q + P.Wake(list[..1], op);
      var readers' := if c == HAS_VALUES_OR_CLOSED then readers[1..] else readers;
      var drainers' := if c == CLOSED_AND_EMPTY then drainers[1..] else drainers;
      assert m'.Cond(c).list == list[1..];
      WakeFirst(q, list, op);
      var rest := NotifiesAll(m', id, q', readers', drainers', c, op);
      RunConcat(m, [step], rest);
      steps := [step] + rest;
    }
  }

  // ------------------------------------------------------------ the pipe's blocks

  lemma {:induction false} RunsThenLeaves<T>(m: M.State, steps: seq<M.Step>, id: Id, s: P.State<T>)
    returns (all: seq<M.Step>)
    requires Runs(m, steps) && M.Inv(Run(m, steps))
    requires Running(Run(m, steps), id, s.queue, s.readers, s.drainers)
    ensures Runs(m, all) && M.Inv(Run(m, all)) && Matches(Run(m, all), s.queue, s.readers, s.drainers)
  {
    var m' := Run(m, steps);
    Leaves(m', id, s.queue, s.readers, s.drainers);
    RunOne(m', M.Leave(id));
    RunConcat(m, steps, [M.Leave(id)]);
    all := steps + [M.Leave(id)];
  }

  /** Parking on a variable is its Wait. */
  lemma {:induction false} ParkIsWait<T>(m: M.State, id: Id, t: P.State<T>, u: P.State<T>, c: M.Variable)
    returns (steps: seq<M.Step>)
    requires M.Inv(m) && Running(m, id, t.queue, t.readers, t.drainers) && c <= 1
    requires u.queue == t.queue
    requires u.readers == (if c == HAS_VALUES_OR_CLOSED then t.readers + [id] else t.readers)
    requires u.drainers == (if c == CLOSED_AND_EMPTY then t.drainers + [id] else t.drainers)
    ensures Runs(m, steps) && M.Inv(Run(m, steps)) && Matches(Run(m, steps), u.queue, u.readers, u.drainers)
  {
    Waits(m, id, t.queue, t.readers, t.drainers, c);
    RunOne(m, M.Wait(id, c));
    steps := [M.Wait(id, c)];
  }

  lemma {:induction false} WriteRuns<T>(m: M.State, id: Id, t: P.State<T>, v: T) returns (steps: seq<M.Step>)
    requires M.Inv(m) && Running(m, id, t.queue, t.readers, t.drainers)
    ensures var u := P.WriteBlock(t, v);
            Runs(m, steps) && M.Inv(Run(m, steps)) && Matches(Run(m, steps), u.queue, u.readers, u.drainers)
  {
    var u := P.WriteBlock(t, v);
    steps := [];
    if !t.closed && t.readers != [] {
      Notifies(m, id, t.queue, t.readers, t.drainers, HAS_VALUES_OR_CLOSED, P.Reading);
      RunOne(m, M.Notify(id, HAS_VALUES_OR_CLOSED));
      steps := [M.Notify(id, HAS_VALUES_OR_CLOSED)];
    } else {
      assert u.queue == t.queue;
    }
    steps := RunsThenLeaves(m, steps, id, u);
  }

  lemma {:induction false} ReadRuns<T>(m: M.State, id: Id, t: P.State<T>) returns (steps: seq<M.Step>)
    requires M.Inv(m) && Running(m, id, t.queue, t.readers, t.drainers)
    ensures var u := P.ReadBlock(t, id);
            Runs(m, steps) && M.Inv(Run(m, steps)) && Matches(Run(m, steps), u.queue, u.readers, u.drainers)
  {
    var u := P.ReadBlock(t, id);
    if t.values == [] && !t.closed {
      steps := ParkIsWait(m, id, t, u, HAS_VALUES_OR_CLOSED);
    } else {
      steps := [];
      if t.values != [] && t.closed && t.values[1..] == [] {
        steps := NotifiesAll(m, id, t.queue, t.readers, t.drainers, CLOSED_AND_EMPTY, P.Draining);
      }
      steps := RunsThenLeaves(m, steps, id, u);
    }
  }

  lemma {:induction false} CloseRuns<T>(m: M.State, id: Id, t: P.State<T>) returns (steps: seq<M.Step>)
    requires M.Inv(m) && Running(m, id, t.queue, t.readers, t.drainers)
    ensures var u := P.CloseBlock(t);
            Runs(m, steps) && M.Inv(Run(m, steps)) && Matches(Run(m, steps), u.queue, u.readers, u.drainers)
  {
    steps := NotifiesAll(m, id, t.queue, t.readers, t.drainers, HAS_VALUES_OR_CLOSED, P.Reading);
    var q := t.queue + P.Wake(t.readers, P.Op<T>.Reading);
    if t.values == [] {
      var more := NotifiesAll(Run(m, steps), id, q, [], t.drainers, CLOSED_AND_EMPTY, P.Draining);
      RunConcat(m, steps, more);
      steps := steps + more;
    }
    steps := RunsThenLeaves(m, steps, id, P.CloseBlock(t));
  }

  lemma {:induction false} DrainRuns<T>(m: M.State, id: Id, t: P.State<T>) returns (steps: seq<M.Step>)
    requires M.Inv(m) && Running(m, id, t.queue, t.readers, t.drainers)
    ensures var u := P.DrainBlock(t, id);
            Runs(m, steps) && M.Inv(Run(m, steps)) && Matches(Run(m, steps), u.queue, u.readers, u.drainers)
  {
    var u := P.DrainBlock(t, id);
    if t.values != [] || !t.closed {
      steps := ParkIsWait(m, id, t, u, CLOSED_AND_EMPTY);
    } else {
      steps := RunsThenLeaves(m, [], id, u);
    }
  }

  lemma {:induction false} BlockRuns<T>(m: M.State, s: P.State<T>) returns (steps: seq<M.Step>)
    requires M.Inv(m) && Matches(m, s.queue, s.readers, s.drainers) && s.queue != []
    ensures var u := P.RunFront(s);
            Runs(m, steps) && M.Inv(Run(m, steps)) && Matches(Run(m, steps), u.queue, u.readers, u.drainers)
  {
    var e, t := s.queue[0], s.(queue := s.queue[1..]);
    Enters(m, s.queue, s.readers, s.drainers);
    RunOne(m, M.Enter(e.id));
    var m', rest := M.Next(m, M.Enter(e.id)), [];
    match e.op {
      case Writing(v) => rest := WriteRuns(m', e.id, t, v);
      case Reading => rest := ReadRuns(m', e.id, t);
      case Closing => rest := CloseRuns(m', e.id, t);
      case Draining => rest := DrainRuns(m', e.id, t);
    }
    RunConcat(m, [M.Enter(e.id)], rest);
    steps := [M.Enter(e.id)] + rest;
  }

  lemma {:induction false} StepRuns<T>(m: M.State, s: P.State<T>, step: P.Step<T>) returns (steps: seq<M.Step>)
    requires M.Inv(m) && Matches(m, s.queue, s.readers, s.drainers)
    ensures var u := P.Next(s, step);
            Runs(m, steps) && M.Inv(Run(m, steps)) && Matches(Run(m, steps), u.queue, u.readers, u.drainers)
  {
    steps := [];
    match step {
      case Arrive(id, op) =>
        if !P.Busy(s, id) {
          ArriveIsAcquire(m, s, id, op);
          RunOne(m, M.Acquire(id));
          steps := [M.Acquire(id)];
        }
      case Run =>
        if s.queue != [] {
          steps := BlockRuns(m, s);
        }
    }
  }

  // ------------------------------------------------------------ whole runs

  /** Every run of the pipe is a run of the monitor in which no CHECK fails. */
  lemma {:induction false} RefinesMonitor<T>(steps: seq<P.Step<T>>) returns (run: seq<M.Step>)
    ensures Runs(M.INIT, run) && M.Inv(M.After(run))
    ensures var s := P.After(steps); Matches(M.After(run), s.queue, s.readers, s.drainers)
    decreases |steps|
  {
    if steps == [] {
      run := [];
      M.RunKeepsInv([]);
      assert Ids<T>([]) == [];
    } else {
      var before, last := steps[..|steps| - 1], steps[|steps| - 1];
      var front := RefinesMonitor(before);
      RunIsAfter(front);
      var back := StepRuns(M.After(front), P.After(before), last);
      run := front + back;
      RunConcat(M.INIT, front, back);
      RunIsAfter(run);
    }
  }

  /** So in the pipe, too, every continuation is in at most one place, once. */
  lemma {:induction false} OnePlaceInPipe<T>(steps: seq<P.Step<T>>)
    ensures var s := P.After(steps);
            Distinct(Ids(s.queue) + s.readers + s.drainers)
  {
    var run := RefinesMonitor(steps);
    var m, s := M.After(run), P.After(steps);
    var r, d := s.readers, s.drainers;
    assert M.OrderOk(m, HAS_VALUES_OR_CLOSED) && M.OrderOk(m, CLOSED_AND_EMPTY);
    forall i: Id ensures !(i in m.lock && i in r) && !(i in m.lock && i in d) && !(i in r && i in d) {
      assert M.LockOk(m, i) && M.ListOk(m, HAS_VALUES_OR_CLOSED, i) && M.ListOk(m, CLOSED_AND_EMPTY, i);
    }
    ConcatDistinct(m.lock, r);
    ConcatDistinct(m.lock + r, d);
  }
}
