/**
 `Pipe` with any number of readers, writers, closers and drain waiters. Operations queue
 on the FIFO lock, the front of the queue runs its synchronized block as one step, and a
 notified waiter joins the back of the queue to evaluate its condition again.
 */
module Pipe {
  type Id = nat

  datatype Op<T> = Writing(value: T) | Reading | Closing | Draining

  /** A place in the lock's queue; `woken` if it got there by a notification. */
  datatype Entry<T> = Entry(id: Id, op: Op<T>, woken: bool)

  datatype State<T> = State(
    values: seq<T>,
    closed: bool,
    readers: seq<Id>,            // parked on has_values_or_closed_
    drainers: seq<Id>,           // parked on closed_and_empty_
    queue: seq<Entry<T>>,
    received: seq<T>,            // the values read, in lock order across all readers
    ends: nat,                   // how often a reader saw the end of the stream
    drains: nat)                 // how often a drain waiter returned

  function Init<T>(): State<T> { State([], false, [], [], [], [], 0, 0) }

  function Wake<T>(ids: seq<Id>, op: Op<T>): seq<Entry<T>> {
    seq(|ids|, i requires 0 <= i < |ids| => Entry(ids[i], op, true))
  }

  function WriteBlock<T>(s: State<T>, v: T): State<T> {
    if s.closed then s
    else
      var n := if s.readers == [] then 0 else 1;
      s.(values := s.values + [v], readers := s.readers[n..], queue := s.queue + Wake(s.readers[..n], Reading))
  }

  function NotifyDrainers<T>(s: State<T>): State<T> {
    s.(drainers := [], queue := s.queue + Wake(s.drainers, Draining))
  }

  function ReadBlock<T>(s: State<T>, id: Id): State<T> {
    if s.values == [] && !s.closed then s.(readers := s.readers + [id])
    else if s.values != [] then
      var t := s.(values := s.values[1..], received := s.received + [s.values[0]]);
      if t.closed && t.values == [] then NotifyDrainers(t) else t
    else s.(ends := s.ends + 1)
  }

  function CloseBlock<T>(s: State<T>): State<T> {
    var t := s.(closed := true, readers := [], queue := s.queue + Wake(s.readers, Reading));
    if t.values == [] then NotifyDrainers(t) else t
  }

  function DrainBlock<T>(s: State<T>, id: Id): State<T> {
    if s.values != [] || !s.closed then s.(drainers := s.drainers + [id])
    else s.(drains := s.drains + 1)
  }

  /** The synchronized blocks as they update the pipe in place, with the lock held. */
  class SynchronizedPipe<T> {
    var values: seq<T>
    var closed: bool
    var readers: seq<Id>
    var drainers: seq<Id>
    var queue: seq<Entry<T>>
    var received: seq<T>
    var ends: nat
    var drains: nat

    function View(): State<T>
      reads this
    {
      State(values, closed, readers, drainers, queue, received, ends, drains)
    }

    constructor ()
      ensures View() == Init()
    {
      values, closed, readers, drainers, queue := [], false, [], [], [];
      received, ends, drains := [], 0, 0;
    }

    method NotifyAllReaders()
      modifies this`readers, this`queue
      ensures readers == [] && queue == old(queue) + Wake(old(readers), Reading)
    {
      ghost var k := 0;
      while readers != []
        invariant 0 <= k <= |old(readers)| && readers == old(readers)[k..]
        invariant queue == old(queue) + Wake(old(readers), Reading)[..k]
        decreases |readers|
      {
        queue := queue + [Entry(readers[0], Reading, true)];
        readers := readers[1..];
        k := k + 1;
      }
    }

    method NotifyAllDrainers()
      modifies this`drainers, this`queue
      ensures View() == NotifyDrainers(old(View()))
    {
      ghost var k := 0;
      while drainers != []
        invariant 0 <= k <= |old(drainers)| && drainers == old(drainers)[k..]
        invariant queue == old(queue) + Wake(old(drainers), Draining)[..k]
        decreases |drainers|
      {
        queue := queue + [Entry(drainers[0], Draining, true)];
        drainers := drainers[1..];
        k := k + 1;
      }
    }

    method Write(v: T)
      modifies this
      ensures View() == WriteBlock(old(View()), v)
    {
      if !closed {
        values := values + [v];
        if readers != [] {
          queue := queue + [Entry(readers[0], Reading, true)];
          assert Wake(readers[..1], Op<T>.Reading) == [Entry(readers[0], Reading, true)];
          readers := readers[1..];
        }
      }
    }

    method Read(id: Id)
      modifies this
      ensures View() == ReadBlock(old(View()), id)
    {
      if values == [] && !closed {
        readers := readers + [id];
      } else if values != [] {
        received := received + [values[0]];
        values := values[1..];
        if closed && values == [] {
          NotifyAllDrainers();
        }
      } else {
        ends := ends + 1;
      }
    }

    method Close()
      modifies this
      ensures View() == CloseBlock(old(View()))
    {
      closed := true;
      NotifyAllReaders();
      if values == [] {
        NotifyAllDrainers();
      }
    }

    method WaitForClosedAndEmpty(id: Id)
      modifies this
      ensures View() == DrainBlock(old(View()), id)
    {
      if values != [] || !closed {
        drainers := drainers + [id];
      } else {
        drains := drains + 1;
      }
    }
  }

  // ------------------------------------------------------------ the machine

  datatype Step<T> = Arrive(id: Id, op: Op<T>) | Run

  function RunFront<T>(s: State<T>): State<T>
    requires s.queue != []
  {
    var e, t := s.queue[0], s.(queue := s.queue[1..]);
    match e.op
    case Writing(v) => WriteBlock(t, v)
    case Reading => ReadBlock(t, e.id)
    case Closing => CloseBlock(t)
    case Draining => DrainBlock(t, e.id)
  }

  /** In the middle of an operation. */
  predicate Busy<T>(s: State<T>, id: Id) {
    id in s.readers || id in s.drainers || exists k :: 0 <= k < |s.queue| && s.queue[k].id == id
  }

  /** A continuation starts an operation only when it is not in the middle of another. */
  function Next<T>(s: State<T>, step: Step<T>): State<T> {
    match step
    case Arrive(id, op) => if Busy(s, id) then s else s.(queue := s.queue + [Entry(id, op, false)])
    case Run => if s.queue == [] then s else RunFront(s)
  }

  /** The notified readers that have not run yet. */
  function WokenReaders<T>(q: seq<Entry<T>>): nat {
    if q == [] then 0 else (if q[0].op.Reading? && q[0].woken then 1 else 0) + WokenReaders(q[1..])
  }

  lemma {:induction false} WokenAppend<T>(q: seq<Entry<T>>, r: seq<Entry<T>>)
    ensures WokenReaders(q + r) == WokenReaders(q) + WokenReaders(r)
  {
    if q == [] {
      assert q + r == r;
    } else {
      assert (q + r)[1..] == q[1..] + r;
      WokenAppend(q[1..], r);
    }
  }

  /** Who may be parked. */
  predicate WakeupsOk<T>(s: State<T>) {
    && (s.readers != [] ==> |s.values| <= WokenReaders(s.queue))
    && (s.closed ==> s.readers == [])
    && (s.closed && s.values == [] ==> s.drainers == [])
    && (s.ends > 0 || s.drains > 0 ==> s.closed && s.values == [])
  }

  lemma {:induction false} RunKeepsWakeups<T>(s: State<T>)
    requires WakeupsOk(s) && s.queue != []
    ensures WakeupsOk(RunFront(s))
  {
    var e, rest := s.queue[0], s.queue[1..];
    if e.op.Writing? && !s.closed && s.readers != [] {
      var woken := Wake(s.readers[..1], Op<T>.Reading);
      assert woken[1..] == [];
      WokenAppend(rest, woken);
    }
  }

  function After<T>(steps: seq<Step<T>>): State<T> {
    if steps == [] then Init() else Next(After(steps[..|steps| - 1]), steps[|steps| - 1])
  }

  /** The operations that have held the lock, in order. */
  function Ran<T>(steps: seq<Step<T>>): seq<Op<T>> {
    if steps == [] then []
    else
      var before, last := steps[..|steps| - 1], steps[|steps| - 1];
      var s := After(before);
      Ran(before) + if last.Run? && s.queue != [] then [s.queue[0].op] else []
  }

  predicate Closes<T>(ops: seq<Op<T>>) {
    exists i :: 0 <= i < |ops| && ops[i].Closing?
  }

  /** The values written before the first close. */
  function WrittenBeforeClose<T>(ops: seq<Op<T>>): seq<T> {
    if ops == [] || ops[0].Closing? then []
    else (if ops[0].Writing? then [ops[0].value] else []) + WrittenBeforeClose(ops[1..])
  }

  lemma {:induction false} ClosesSnoc<T>(ops: seq<Op<T>>, op: Op<T>)
    ensures Closes(ops + [op]) <==> Closes(ops) || op.Closing?
  {
    var more := ops + [op];
    assert more[|ops|] == op && forall i :: 0 <= i < |ops| ==> more[i] == ops[i];
  }

  lemma {:induction false} ClosesFirst<T>(ops: seq<Op<T>>)
    requires ops != []
    ensures Closes(ops) <==> ops[0].Closing? || Closes(ops[1..])
  {
    var rest := ops[1..];
    assert forall i :: 0 <= i < |rest| ==> rest[i] == ops[i + 1];
    if i :| 0 <= i < |ops| && ops[i].Closing? && i > 0 {
      assert rest[i - 1].Closing?;
    }
  }

  lemma {:induction false} WrittenSnoc<T>(ops: seq<Op<T>>, op: Op<T>)
    ensures WrittenBeforeClose(ops + [op]) ==
            WrittenBeforeClose(ops) + if !Closes(ops) && op.Writing? then [op.value] else []
    decreases |ops|
  {
    var more := ops + [op];
    if ops == [] {
      assert more[1..] == [];
    } else {
      assert more[1..] == ops[1..] + [op];
      WrittenSnoc(ops[1..], op);
      ClosesFirst(ops);
    }
  }

  lemma {:induction false} OneMoreOp<T>(ops: seq<Op<T>>, op: Op<T>)
    ensures Closes(ops + [op]) <==> Closes(ops) || op.Closing?
    ensures WrittenBeforeClose(ops + [op]) ==
            WrittenBeforeClose(ops) + if !Closes(ops) && op.Writing? then [op.value] else []
  {
    ClosesSnoc(ops, op);
    WrittenSnoc(ops, op);
  }

  ghost predicate Inv<T>(s: State<T>, ran: seq<Op<T>>) {
    && WakeupsOk(s)
    && (s.closed <==> Closes(ran))
    && WrittenBeforeClose(ran) == s.received + s.values
  }

  /** What one block does to the contents: a write before the close appends, nothing else changes them. */
  lemma {:induction false} RunKeepsContents<T>(s: State<T>)
    requires s.queue != []
    ensures var t, op := RunFront(s), s.queue[0].op;
            && t.closed == (s.closed || op.Closing?)
            && t.received + t.values ==
               s.received + s.values + if op.Writing? && !s.closed then [op.value] else []
  {
  }

  lemma {:induction false} RunStep<T>(s: State<T>, ran: seq<Op<T>>)
    requires Inv(s, ran) && s.queue != []
    ensures Inv(RunFront(s), ran + [s.queue[0].op])
  {
    RunKeepsWakeups(s);
    RunKeepsContents(s);
    OneMoreOp(ran, s.queue[0].op);
  }

  lemma {:induction false} ArriveStep<T>(s: State<T>, ran: seq<Op<T>>, id: Id, op: Op<T>)
    requires Inv(s, ran)
    ensures Inv(Next(s, Arrive(id, op)), ran)
  {
    WokenAppend(s.queue, [Entry(id, op, false)]);
  }

  lemma {:induction false} RunKeepsInv<T>(steps: seq<Step<T>>)
    ensures Inv(After(steps), Ran(steps))
    decreases |steps|
  {
    if steps != [] {
      var before, last := steps[..|steps| - 1], steps[|steps| - 1];
      var s, ran := After(before), Ran(before);
      RunKeepsInv(before);
      if last.Arrive? {
        ArriveStep(s, ran, last.id, last.op);
        assert Ran(steps) == ran;
      } else if s.queue != [] {
        RunStep(s, ran);
      } else {
        assert Ran(steps) == ran;
      }
    }
  }

  /**
   No lost wakeup, for any number of readers and writers: while a reader is parked, each
   stored value has a notified reader on its way. Once closed no reader is parked, and
   once closed and empty no drain waiter is.
   */
  lemma {:induction false} NoLostWakeup<T>(steps: seq<Step<T>>)
    ensures var s := After(steps);
            && (s.readers != [] ==> |s.values| <= WokenReaders(s.queue))
            && (s.closed ==> s.readers == [])
            && (s.closed && s.values == [] ==> s.drainers == [])
  {
    RunKeepsInv(steps);
  }

  /**
   Conservation: what was read, in lock order across all readers, followed by what is
   stored is exactly what was written before the first close. The end of the stream is
   seen, and a drain waiter returns, only after a close and when everything has been read.
   */
  lemma {:induction false} ConservesValues<T>(steps: seq<Step<T>>)
    ensures var s, ran := After(steps), Ran(steps);
            && s.received + s.values == WrittenBeforeClose(ran)
            && (s.closed <==> Closes(ran))
            && (s.ends > 0 || s.drains > 0 ==> Closes(ran) && s.received == WrittenBeforeClose(ran))
  {
    RunKeepsInv(steps);
  }

  // ------------------------------------------------------------ every operation is answered once

  /** The two operations that wait for an answer. */
  datatype Waits = Reads | Drains

  predicate Is<T>(op: Op<T>, w: Waits) { if w.Reads? then op.Reading? else op.Draining? }

  function Queued<T>(q: seq<Entry<T>>, w: Waits): nat {
    if q == [] then 0 else (if Is(q[0].op, w) then 1 else 0) + Queued(q[1..], w)
  }

  /** How many operations of the kind have been started. */
  function Started<T>(steps: seq<Step<T>>, w: Waits): nat {
    if steps == [] then 0
    else
      var before, last := steps[..|steps| - 1], steps[|steps| - 1];
      Started(before, w) + if last.Arrive? && Is(last.op, w) && !Busy(After(before), last.id) then 1 else 0
  }

  /** How many have been answered, are parked, or are queued on the lock. */
  function Answered<T>(s: State<T>, w: Waits): nat { if w.Reads? then |s.received| + s.ends else s.drains }

  function Parked<T>(s: State<T>, w: Waits): nat { if w.Reads? then |s.readers| else |s.drainers| }

  function Known<T>(s: State<T>, w: Waits): nat { Answered(s, w) + Parked(s, w) + Queued(s.queue, w) }

  lemma {:induction false} QueuedAppend<T>(q: seq<Entry<T>>, r: seq<Entry<T>>, w: Waits)
    ensures Queued(q + r, w) == Queued(q, w) + Queued(r, w)
  {
    if q == [] {
      assert q + r == r;
    } else {
      assert (q + r)[1..] == q[1..] + r;
      QueuedAppend(q[1..], r, w);
    }
  }

  lemma {:induction false} QueuedWake<T>(q: seq<Entry<T>>, ids: seq<Id>, op: Op<T>, w: Waits)
    ensures Queued(q + Wake(ids, op), w) == Queued(q, w) + if Is(op, w) then |ids| else 0
    decreases |ids|
  {
    QueuedAppend(q, Wake(ids, op), w);
    if ids != [] {
      assert Wake(ids, op)[1..] == Wake(ids[1..], op);
      QueuedWake([], ids[1..], op, w);
      assert [] + Wake(ids[1..], op) == Wake(ids[1..], op);
    }
  }

  lemma {:induction false} WriteKnown<T>(s: State<T>, v: T, w: Waits)
    ensures Known(WriteBlock(s, v), w) == Known(s, w)
  {
    if !s.closed {
      QueuedWake(s.queue, s.readers[..if s.readers == [] then 0 else 1], Op<T>.Reading, w);
    }
  }

  lemma {:induction false} NotifyKnown<T>(s: State<T>, w: Waits)
    ensures Known(NotifyDrainers(s), w) == Known(s, w)
  {
    QueuedWake(s.queue, s.drainers, Op<T>.Draining, w);
  }

  lemma {:induction false} ReadKnown<T>(s: State<T>, id: Id, w: Waits)
    ensures Known(ReadBlock(s, id), w) == Known(s, w) + if w.Reads? then 1 else 0
  {
    if s.values != [] {
      NotifyKnown(s.(values := s.values[1..], received := s.received + [s.values[0]]), w);
    }
  }

  lemma {:induction false} CloseKnown<T>(s: State<T>, w: Waits)
    ensures Known(CloseBlock(s), w) == Known(s, w)
  {
    QueuedWake(s.queue, s.readers, Op<T>.Reading, w);
    NotifyKnown(s.(closed := true, readers := [], queue := s.queue + Wake(s.readers, Reading)), w);
  }

  lemma {:induction false} RunKnown<T>(s: State<T>, w: Waits)
    requires s.queue != []
    ensures Known(RunFront(s), w) == Known(s, w)
  {
    var e, t := s.queue[0], s.(queue := s.queue[1..]);
    assert Known(s, w) == Known(t, w) + if Is(e.op, w) then 1 else 0;
    match e.op
    case Writing(v) => WriteKnown(t, v, w);
    case Reading => ReadKnown(t, e.id, w);
    case Closing => CloseKnown(t, w);
    case Draining =>
  }

  /**
   Nobody is answered twice and nobody is lost: in every reachable state the reads that were
   started are the values read, the ends of stream seen, the parked readers and the queued
   reads, and likewise for drain waiters.
   */
  lemma {:induction false} EveryOperationIsKnown<T>(steps: seq<Step<T>>, w: Waits)
    ensures Started(steps, w) == Known(After(steps), w)
    decreases |steps|
  {
    if steps != [] {
      var before, last := steps[..|steps| - 1], steps[|steps| - 1];
      EveryOperationIsKnown(before, w);
      var s := After(before);
      if last.Arrive? {
        QueuedAppend(s.queue, [Entry(last.id, last.op, false)], w);
      } else if s.queue != [] {
        RunKnown(s, w);
      }
    }
  }

  /** A read that runs on a closed and empty pipe is answered with the end, and a drain with its return, at once. */
  lemma {:induction false} ClosedAndEmptyAnswers<T>(steps: seq<Step<T>>)
    requires var s := After(steps); s.closed && s.values == [] && s.queue != []
    ensures var s, t := After(steps), RunFront(After(steps));
            && t.ends == s.ends + (if s.queue[0].op.Reading? then 1 else 0)
            && t.drains == s.drains + (if s.queue[0].op.Draining? then 1 else 0)
            && t.readers == [] && t.drainers == []
  {
    RunKeepsInv(steps);
  }

  // ------------------------------------------------------------ settling

  /** Operations that can still store a value or close the pipe. */
  function Mutators<T>(q: seq<Entry<T>>): nat {
    if q == [] then 0 else (if q[0].op.Writing? || q[0].op.Closing? then 1 else 0) + Mutators(q[1..])
  }

  lemma {:induction false} WakingAddsNoMutator<T>(q: seq<Entry<T>>, ids: seq<Id>, op: Op<T>)
    requires op.Reading? || op.Draining?
    ensures Mutators(q + Wake(ids, op)) == Mutators(q)
    decreases |q| + |ids|
  {
    if q != [] {
      assert (q + Wake(ids, op))[1..] == q[1..] + Wake(ids, op);
      WakingAddsNoMutator(q[1..], ids, op);
    } else if ids != [] {
      assert (q + Wake(ids, op))[1..] == [] + Wake(ids[1..], op);
      WakingAddsNoMutator([], ids[1..], op);
    }
  }

  lemma {:induction false} RunDecreases<T>(s: State<T>)
    requires s.queue != []
    ensures var t := RunFront(s);
            || Mutators(t.queue) < Mutators(s.queue)
            || (Mutators(t.queue) == Mutators(s.queue) && |t.values| < |s.values|)
            || (Mutators(t.queue) == Mutators(s.queue) && |t.values| == |s.values| && |t.queue| < |s.queue|)
  {
    var rest := s.queue[1..];
    WakingAddsNoMutator(rest, s.readers, Op<T>.Reading);
    WakingAddsNoMutator(rest + Wake(s.readers, Op<T>.Reading), s.drainers, Op<T>.Draining);
    WakingAddsNoMutator(rest, s.readers[..if s.readers == [] then 0 else 1], Op<T>.Reading);
    WakingAddsNoMutator(rest, s.drainers, Op<T>.Draining);
  }

  /** Every queued operation runs, and every one it wakes, until the lock is free. */
  function Settle<T>(s: State<T>): State<T>
    decreases Mutators(s.queue), |s.values|, |s.queue|
  {
    if s.queue == [] then s
    else
      RunDecreases(s);
      Settle(RunFront(s))
  }

  lemma {:induction false} SettleKeeps<T>(s: State<T>)
    requires WakeupsOk(s)
    ensures WakeupsOk(Settle(s)) && Settle(s).queue == []
    decreases Mutators(s.queue), |s.values|, |s.queue|
  {
    if s.queue != [] {
      RunDecreases(s);
      RunKeepsWakeups(s);
      SettleKeeps(RunFront(s));
    }
  }

  /**
   From any reachable state, once the queued operations have run (which they do in
   finitely many steps), a reader is left parked only on an empty open pipe and a drain
   waiter only while the pipe is open or holds values that nobody reads.
   */
  lemma {:induction false} SettlesWithNobodyForgotten<T>(steps: seq<Step<T>>)
    ensures var s := Settle(After(steps));
            && s.queue == []
            && (s.readers != [] ==> s.values == [] && !s.closed)
            && (s.drainers != [] ==> s.values != [] || !s.closed)
  {
    RunKeepsInv(steps);
    SettleKeeps(After(steps));
  }
}
