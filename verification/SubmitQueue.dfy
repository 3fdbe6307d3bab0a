/**
 `Submit` and its single consumer: `EventLoop::Check` and the worker loop of
 `StaticThreadPool`. Any number of submitters push with a weak compare-and-swap while
 the consumer takes the oldest node; every atomic operation is one step.
 */
module SubmitQueue {
  import opened Options
  import opened Chains
  import opened Sequences

  type Context = Node         // each context embeds its own waiter node
  type Callback = nat
  datatype Kind = EventLoop | PoolWorker
  datatype Job = Job(context: Context, callback: Callback)

  datatype Pc =
    | Sleeping                // outside Check, or blocked in semaphore.Wait()
    | Loading                 // about to load the head
    | Testing(w: Context)     // loaded w, about to look at w->next
    | Swapping(w: Context)    // w looked alone, about to swap it for null
    | Walking(w: Context)     // looking for the second oldest node
    | Cutting(w: Context)     // about to cut w->next
    | Taken(w: Context)       // w is out of the list, about to unblock its context
    | Unblocked(w: Context)   // about to move the callback out of w and call it
    | Running                 // inside the callback

  datatype State = State(
    head: Option<Context>,
    next: Links,
    blocked: set<Context>,
    callbacks: map<Context, Callback>,
    submitting: map<Context, bool>,   // inside Submit before the push; true once the head is loaded
    unsignalled: nat,                 // submitters between their push and their Signal or Interrupt
    semaphore: nat,                   // the pool worker's
    async: bool,                      // an asynchronous wakeup of the event loop is pending
    pc: Pc,
    pushed: seq<Job>,                 // in the order of the successful swaps
    ran: seq<Job>)
  {
    function Linked(c: Context): Links {
      match head
      case None => next - {c}
      case Some(h) => next[c := h]
    }
    /** The value the swap in Submit expects the head to have. */
    function Expected(c: Context): Option<Context> {
      if c in next then Some(next[c]) else None
    }
  }

  const INIT: State := State(None, map[], {}, map[], map[], 0, 0, false, Sleeping, [], [])

  datatype Step =
    | Submit(context: Context, callback: Callback)
    | Load(context: Context)
    | Push(context: Context, spurious: bool)
    | Signal                          // semaphore.Signal() or Interrupt()
    | Wake                            // past semaphore.Wait(), or the event loop gets to Check
    | Consume(spurious: bool)

  /**
   Nobody submits a context that a consumer is about to run: the source leaves this to its
   callers, and `EarlySubmitLosesJob` shows what happens otherwise.
   */
  predicate Enabled(kind: Kind, s: State, step: Step) {
    match step
    case Submit(c, _) => s.pc != Unblocked(c)
    case Load(c) => c in s.submitting && !s.submitting[c]
    case Push(c, _) => c in s.submitting && s.submitting[c]
    case Signal => s.unsignalled > 0
    case Wake => s.pc.Sleeping? && (kind.PoolWorker? ==> s.semaphore > 0)
    case Consume(_) => !s.pc.Sleeping?
  }

  /** The CHECKs a step makes and the pointers it follows. */
  predicate ChecksPass(s: State, step: Step) {
    match step
    case Submit(c, _) => c !in s.blocked && c !in s.next
    case Push(c, _) => c in s.callbacks
    case Consume(_) =>
      (match s.pc
       case Walking(w) => w in s.next
       case Cutting(w) => w in s.next
       case Taken(w) => w !in s.next
       case Unblocked(w) => w in s.callbacks
       case _ => true)
    case _ => true
  }

  /** `Submit` up to its first look at the head. */
  function Submitted(s: State, c: Context, f: Callback): State {
    s.(blocked := s.blocked + {c}, callbacks := s.callbacks[c := f], submitting := s.submitting[c := false])
  }

  function Next(kind: Kind, s: State, step: Step): State {
    if !Enabled(kind, s, step) || !ChecksPass(s, step) then s
    else
      match step
      case Submit(c, f) => Submitted(s, c, f)
      case Load(c) =>
        s.(next := s.Linked(c), submitting := s.submitting[c := true])
      case Push(c, spurious) =>
        if s.head == s.Expected(c) && !spurious then
          s.(head := Some(c), submitting := s.submitting - {c}, unsignalled := s.unsignalled + 1,
             pushed := s.pushed + [Job(c, s.callbacks[c])])
        else s.(next := s.Linked(c))
      case Signal =>
        var t := s.(unsignalled := s.unsignalled - 1);
        if kind.PoolWorker? then t.(semaphore := s.semaphore + 1) else t.(async := true)
      case Wake =>
        if kind.PoolWorker? then s.(semaphore := s.semaphore - 1, pc := Loading)
        else s.(async := false, pc := Loading)
      case Consume(spurious) =>
        Advance(kind, s, spurious)
  }

  function Advance(kind: Kind, s: State, spurious: bool): State
    requires !s.pc.Sleeping? && ChecksPass(s, Consume(spurious))
  {
    match s.pc
    case Loading =>
      s.(pc := if s.head.Some? then Testing(s.head.value) else Sleeping)
    case Testing(w) =>
      s.(pc := if w in s.next then Walking(w) else Swapping(w))
    case Swapping(w) =>
      if s.head == Some(w) && !spurious then s.(head := None, pc := Taken(w)) else s.(pc := Loading)
    case Walking(w) =>
      s.(pc := if s.next[w] in s.next then Walking(s.next[w]) else Cutting(w))
    case Cutting(w) =>
      s.(next := s.next - {w}, pc := Taken(s.next[w]))
    case Taken(w) =>
      s.(blocked := s.blocked - {w}, pc := Unblocked(w))
    case Unblocked(w) =>
      s.(callbacks := s.callbacks - {w}, pc := Running, ran := s.ran + [Job(w, s.callbacks[w])])
    case Running =>
      s.(pc := if kind.PoolWorker? then Sleeping else Loading)
  }

  // ------------------------------------------------------------ the invariant

  /** Woken, but the job it was woken for is still in the list. */
  predicate Awake(p: Pc) {
    p.Loading? || p.Testing? || p.Swapping? || p.Walking? || p.Cutting?
  }

  /** The consumer has a job in its hand. */
  predicate Carries(p: Pc) { p.Taken? || p.Unblocked? }

  predicate ConsumerOk(q: seq<Context>, p: Pc) {
    match p
    case Testing(w) => w in q
    case Swapping(w) => q != [] && w == q[0]
    case Walking(w) => w in q && w != q[0]
    case Cutting(w) => |q| > 1 && w == q[1]
    case Taken(w) => w !in q
    case Unblocked(w) => w !in q
    case _ => true
  }

  predicate ContextOk(s: State, q: seq<Context>, c: Context) {
    && (c in s.blocked <==> c in s.submitting || c in q || s.pc == Taken(c))
    && (c in s.submitting ==> c !in q && s.pc != Taken(c))
    && (c in s.blocked ==> c in s.callbacks)
    && (s.pc == Unblocked(c) ==> c !in s.blocked && c in s.callbacks)
    && (c !in s.blocked || s.pc == Taken(c) || (c in s.submitting && !s.submitting[c]) ==> c !in s.next)
  }

  /** The job stored in a context's waiter. */
  function JobOf(s: State, c: Context): Job {
    Job(c, if c in s.callbacks then s.callbacks[c] else 0)
  }

  function Jobs(s: State, q: seq<Context>): seq<Job> {
    seq(|q|, i requires 0 <= i < |q| => JobOf(s, q[i]))
  }

  function InHand(s: State): seq<Job> {
    if Carries(s.pc) then [JobOf(s, s.pc.w)] else []
  }

  ghost predicate Inv(kind: Kind, s: State, q: seq<Context>) {
    && IsChain(s.next, s.head, q)
    && ConsumerOk(q, s.pc)
    && (forall c: Context :: ContextOk(s, q, c))
    && s.pushed == s.ran + InHand(s) + Jobs(s, q)
    && (kind.PoolWorker? ==>
          |q| == s.semaphore + s.unsignalled + (if Awake(s.pc) then 1 else 0))
    && (kind.EventLoop? && s.pc.Sleeping? && q != [] ==> s.async || s.unsignalled > 0)
  }

  /** A context is submitted that has been submitted before and not run yet. */
  predicate Resubmits(s: State, step: Step) { step.Submit? && step.context in s.blocked }

  /** The queue after a step. */
  function QueueAfter(kind: Kind, s: State, q: seq<Context>, step: Step): seq<Context> {
    if !Enabled(kind, s, step) then q
    else if Lands(s, step) then q + [step.context]
    else if step.Consume? && Takes(s, step.spurious) && q != [] then q[1..]
    else q
  }

  /** The consumer's next step removes the oldest node. */
  predicate Takes(s: State, spurious: bool) {
    s.pc.Cutting? || (s.pc.Swapping? && s.head == Some(s.pc.w) && !spurious)
  }

  lemma {:induction false} ChecksHold(kind: Kind, s: State, q: seq<Context>, step: Step)
    requires Inv(kind, s, q) && Enabled(kind, s, step)
    ensures ChecksPass(s, step) <==> !Resubmits(s, step)
  {
    match step
    case Submit(c, _) => assert ContextOk(s, q, c);
    case Push(c, _) => assert ContextOk(s, q, c);
    case Consume(_) =>
      if Carries(s.pc) {
        assert ContextOk(s, q, s.pc.w);
      }
    case _ =>
  }

  /** The push lands: the swap finds the head it expects. */
  predicate Lands(s: State, step: Step) {
    step.Push? && s.head == s.Expected(step.context) && !step.spurious
  }

  lemma {:induction false} PrepareStep(kind: Kind, s: State, q: seq<Context>, step: Step)
    requires Inv(kind, s, q) && Enabled(kind, s, step)
    requires step.Submit? || step.Load? || (step.Push? && !Lands(s, step))
    requires !Resubmits(s, step)
    ensures Inv(kind, Next(kind, s, step), q)
  {
    ChecksHold(kind, s, q, step);
    var c, s' := step.context, Next(kind, s, step);
    assert ContextOk(s, q, c);
    ChainFrame(s.next, s'.next, s.head, q);
    forall d: Context ensures ContextOk(s', q, d) {
      assert ContextOk(s, q, d);
    }
    JobsSame(s, s', q);
  }

  lemma {:induction false} PushStep(kind: Kind, s: State, q: seq<Context>, step: Step)
    requires Inv(kind, s, q) && Enabled(kind, s, step) && Lands(s, step)
    ensures Inv(kind, Next(kind, s, step), q + [step.context])
  {
    ChecksHold(kind, s, q, step);
    var c, s' := step.context, Next(kind, s, step);
    var q' := q + [c];
    assert ContextOk(s, q, c);
    ChainPush(s.next, s.head, q, c);
    forall d: Context ensures ContextOk(s', q', d) {
      assert ContextOk(s, q, d);
      assert d in q' <==> d in q || d == c;
    }
    assert Jobs(s', q') == Jobs(s, q) + [JobOf(s, c)];
  }

  lemma {:induction false} TakeKeepsJobs(s: State, s': State, q: seq<Context>)
    requires q != [] && s'.callbacks == s.callbacks && s'.pc == Taken(q[0])
    ensures Jobs(s, q) == InHand(s') + Jobs(s', q[1..])
  {
    assert forall i :: 0 <= i < |q| - 1 ==> q[1..][i] == q[i + 1];
  }

  /** Taking the oldest node out of the list keeps the contexts' bookkeeping. */
  lemma {:induction false} TakeKeepsContexts(s: State, s': State, q: seq<Context>)
    requires q != [] && Distinct(q) && forall c: Context :: ContextOk(s, q, c)
    requires !Carries(s.pc) && s'.pc == Taken(q[0])
    requires s'.blocked == s.blocked && s'.callbacks == s.callbacks && s'.submitting == s.submitting
    requires q[0] !in s'.next && forall c :: c in s'.next ==> c in s.next
    ensures forall c: Context :: ContextOk(s', q[1..], c)
  {
    var r := q[1..];
    assert q == [q[0]] + r && q[0] !in r;
    forall c: Context ensures ContextOk(s', r, c) {
      assert ContextOk(s, q, c);
      assert c in q <==> c in r || c == q[0];
    }
  }

  lemma {:induction false} TakeStep(kind: Kind, s: State, q: seq<Context>, spurious: bool)
    requires Inv(kind, s, q)
    requires Takes(s, spurious)
    ensures Inv(kind, Next(kind, s, Consume(spurious)), q[1..])
  {
    ChecksHold(kind, s, q, Consume(spurious));
    var s' := Next(kind, s, Consume(spurious));
    if s.pc.Cutting? {
      ChainCut(s.next, s.head, q);
    } else {
      assert |q| == 1;
    }
    TakeKeepsContexts(s, s', q);
    TakeKeepsJobs(s, s', q);
  }

  lemma {:induction false} JobsSame(s: State, s': State, q: seq<Context>)
    requires forall c :: c in q ==> JobOf(s', c) == JobOf(s, c)
    ensures Jobs(s', q) == Jobs(s, q)
  {
    assert forall i :: 0 <= i < |q| ==> q[i] in q;
  }

  lemma {:induction false} UnblockStep(kind: Kind, s: State, q: seq<Context>, spurious: bool)
    requires Inv(kind, s, q) && s.pc.Taken?
    ensures Inv(kind, Next(kind, s, Consume(spurious)), q)
  {
    ChecksHold(kind, s, q, Consume(spurious));
    var s' := Next(kind, s, Consume(spurious));
    forall d: Context ensures ContextOk(s', q, d) {
      assert ContextOk(s, q, d);
    }
    JobsSame(s, s', q);
  }

  lemma {:induction false} RunStep(kind: Kind, s: State, q: seq<Context>, spurious: bool)
    requires Inv(kind, s, q) && s.pc.Unblocked?
    ensures Inv(kind, Next(kind, s, Consume(spurious)), q)
  {
    ChecksHold(kind, s, q, Consume(spurious));
    var s' := Next(kind, s, Consume(spurious));
    forall d: Context ensures ContextOk(s', q, d) {
      assert ContextOk(s, q, d);
    }
    JobsSame(s, s', q);
  }

  /** Moves of the consumer, the semaphore and the wakeup leave the contexts alone. */
  lemma {:induction false} ContextsSame(s: State, s': State, q: seq<Context>)
    requires forall c: Context :: ContextOk(s, q, c)
    requires s'.blocked == s.blocked && s'.callbacks == s.callbacks && s'.submitting == s.submitting
    requires s'.next == s.next && (s'.pc == s.pc || (!Carries(s.pc) && !Carries(s'.pc)))
    ensures forall c: Context :: ContextOk(s', q, c)
    ensures Jobs(s', q) == Jobs(s, q)
  {
    forall c: Context ensures ContextOk(s', q, c) {
      assert ContextOk(s, q, c);
    }
    JobsSame(s, s', q);
  }

  lemma {:induction false} WakeupStep(kind: Kind, s: State, q: seq<Context>, step: Step)
    requires Inv(kind, s, q) && Enabled(kind, s, step) && (step.Signal? || step.Wake?)
    ensures Inv(kind, Next(kind, s, step), q)
  {
    ContextsSame(s, Next(kind, s, step), q);
  }

  /** The consumer's local pointer stays where the list says. */
  lemma {:induction false} SearchKeepsPointer(kind: Kind, s: State, q: seq<Context>, step: Step)
    requires IsChain(s.next, s.head, q) && ConsumerOk(q, s.pc) && ChecksPass(s, step) && Enabled(kind, s, step)
    requires step.Consume? && !Carries(s.pc) && !Takes(s, step.spurious)
    ensures var s' := Next(kind, s, step);
            && s' == s.(pc := s'.pc) && ConsumerOk(q, s'.pc) && !Carries(s'.pc)
            && (s'.pc.Sleeping? ==> if kind.EventLoop? then q == [] else s.pc.Running? || q == [])
            && (Awake(s.pc) && q != [] ==> Awake(s'.pc)) && (s.pc.Running? && kind.PoolWorker? ==> s'.pc.Sleeping?)
  {
    if s.pc.Walking? {
      ChainWalk(s.next, s.head, q, s.pc.w);
    }
  }

  lemma {:induction false} SearchStep(kind: Kind, s: State, q: seq<Context>, step: Step)
    requires Inv(kind, s, q) && Enabled(kind, s, step)
    requires step.Consume? && !Carries(s.pc) && !Takes(s, step.spurious)
    ensures Inv(kind, Next(kind, s, step), q)
  {
    ChecksHold(kind, s, q, step);
    SearchKeepsPointer(kind, s, q, step);
    ContextsSame(s, Next(kind, s, step), q);
  }

  lemma {:induction false} StepPreserves(kind: Kind, s: State, q: seq<Context>, step: Step)
    requires Inv(kind, s, q) && Enabled(kind, s, step)
    ensures Inv(kind, Next(kind, s, step), QueueAfter(kind, s, q, step))
  {
    if Resubmits(s, step) {
      ChecksHold(kind, s, q, step);
    } else if Lands(s, step) {
      PushStep(kind, s, q, step);
    } else if step.Submit? || step.Load? || step.Push? {
      PrepareStep(kind, s, q, step);
    } else if step.Consume? && s.pc.Taken? {
      UnblockStep(kind, s, q, step.spurious);
    } else if step.Consume? && s.pc.Unblocked? {
      RunStep(kind, s, q, step.spurious);
    } else if step.Consume? && Takes(s, step.spurious) {
      TakeStep(kind, s, q, step.spurious);
    } else if step.Consume? {
      SearchStep(kind, s, q, step);
    } else {
      WakeupStep(kind, s, q, step);
    }
  }

  // ------------------------------------------------------------ whole runs

  function After(kind: Kind, steps: seq<Step>): State {
    if steps == [] then INIT
    else Next(kind, After(kind, steps[..|steps| - 1]), steps[|steps| - 1])
  }

  function Queue(kind: Kind, steps: seq<Step>): seq<Context> {
    if steps == [] then []
    else
      var before := steps[..|steps| - 1];
      QueueAfter(kind, After(kind, before), Queue(kind, before), steps[|steps| - 1])
  }

  lemma {:induction false} RunKeepsInv(kind: Kind, steps: seq<Step>)
    ensures Inv(kind, After(kind, steps), Queue(kind, steps))
    decreases |steps|
  {
    if steps == [] {
      assert Jobs(INIT, []) == [];
    } else {
      var before, last := steps[..|steps| - 1], steps[|steps| - 1];
      RunKeepsInv(kind, before);
      if Enabled(kind, After(kind, before), last) {
        StepPreserves(kind, After(kind, before), Queue(kind, before), last);
      }
    }
  }

  /**
   Exactly once and in push order, over every interleaving: the jobs that ran are a
   prefix of the jobs pushed, and what is missing is the job in the consumer's hand
   followed by the list, oldest first. The list is finite and the pointers read as it
   alone, and every context in it is blocked.
   */
  lemma {:induction false} RunsEachJobOnceInOrder(kind: Kind, steps: seq<Step>)
    ensures var s, q := After(kind, steps), Queue(kind, steps);
            && s.pushed == s.ran + InHand(s) + Jobs(s, q)
            && (forall r :: IsChain(s.next, s.head, r) <==> r == q)
            && (forall c :: c in q ==> c in s.blocked)
  {
    RunKeepsInv(kind, steps);
    var s, q := After(kind, steps), Queue(kind, steps);
    forall r ensures IsChain(s.next, s.head, r) <==> r == q {
      if IsChain(s.next, s.head, r) {
        ChainUnique(s.next, s.head, r, q);
      }
    }
    assert forall c :: c in q ==> ContextOk(s, q, c);
  }

  /**
   No interleaving follows a null pointer or trips a CHECK on the list, except that a
   context must not be submitted again while it is blocked, which is its caller's duty.
   */
  lemma {:induction false} OnlyResubmittingAborts(kind: Kind, steps: seq<Step>, step: Step)
    requires Enabled(kind, After(kind, steps), step)
    ensures ChecksPass(After(kind, steps), step) <==> !Resubmits(After(kind, steps), step)
  {
    RunKeepsInv(kind, steps);
    ChecksHold(kind, After(kind, steps), Queue(kind, steps), step);
  }

  /**
   Why a context that is about to run must not be submitted: the new callback replaces the
   one about to be called, so the old job never runs, and the new one runs now and leaves its
   waiter, which is then pushed, without a callback for the CHECK to find.
   */
  lemma {:induction false} EarlySubmitLosesJob(kind: Kind, steps: seq<Step>, f: Callback, spurious: bool)
    requires After(kind, steps).pc.Unblocked?
    ensures var s := After(kind, steps);
            var c := s.pc.w;
            var early := Submitted(s, c, f);
            var t := Next(kind, early, Consume(spurious));
            && c !in s.blocked && c !in s.next && c in s.callbacks
            && |s.pushed| > |s.ran| && s.pushed[|s.ran|] == Job(c, s.callbacks[c])
            && t.ran == s.ran + [Job(c, f)]
            && c in t.submitting && c !in t.callbacks
  {
    RunKeepsInv(kind, steps);
    var s := After(kind, steps);
    assert ContextOk(s, Queue(kind, steps), s.pc.w);
    assert s.pushed[|s.ran|] == InHand(s)[0];
  }

  /** `Check` returns only when it has seen the list empty, and then nothing pushed is left to run. */
  lemma {:induction false} CheckReturnsOnEmptyList(steps: seq<Step>, step: Step)
    requires var s := After(EventLoop, steps);
             !s.pc.Sleeping? && Next(EventLoop, s, step).pc.Sleeping?
    ensures After(EventLoop, steps).head.None?
    ensures After(EventLoop, steps).pushed == After(EventLoop, steps).ran
  {
    RunKeepsInv(EventLoop, steps);
    var s, q := After(EventLoop, steps), Queue(EventLoop, steps);
    LeavesFromLoading(s, step);
    assert q == [] && Jobs(s, q) == [];
  }

  lemma {:induction false} LeavesFromLoading(s: State, step: Step)
    requires !s.pc.Sleeping? && Next(EventLoop, s, step).pc.Sleeping?
    ensures s.pc.Loading? && s.head.None?
  {
  }

  /**
   No job is stranded in the event loop: while the list is not empty outside `Check`, a
   wakeup is pending, or a submitter has yet to send one.
   */
  lemma {:induction false} EventLoopIsWoken(steps: seq<Step>)
    ensures var s := After(EventLoop, steps);
            s.pc.Sleeping? && s.head.Some? ==> s.async || s.unsignalled > 0
  {
    RunKeepsInv(EventLoop, steps);
  }

  /**
   The semaphore counts the list: a sleeping worker leaves no job that has been
   signalled, and a woken worker never finds the list empty.
   */
  lemma {:induction false} SemaphoreCountsJobs(steps: seq<Step>)
    ensures var s, q := After(PoolWorker, steps), Queue(PoolWorker, steps);
            && |q| == s.semaphore + s.unsignalled + (if Awake(s.pc) then 1 else 0)
            && (s.pc.Sleeping? && s.semaphore == 0 ==> |q| == s.unsignalled)
            && (s.pc.Loading? ==> s.head.Some?)
  {
    RunKeepsInv(PoolWorker, steps);
  }
}
