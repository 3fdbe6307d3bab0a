/**
 `Lock` at the granularity of its atomic operations. Every load, store and
 compare-and-swap is one step of some waiter's activity, any interleaving of steps is a
 run, and a weak compare-and-swap may fail spuriously. Atomics are sequentially
 consistent.
 */
module LockProtocol {
  import opened Options
  import opened Chains
  import FifoLock

  type Waiter = Node
  type Context = nat

  /** Where the activity on behalf of one `Lock::Waiter` stands. */
  datatype Pc =
    | Idle
    | FastLoad                     // AcquireFast: about to load head_
    | FastCas                      // AcquireFast: about to swap null for the waiter
    | FastStoreOwner               // AcquireFast: swapped, about to store owner_
    | FastSetFlag                  // AcquireFast: about to set acquired
    | FastGiveUp                   // AcquireFast: lock is taken, about to reset next
    | SlowLoad                     // AcquireSlow: at 'load'
    | SlowLoop                     // AcquireSlow: at 'loop'
    | Queued                       // pushed, waiting to be handed the lock
    | Holding                      // acquired, inside the critical section
    | RelLoad                      // Release: about to load head_
    | RelTest(w: Waiter)           // Release: about to look at w->next
    | RelClearOwner(w: Waiter)     // Release: alone, about to clear owner_
    | RelCas(w: Waiter)            // Release: about to swap w for null
    | RelForget(w: Waiter)         // Release: swapped, about to clear w->acquired
    | RelWalk(w: Waiter)           // Release: looking for the second oldest waiter
    | RelClearFlag(w: Waiter)      // Release: about to clear w->next->acquired
    | RelCut(w: Waiter)            // Release: about to cut w->next
    | RelStoreOwner(w: Waiter)     // Release: about to store w's context in owner_
    | RelSetFlag(w: Waiter)        // Release: about to set w->acquired
    | RelResume(w: Waiter)         // Release: about to call w's callback

  datatype State = State(
    head: Option<Waiter>,
    next: Links,
    owner: Option<Context>,
    acquired: set<Waiter>,         // the waiters whose flag is set
    pcs: map<Waiter, Pc>)
  {
    function Pc(w: Waiter): Pc { if w in pcs then pcs[w] else Idle }
    function At(w: Waiter, p: Pc): State { this.(pcs := pcs[w := p]) }
    /** What loading `head` into `w->next` leaves in memory. */
    function Linked(w: Waiter): Links {
      match head
      case None => next - {w}
      case Some(h) => next[w := h]
    }
  }

  datatype Step =
    | AcquireFast(w: Waiter)
    | AcquireSlow(w: Waiter)
    | Release(w: Waiter)
    | Act(w: Waiter, spurious: bool)

  /**
   A waiter may be acquired again as soon as it is out of the list: when its continuation
   waits, that is done by whoever notifies it, even if its release has not returned yet.
   */
  predicate Enabled(s: State, step: Step) {
    match step
    case AcquireFast(w) => s.Pc(w).Idle? || s.Pc(w).RelForget?
    case AcquireSlow(w) => s.Pc(w).Idle? || s.Pc(w).RelForget?
    case Release(w) => s.Pc(w).Holding?
    case Act(w, _) => !s.Pc(w).Idle? && !s.Pc(w).Queued? && !s.Pc(w).Holding?
  }

  /** The CHECKs and pointer dereferences a step performs. */
  predicate ChecksPass(s: State, step: Step) {
    match step
    case AcquireFast(w) => w !in s.acquired && w !in s.next
    case AcquireSlow(w) => w !in s.acquired && w !in s.next
    case Release(w) => s.head.Some?
    case Act(w, _) =>
      match s.Pc(w)
      case FastLoad => w !in s.acquired && w !in s.next
      case RelLoad => s.head.Some?
      case RelWalk(v) => v in s.next
      case RelClearFlag(v) => v in s.next
      case RelCut(v) => v in s.next
      case _ => true
  }

  function Next(ctx: Waiter -> Context, s: State, step: Step): State {
    if !Enabled(s, step) || !ChecksPass(s, step) then s  // disabled, or aborted by a CHECK
    else
      match step
      case AcquireFast(w) => s.At(w, FastLoad)
      case AcquireSlow(w) => s.At(w, SlowLoad)
      case Release(w) => s.At(w, RelLoad)
      case Act(w, spurious) => Advance(ctx, s, w, spurious)
  }

  function Advance(ctx: Waiter -> Context, s: State, w: Waiter, spurious: bool): State
    requires Enabled(s, Act(w, spurious)) && ChecksPass(s, Act(w, spurious))
  {
    match s.Pc(w)
    case FastLoad =>
      s.(next := s.Linked(w)).At(w, if s.head.None? then FastCas else FastGiveUp)
    case FastCas =>
      if s.head.None? && !spurious then s.(head := Some(w)).At(w, FastStoreOwner)
      else s.(next := s.Linked(w)).At(w, if s.head.None? then FastCas else FastGiveUp)
    case FastStoreOwner =>
      s.(owner := Some(ctx(w))).At(w, FastSetFlag)
    case FastSetFlag =>
      s.(acquired := s.acquired + {w}).At(w, Holding)
    case FastGiveUp =>
      s.(next := s.next - {w}).At(w, SlowLoad)
    case SlowLoad =>
      s.(next := s.Linked(w)).At(w, SlowLoop)
    case SlowLoop =>
      if w !in s.next then s.At(w, FastLoad)
      else if s.head == Some(s.next[w]) && !spurious then s.(head := Some(w)).At(w, Queued)
      else s.(next := s.Linked(w))
    case RelLoad =>
      s.At(w, RelTest(s.head.value))
    case RelTest(v) =>
      s.At(w, if v !in s.next then RelClearOwner(v) else RelWalk(v))
    case RelClearOwner(v) =>
      s.(owner := None).At(w, RelCas(v))
    case RelCas(v) =>
      if s.head == Some(v) && !spurious then s.(head := None).At(w, RelForget(v))
      else s.At(w, RelLoad)
    case RelForget(v) =>
      s.(acquired := s.acquired - {v}).At(w, Idle)
    case RelWalk(v) =>
      s.At(w, if s.next[v] in s.next then RelWalk(s.next[v]) else RelClearFlag(v))
    case RelClearFlag(v) =>
      s.(acquired := s.acquired - {s.next[v]}).At(w, RelCut(v))
    case RelCut(v) =>
      s.(next := s.next - {v}).At(w, RelStoreOwner(v))
    case RelStoreOwner(v) =>
      s.(owner := Some(ctx(v))).At(w, RelSetFlag(v))
    case RelSetFlag(v) =>
      s.(acquired := s.acquired + {v}).At(w, RelResume(v))
    case RelResume(v) =>
      s.At(w, Idle).At(v, Holding)
    case _ => s
  }

  const INIT: State := State(None, map[], None, {}, map[])

  /** What a step does to the abstract lock. */
  function EventOf(s: State, step: Step): FifoLock.Event {
    if !Enabled(s, step) || !step.Act? then FifoLock.Stutter else
      match s.Pc(step.w)
      case FastCas =>
        if s.head.None? && !step.spurious then FifoLock.Join(step.w) else FifoLock.Stutter
      case SlowLoop =>
        if step.w in s.next && s.head == Some(s.next[step.w]) && !step.spurious
        then FifoLock.Join(step.w) else FifoLock.Stutter
      case RelCas(v) =>
        if s.head == Some(v) && !step.spurious then FifoLock.Leave else FifoLock.Stutter
      case RelCut(_) => FifoLock.Leave
      case _ => FifoLock.Stutter
  }

  // ------------------------------------------------------------ the invariant

  /** In the list by virtue of its own activity. */
  predicate InList(p: Pc) {
    p.FastStoreOwner? || p.FastSetFlag? || p.Queued? || p.Holding? || p.RelLoad? || p.RelTest? ||
    p.RelClearOwner? || p.RelCas? || p.RelWalk? || p.RelClearFlag? || p.RelCut?
  }

  /** Has cut itself out and is handing the lock over. */
  predicate Handing(p: Pc) { p.RelStoreOwner? || p.RelSetFlag? || p.RelResume? }

  /** Where `w->acquired` is set by its own activity. */
  predicate Flagged(p: Pc) {
    p.Holding? || p.RelLoad? || p.RelTest? || p.RelClearOwner? || p.RelCas? || p.RelForget? ||
    p.RelWalk? || p.RelClearFlag?
  }

  /** Where `w->next` is null. */
  predicate Unlinked(p: Pc) {
    p.Idle? || p.FastLoad? || p.FastCas? || p.SlowLoad? || p.FastStoreOwner? || p.RelForget? || Handing(p)
  }

  predicate ReleaseLocals(q: seq<Waiter>, p: Pc) {
    match p
    case RelTest(v) => v in q
    case RelClearOwner(v) => q != [] && v == q[0]
    case RelCas(v) => q != [] && v == q[0]
    case RelWalk(v) => v in q && v != q[0]
    case RelClearFlag(v) => |q| > 1 && v == q[1]
    case RelCut(v) => |q| > 1 && v == q[1]
    case RelStoreOwner(v) => q != [] && v == q[0]
    case RelSetFlag(v) => q != [] && v == q[0]
    case RelResume(v) => q != [] && v == q[0]
    case _ => true
  }

  /**
   What holds of one waiter, where `q` is the abstract queue and `hand` the waiter, if
   any, that is between cutting itself out of the list and resuming its successor.
   */
  predicate WaiterOk(ctx: Waiter -> Context, s: State, q: seq<Waiter>, hand: Option<Waiter>, w: Waiter) {
    var p := s.Pc(w);
    && (InList(p) <==> w in q)
    && (w in q && w != q[0] ==> p.Queued?)
    && (Handing(p) <==> hand == Some(w))
    && (Unlinked(p) ==> w !in s.next)
    && ReleaseLocals(q, p)
    && (p.RelForget? ==> p.w == w)
    && (p.RelCas? || p.FastStoreOwner? ==> s.owner.None?)
    && (p.FastSetFlag? || p.Holding? ==> s.owner == Some(ctx(w)))
    && (p.RelSetFlag? || p.RelResume? ==> s.owner == Some(ctx(p.w)))
    && (w in s.acquired <==> Flagged(p) || (hand.Some? && s.Pc(hand.value) == RelResume(w)))
  }

  ghost predicate Inv(ctx: Waiter -> Context, s: State, q: seq<Waiter>, hand: Option<Waiter>) {
    && IsChain(s.next, s.head, q)
    && (hand.Some? ==> q != [])
    && (q == [] ==> s.owner.None?)
    && (q != [] ==> (hand.Some? <==> s.Pc(q[0]).Queued?))
    && (forall w: Waiter :: WaiterOk(ctx, s, q, hand, w))
  }

  /** The hand-over flag after a step. */
  function HandAfter(s: State, hand: Option<Waiter>, step: Step): Option<Waiter> {
    if !step.Act? || !Enabled(s, step) then hand
    else if s.Pc(step.w).RelCut? then Some(step.w)
    else if s.Pc(step.w).RelResume? then None
    else hand
  }

  /** The one waiter in the list that is not queued is its front. */
  lemma {:induction false} ActorIsFront(ctx: Waiter -> Context, s: State, q: seq<Waiter>, hand: Option<Waiter>,
                                        w: Waiter)
    requires Inv(ctx, s, q, hand)
    requires InList(s.Pc(w)) && !s.Pc(w).Queued?
    ensures q != [] && q[0] == w && hand.None?
  {
    assert WaiterOk(ctx, s, q, hand, w);
  }

  /** The waiter is acquired again before the release that let go of it has cleared its flag. */
  predicate TooEarly(s: State, step: Step) {
    (step.AcquireFast? || step.AcquireSlow?) && s.Pc(step.w).RelForget?
  }

  /** No other CHECK fires and no null pointer is followed. */
  lemma {:induction false} ChecksHold(ctx: Waiter -> Context, s: State, q: seq<Waiter>, hand: Option<Waiter>,
                                      step: Step)
    requires Inv(ctx, s, q, hand) && Enabled(s, step)
    ensures ChecksPass(s, step) <==> !TooEarly(s, step)
  {
    var w := step.w;
    assert WaiterOk(ctx, s, q, hand, w);
    assert hand.Some? ==> WaiterOk(ctx, s, q, hand, hand.value);
  }

  /** A waiter outside the list moves its own pointer and program counter. */
  lemma {:induction false} PrivateMove(ctx: Waiter -> Context, s: State, q: seq<Waiter>, hand: Option<Waiter>,
                    w: Waiter, next': Links, p: Pc)
    requires Inv(ctx, s, q, hand)
    requires !InList(s.Pc(w)) && !Handing(s.Pc(w)) && !Flagged(s.Pc(w))
    requires !InList(p) && !Handing(p) && !Flagged(p)
    requires next' - {w} == s.next - {w}
    requires Unlinked(p) ==> w !in next'
    ensures Inv(ctx, s.(next := next').At(w, p), q, hand)
  {
    var s' := s.(next := next').At(w, p);
    assert WaiterOk(ctx, s, q, hand, w);
    forall v | v != w ensures (v in s.next <==> v in next') && (v in s.next ==> s.next[v] == next'[v]) {
      assert v in s.next - {w} <==> v in next' - {w};
      if v in s.next - {w} {
        assert (s.next - {w})[v] == (next' - {w})[v];
      }
    }
    ChainFrame(s.next, next', s.head, q);
    forall v: Waiter ensures WaiterOk(ctx, s', q, hand, v) {
      assert WaiterOk(ctx, s, q, hand, v);
    }
  }

  /** The front waiter moves on without touching the list. */
  lemma {:induction false} FrontMove(ctx: Waiter -> Context, s: State, q: seq<Waiter>, hand: Option<Waiter>,
                  w: Waiter, owner': Option<Context>, acquired': set<Waiter>, p: Pc)
    requires Inv(ctx, s, q, hand)
    requires InList(s.Pc(w)) && !s.Pc(w).Queued? && InList(p) && !p.Queued? && !p.FastStoreOwner?
    requires ReleaseLocals(q, p)
    requires p.FastSetFlag? || p.Holding? ==> owner' == Some(ctx(w))
    requires p.RelCas? ==> owner'.None?
    requires acquired' - {w} == s.acquired - {w} && (w in acquired' <==> Flagged(p))
    ensures Inv(ctx, s.(owner := owner', acquired := acquired').At(w, p), q, hand)
  {
    ActorIsFront(ctx, s, q, hand, w);
    var s' := s.(owner := owner', acquired := acquired').At(w, p);
    forall v: Waiter ensures WaiterOk(ctx, s', q, hand, v) {
      assert WaiterOk(ctx, s, q, hand, v);
      assert v != w ==> (v in acquired' <==> v in acquired' - {w}) && (v in s.acquired <==> v in s.acquired - {w});
    }
  }

  lemma {:induction false} JoinMove(ctx: Waiter -> Context, s: State, q: seq<Waiter>, hand: Option<Waiter>,
                                    w: Waiter, p: Pc)
    requires Inv(ctx, s, q, hand)
    requires !InList(s.Pc(w)) && !Handing(s.Pc(w)) && !Flagged(s.Pc(w))
    requires if s.head.None? then w !in s.next && p.FastStoreOwner?
             else w in s.next && s.next[w] == s.head.value && p.Queued?
    ensures w !in q
    ensures Inv(ctx, s.(head := Some(w)).At(w, p), q + [w], hand)
  {
    assert WaiterOk(ctx, s, q, hand, w);
    ChainPush(s.next, s.head, q, w);
    var s', q' := s.(head := Some(w)).At(w, p), q + [w];
    assert q != [] ==> q'[0] == q[0];
    forall v: Waiter ensures WaiterOk(ctx, s', q', hand, v) {
      assert WaiterOk(ctx, s, q, hand, v);
      assert v in q' <==> v in q || v == w;
    }
  }

  lemma {:induction false} EmptyMove(ctx: Waiter -> Context, s: State, q: seq<Waiter>, hand: Option<Waiter>, w: Waiter)
    requires Inv(ctx, s, q, hand)
    requires s.Pc(w).RelCas? && s.head == Some(s.Pc(w).w)
    ensures q == [w]
    ensures Inv(ctx, s.(head := None).At(w, RelForget(w)), [], hand)
  {
    ActorIsFront(ctx, s, q, hand, w);
    assert WaiterOk(ctx, s, q, hand, w);
    assert |q| == 1;
    var s' := s.(head := None).At(w, RelForget(w));
    forall v: Waiter ensures WaiterOk(ctx, s', [], hand, v) {
      assert WaiterOk(ctx, s, q, hand, v);
      assert v in q <==> v == w;
    }
  }

  lemma {:induction false} CutMove(ctx: Waiter -> Context, s: State, q: seq<Waiter>, hand: Option<Waiter>, w: Waiter)
    requires Inv(ctx, s, q, hand)
    requires s.Pc(w).RelCut?
    ensures |q| > 1 && q[0] == w && s.Pc(w).w == q[1]
    ensures Inv(ctx, s.(next := s.next - {q[1]}).At(w, RelStoreOwner(q[1])), q[1..], Some(w))
  {
    ActorIsFront(ctx, s, q, hand, w);
    assert WaiterOk(ctx, s, q, hand, w);
    ChainCut(s.next, s.head, q);
    var s', r := s.(next := s.next - {q[1]}).At(w, RelStoreOwner(q[1])), q[1..];
    assert q[1] in q && WaiterOk(ctx, s, q, hand, q[1]);
    assert q == [w] + r && w !in r && r[0] == q[1];
    forall v: Waiter ensures WaiterOk(ctx, s', r, Some(w), v) {
      assert WaiterOk(ctx, s, q, hand, v);
      assert v in q <==> v in r || v == w;
    }
  }

  lemma {:induction false} HandMove(ctx: Waiter -> Context, s: State, q: seq<Waiter>, hand: Option<Waiter>, w: Waiter)
    requires Inv(ctx, s, q, hand)
    requires s.Pc(w).RelStoreOwner?
    ensures Inv(ctx, s.(owner := Some(ctx(s.Pc(w).w))).At(w, RelSetFlag(s.Pc(w).w)), q, hand)
  {
    assert WaiterOk(ctx, s, q, hand, w);
    var s' := s.(owner := Some(ctx(s.Pc(w).w))).At(w, RelSetFlag(s.Pc(w).w));
    forall v: Waiter ensures WaiterOk(ctx, s', q, hand, v) {
      assert WaiterOk(ctx, s, q, hand, v);
    }
  }

  lemma {:induction false} FlagMove(ctx: Waiter -> Context, s: State, q: seq<Waiter>, hand: Option<Waiter>, w: Waiter)
    requires Inv(ctx, s, q, hand)
    requires s.Pc(w).RelSetFlag?
    ensures var v := s.Pc(w).w; Inv(ctx, s.(acquired := s.acquired + {v}).At(w, RelResume(v)), q, hand)
  {
    assert WaiterOk(ctx, s, q, hand, w);
    var s' := s.(acquired := s.acquired + {q[0]}).At(w, RelResume(q[0]));
    forall v: Waiter ensures WaiterOk(ctx, s', q, hand, v) {
      assert WaiterOk(ctx, s, q, hand, v);
    }
  }

  /** The flag of a waiter that is out of the list is cleared. */
  lemma {:induction false} ForgetMove(ctx: Waiter -> Context, s: State, q: seq<Waiter>, hand: Option<Waiter>, w: Waiter)
    requires Inv(ctx, s, q, hand)
    requires s.Pc(w).RelForget?
    ensures Inv(ctx, s.(acquired := s.acquired - {s.Pc(w).w}).At(w, Idle), q, hand)
  {
    assert WaiterOk(ctx, s, q, hand, w);
    var s' := s.(acquired := s.acquired - {w}).At(w, Idle);
    forall v: Waiter ensures WaiterOk(ctx, s', q, hand, v) {
      assert WaiterOk(ctx, s, q, hand, v);
      assert hand.Some? ==> WaiterOk(ctx, s, q, hand, hand.value);
    }
  }

  lemma {:induction false} ResumeMove(ctx: Waiter -> Context, s: State, q: seq<Waiter>, hand: Option<Waiter>, w: Waiter)
    requires Inv(ctx, s, q, hand)
    requires s.Pc(w).RelResume?
    ensures q != [] && s.Pc(w).w == q[0]
    ensures Inv(ctx, s.At(w, Idle).At(q[0], Holding), q, None)
  {
    assert WaiterOk(ctx, s, q, hand, w);
    assert WaiterOk(ctx, s, q, hand, q[0]);
    var s' := s.At(w, Idle).At(q[0], Holding);
    forall v: Waiter ensures WaiterOk(ctx, s', q, None, v) {
      assert WaiterOk(ctx, s, q, hand, v);
    }
  }

  /** The step simulates the abstract lock and keeps the invariant. */
  ghost predicate Simulates(ctx: Waiter -> Context, s: State, q: seq<Waiter>, hand: Option<Waiter>, step: Step) {
    && FifoLock.Allowed(q, EventOf(s, step))
    && Inv(ctx, Next(ctx, s, step), FifoLock.Apply(q, EventOf(s, step)), HandAfter(s, hand, step))
  }

  lemma {:induction false} JoinStep(ctx: Waiter -> Context, s: State, q: seq<Waiter>, hand: Option<Waiter>, step: Step)
    requires Inv(ctx, s, q, hand) && Enabled(s, step)
    requires EventOf(s, step).Join?
    ensures Simulates(ctx, s, q, hand, step)
  {
    assert WaiterOk(ctx, s, q, hand, step.w);
    JoinMove(ctx, s, q, hand, step.w, if s.Pc(step.w).FastCas? then FastStoreOwner else Queued);
  }

  /** A call, or a step of an acquire that does not reach the list. */
  lemma {:induction false} PrivateStep(ctx: Waiter -> Context, s: State, q: seq<Waiter>, hand: Option<Waiter>,
                                       step: Step)
    requires Inv(ctx, s, q, hand) && Enabled(s, step) && ChecksPass(s, step)
    requires !InList(s.Pc(step.w)) && !Handing(s.Pc(step.w)) && !s.Pc(step.w).RelForget?
    requires !EventOf(s, step).Join?
    ensures Simulates(ctx, s, q, hand, step)
  {
    var w, s' := step.w, Next(ctx, s, step);
    assert WaiterOk(ctx, s, q, hand, w);
    if s.Pc(w).Idle? {
      CallIsPrivate(ctx, s, step);
    } else if s.Pc(w).SlowLoad? || s.Pc(w).SlowLoop? {
      SlowIsPrivate(ctx, s, step);
    } else {
      FastIsPrivate(ctx, s, step);
    }
    PrivateMove(ctx, s, q, hand, w, s'.next, s'.Pc(w));
  }

  /** The step touches only the waiter's own pointer and program counter. */
  predicate IsPrivate(ctx: Waiter -> Context, s: State, step: Step) {
    var w, s' := step.w, Next(ctx, s, step);
    && s' == s.(next := s'.next).At(w, s'.Pc(w)) && s'.next - {w} == s.next - {w}
    && !InList(s'.Pc(w)) && !Handing(s'.Pc(w)) && !Flagged(s'.Pc(w))
    && (Unlinked(s'.Pc(w)) ==> w !in s'.next)
  }

  lemma {:induction false} CallIsPrivate(ctx: Waiter -> Context, s: State, step: Step)
    requires Enabled(s, step) && ChecksPass(s, step) && s.Pc(step.w).Idle?
    ensures IsPrivate(ctx, s, step)
  {
  }

  lemma {:induction false} FastIsPrivate(ctx: Waiter -> Context, s: State, step: Step)
    requires Enabled(s, step) && ChecksPass(s, step) && !EventOf(s, step).Join?
    requires s.Pc(step.w).FastLoad? || s.Pc(step.w).FastCas? || s.Pc(step.w).FastGiveUp?
    ensures IsPrivate(ctx, s, step)
  {
    assert s.Linked(step.w) - {step.w} == s.next - {step.w};
  }

  lemma {:induction false} SlowIsPrivate(ctx: Waiter -> Context, s: State, step: Step)
    requires Enabled(s, step) && ChecksPass(s, step) && !EventOf(s, step).Join?
    requires s.Pc(step.w).SlowLoad? || s.Pc(step.w).SlowLoop?
    ensures IsPrivate(ctx, s, step)
  {
    assert s.Linked(step.w) - {step.w} == s.next - {step.w};
  }

  lemma {:induction false} ReleaseStep(ctx: Waiter -> Context, s: State, q: seq<Waiter>, hand: Option<Waiter>,
                                       step: Step)
    requires Inv(ctx, s, q, hand) && Enabled(s, step)
    requires InList(s.Pc(step.w))
    ensures Simulates(ctx, s, q, hand, step)
  {
    ChecksHold(ctx, s, q, hand, step);
    var w, s' := step.w, Next(ctx, s, step);
    ActorIsFront(ctx, s, q, hand, w);
    assert WaiterOk(ctx, s, q, hand, w);
    if s.Pc(w).RelCut? {
      CutMove(ctx, s, q, hand, w);
    } else if EventOf(s, step).Leave? {
      EmptyMove(ctx, s, q, hand, w);
    } else {
      if s.Pc(w).RelWalk? {
        ChainWalk(s.next, s.head, q, s.Pc(w).w);
      }
      assert s.Pc(w).RelClearFlag? ==> s.next[q[1]] == w;
      FrontMove(ctx, s, q, hand, w, s'.owner, s'.acquired, s'.Pc(w));
      assert s' == s.(owner := s'.owner, acquired := s'.acquired).At(w, s'.Pc(w));
    }
  }

  lemma {:induction false} HandOverStep(ctx: Waiter -> Context, s: State, q: seq<Waiter>, hand: Option<Waiter>,
                                        step: Step)
    requires Inv(ctx, s, q, hand) && Enabled(s, step)
    requires Handing(s.Pc(step.w))
    ensures Simulates(ctx, s, q, hand, step)
  {
    if s.Pc(step.w).RelStoreOwner? {
      HandMove(ctx, s, q, hand, step.w);
    } else if s.Pc(step.w).RelSetFlag? {
      FlagMove(ctx, s, q, hand, step.w);
    } else {
      ResumeMove(ctx, s, q, hand, step.w);
    }
  }

  lemma {:induction false} ForgetStep(ctx: Waiter -> Context, s: State, q: seq<Waiter>, hand: Option<Waiter>,
                                      step: Step)
    requires Inv(ctx, s, q, hand) && Enabled(s, step)
    requires s.Pc(step.w).RelForget?
    ensures Simulates(ctx, s, q, hand, step)
  {
    ChecksHold(ctx, s, q, hand, step);
    if step.Act? {
      ForgetMove(ctx, s, q, hand, step.w);
    }
  }

  lemma {:induction false} StepSimulates(ctx: Waiter -> Context, s: State, q: seq<Waiter>,
                                         hand: Option<Waiter>, step: Step)
    requires Inv(ctx, s, q, hand) && Enabled(s, step)
    ensures Simulates(ctx, s, q, hand, step)
  {
    if Handing(s.Pc(step.w)) {
      HandOverStep(ctx, s, q, hand, step);
    } else if InList(s.Pc(step.w)) {
      ReleaseStep(ctx, s, q, hand, step);
    } else if s.Pc(step.w).RelForget? {
      ForgetStep(ctx, s, q, hand, step);
    } else if EventOf(s, step).Join? {
      JoinStep(ctx, s, q, hand, step);
    } else {
      ChecksHold(ctx, s, q, hand, step);
      PrivateStep(ctx, s, q, hand, step);
    }
  }

  // ------------------------------------------------------------ whole runs

  /** The state after any interleaving; a step that is not enabled does nothing. */
  function After(ctx: Waiter -> Context, steps: seq<Step>): State {
    if steps == [] then INIT
    else Next(ctx, After(ctx, steps[..|steps| - 1]), steps[|steps| - 1])
  }

  /** The abstract history of a run, and its hand-over flag. */
  function History(ctx: Waiter -> Context, steps: seq<Step>): seq<FifoLock.Event> {
    if steps == [] then []
    else
      var before := steps[..|steps| - 1];
      History(ctx, before) + [EventOf(After(ctx, before), steps[|steps| - 1])]
  }

  function Hand(ctx: Waiter -> Context, steps: seq<Step>): Option<Waiter> {
    if steps == [] then None
    else
      var before := steps[..|steps| - 1];
      HandAfter(After(ctx, before), Hand(ctx, before), steps[|steps| - 1])
  }

  /** Every interleaving refines the abstract FIFO lock. */
  lemma {:induction false} RefinesFifoLock(ctx: Waiter -> Context, steps: seq<Step>)
    ensures FifoLock.AllAllowed([], History(ctx, steps))
    ensures Inv(ctx, After(ctx, steps), FifoLock.ApplyAll([], History(ctx, steps)), Hand(ctx, steps))
    decreases |steps|
  {
    if steps != [] {
      var before, last := steps[..|steps| - 1], steps[|steps| - 1];
      RefinesFifoLock(ctx, before);
      var s, q := After(ctx, before), FifoLock.ApplyAll([], History(ctx, before));
      if Enabled(s, last) {
        StepSimulates(ctx, s, q, Hand(ctx, before), last);
      }
      var e := EventOf(s, last);
      FifoLock.ApplyAllConcat([], History(ctx, before), [e]);
      assert FifoLock.AllAllowed(q, [e]) && FifoLock.ApplyAll(q, [e]) == FifoLock.Apply(q, e);
    }
  }

  /** The abstract queue after a run. */
  function Queue(ctx: Waiter -> Context, steps: seq<Step>): seq<Waiter>
  {
    RefinesFifoLock(ctx, steps);
    FifoLock.ApplyAll([], History(ctx, steps))
  }

  /** The list reached from `head_` is the abstract queue, and no other reading of it exists. */
  lemma {:induction false} ListIsQueue(ctx: Waiter -> Context, steps: seq<Step>, q: seq<Waiter>)
    ensures var s := After(ctx, steps); IsChain(s.next, s.head, q) <==> q == Queue(ctx, steps)
  {
    RefinesFifoLock(ctx, steps);
    var s := After(ctx, steps);
    if IsChain(s.next, s.head, q) {
      ChainUnique(s.next, s.head, q, Queue(ctx, steps));
    }
  }

  /**
   Mutual exclusion: whoever is between the end of its acquire and the start of its
   release is the oldest node in the list, is alone there, and `owner_` is its context.
   */
  lemma {:induction false} HolderOwnsLock(ctx: Waiter -> Context, steps: seq<Step>, w: Waiter)
    requires After(ctx, steps).Pc(w).Holding?
    ensures Queue(ctx, steps) != [] && Queue(ctx, steps)[0] == w
    ensures After(ctx, steps).owner == Some(ctx(w))
    ensures forall v :: After(ctx, steps).Pc(v).Holding? ==> v == w
  {
    RefinesFifoLock(ctx, steps);
    var s, q, hand := After(ctx, steps), Queue(ctx, steps), Hand(ctx, steps);
    ActorIsFront(ctx, s, q, hand, w);
    assert WaiterOk(ctx, s, q, hand, w);
    forall v | s.Pc(v).Holding? ensures v == w {
      ActorIsFront(ctx, s, q, hand, v);
    }
  }

  /** A free lock has no owner, and neither has one whose lone holder may just lose it to nobody. */
  lemma {:induction false} FreeLockHasNoOwner(ctx: Waiter -> Context, steps: seq<Step>)
    requires Queue(ctx, steps) == [] || exists w :: After(ctx, steps).Pc(w).RelCas?
    ensures After(ctx, steps).owner.None?
  {
    RefinesFifoLock(ctx, steps);
    var s, q, hand := After(ctx, steps), Queue(ctx, steps), Hand(ctx, steps);
    if w :| s.Pc(w).RelCas? {
      assert WaiterOk(ctx, s, q, hand, w);
    }
  }

  /**
   Over every interleaving the only CHECK that can fail is `!waiter->acquired`, and it
   fails exactly when a waiter is acquired again between the swap that took it out of the
   list and the store that clears its flag. No null pointer is ever followed.
   */
  lemma {:induction false} OnlyEarlyReuseAborts(ctx: Waiter -> Context, steps: seq<Step>, step: Step)
    requires Enabled(After(ctx, steps), step)
    ensures ChecksPass(After(ctx, steps), step) <==> !TooEarly(After(ctx, steps), step)
  {
    RefinesFifoLock(ctx, steps);
    ChecksHold(ctx, After(ctx, steps), Queue(ctx, steps), Hand(ctx, steps), step);
  }

  /** A fast acquire takes the lock only when nobody holds it or waits for it. */
  lemma {:induction false} FastPathOnlyWhenFree(ctx: Waiter -> Context, steps: seq<Step>, w: Waiter)
    requires After(ctx, steps).Pc(w).FastCas?
    ensures EventOf(After(ctx, steps), Act(w, false)).Join? <==> Queue(ctx, steps) == []
  {
    RefinesFifoLock(ctx, steps);
  }

  /** `n` steps of the activity on behalf of `r`, without interference. */
  function Acts(ctx: Waiter -> Context, s: State, r: Waiter, n: nat): State {
    if n == 0 then s else Next(ctx, Acts(ctx, s, r, n - 1), Act(r, false))
  }

  lemma {:induction false} HandOverCompletes(ctx: Waiter -> Context, s: State, r: Waiter) returns (n: nat)
    requires Handing(s.Pc(r))
    ensures n <= 3 && Acts(ctx, s, r, n).Pc(s.Pc(r).w).Holding?
  {
    var v := s.Pc(r).w;
    assert Acts(ctx, s, r, 0) == s;
    if s.Pc(r).RelResume? {
      n := 1;
    } else if s.Pc(r).RelSetFlag? {
      n := 2;
      assert Acts(ctx, s, r, 1) == s.(acquired := s.acquired + {v}).At(r, RelResume(v));
    } else {
      n := 3;
      var s' := s.(owner := Some(ctx(v))).At(r, RelSetFlag(v));
      assert Acts(ctx, s, r, 1) == s';
      assert Acts(ctx, s, r, 2) == s'.(acquired := s.acquired + {v}).At(r, RelResume(v));
    }
  }

  /**
   The lock is never lost: while the list is not empty, either its oldest waiter is
   active, or one releaser is handing over to it and does so in at most three steps.
   */
  lemma {:induction false} LockIsNeverLost(ctx: Waiter -> Context, steps: seq<Step>)
    requires Queue(ctx, steps) != []
    ensures var s, w := After(ctx, steps), Queue(ctx, steps)[0];
            || !s.Pc(w).Queued?
            || exists r, n :: 0 <= n <= 3 && Handing(s.Pc(r)) && s.Pc(r).w == w && Acts(ctx, s, r, n).Pc(w).Holding?
  {
    RefinesFifoLock(ctx, steps);
    var s, q, hand := After(ctx, steps), Queue(ctx, steps), Hand(ctx, steps);
    if s.Pc(q[0]).Queued? {
      var r := hand.value;
      assert WaiterOk(ctx, s, q, hand, r);
      var n := HandOverCompletes(ctx, s, r);
    }
  }

  // ------------------------------------------------------------ the flag's race

  lemma {:induction false} AfterSnoc(ctx: Waiter -> Context, steps: seq<Step>, step: Step)
    ensures After(ctx, steps + [step]) == Next(ctx, After(ctx, steps), step)
  {
    assert (steps + [step])[..|steps|] == steps;
  }

  lemma {:induction false} AfterActs(ctx: Waiter -> Context, steps: seq<Step>, w: Waiter, n: nat)
    ensures After(ctx, steps + seq(n, _ => Act(w, false))) == Acts(ctx, After(ctx, steps), w, n)
  {
    if n == 0 {
      assert steps + seq(n, _ => Act(w, false)) == steps;
    } else {
      AfterActs(ctx, steps, w, n - 1);
      AfterSnoc(ctx, steps + seq(n - 1, _ => Act(w, false)), Act(w, false));
      assert steps + seq(n, _ => Act(w, false)) == steps + seq(n - 1, _ => Act(w, false)) + [Act(w, false)];
    }
  }

  lemma {:induction false} ActsAdd(ctx: Waiter -> Context, s: State, r: Waiter, m: nat, n: nat)
    ensures Acts(ctx, s, r, m + n) == Acts(ctx, Acts(ctx, s, r, m), r, n)
  {
    if n > 0 {
      ActsAdd(ctx, s, r, m, n - 1);
    }
  }

  /** A release by the only waiter, up to finding that it is alone. */
  lemma {:induction false} LoneTest(ctx: Waiter -> Context, s: State, w: Waiter)
    requires s.Pc(w).Holding? && s.head == Some(w) && w !in s.next
    ensures var t := Acts(ctx, Next(ctx, s, Release(w)), w, 2);
            && t == s.(pcs := t.pcs) && t.Pc(w) == RelClearOwner(w)
            && forall v :: v != w ==> t.Pc(v) == s.Pc(v)
  {
    var act, s0 := Act(w, false), s.At(w, RelLoad);
    var s1 := s0.At(w, RelTest(w));
    assert Next(ctx, s, Release(w)) == s0 == Acts(ctx, s0, w, 0);
    assert Next(ctx, s0, act) == s1 == Acts(ctx, s0, w, 1);
    assert Next(ctx, s1, act) == s1.At(w, RelClearOwner(w)) == Acts(ctx, s0, w, 2);
  }

  /** And from there up to the swap. */
  lemma {:induction false} LoneSwap(ctx: Waiter -> Context, s: State, w: Waiter)
    requires s.Pc(w) == RelClearOwner(w) && s.head == Some(w)
    ensures var t := Acts(ctx, s, w, 2);
            && t == s.(head := None, owner := None, pcs := t.pcs) && t.Pc(w) == RelForget(w)
            && forall v :: v != w ==> t.Pc(v) == s.Pc(v)
  {
    var act, s1 := Act(w, false), s.(owner := None).At(w, RelCas(w));
    assert Acts(ctx, s, w, 0) == s;
    assert Next(ctx, s, act) == s1 == Acts(ctx, s, w, 1);
    assert Next(ctx, s1, act) == s1.(head := None).At(w, RelForget(w)) == Acts(ctx, s, w, 2);
  }

  lemma {:induction false} LoneRelease(ctx: Waiter -> Context, s: State, w: Waiter)
    requires s.Pc(w).Holding? && s.head == Some(w) && w !in s.next
    ensures var t := Acts(ctx, Next(ctx, s, Release(w)), w, 4);
            && t.head.None? && t.Pc(w) == RelForget(w) && t.next == s.next && t.acquired == s.acquired
            && forall v :: v != w ==> t.Pc(v) == s.Pc(v)
  {
    var s0 := Next(ctx, s, Release(w));
    var s2 := Acts(ctx, s0, w, 2);
    var s4 := Acts(ctx, s2, w, 2);
    assert s4.head.None? && s4.Pc(w) == RelForget(w) && s4.next == s.next && s4.acquired == s.acquired
           && forall v :: v != w ==> s4.Pc(v) == s.Pc(v) by {
      LoneTest(ctx, s, w);
      LoneSwap(ctx, s2, w);
    }
    ActsAdd(ctx, s0, w, 2, 2);
  }

  /** An acquire of the free lock. */
  lemma {:induction false} FreeAcquire(ctx: Waiter -> Context, s: State, u: Waiter)
    requires s.Pc(u).Idle? && s.head.None? && u !in s.next && u !in s.acquired
    ensures var t := Acts(ctx, Next(ctx, s, AcquireFast(u)), u, 4);
            && t.head == Some(u) && t.Pc(u).Holding? && t.owner == Some(ctx(u)) && t.next == s.next
            && t.acquired == s.acquired + {u}
            && forall v :: v != u ==> t.Pc(v) == s.Pc(v)
  {
    var act, s0 := Act(u, false), s.At(u, FastLoad);
    assert s.next - {u} == s.next;
    var s1 := s0.At(u, FastCas);
    var s2 := s1.(head := Some(u)).At(u, FastStoreOwner);
    var s3 := s2.(owner := Some(ctx(u))).At(u, FastSetFlag);
    assert Next(ctx, s, AcquireFast(u)) == s0 == Acts(ctx, s0, u, 0);
    assert Next(ctx, s0, act) == s1 == Acts(ctx, s0, u, 1);
    assert Next(ctx, s1, act) == s2 == Acts(ctx, s0, u, 2);
    assert Next(ctx, s2, act) == s3 == Acts(ctx, s0, u, 3);
    assert Next(ctx, s3, act) == s3.(acquired := s3.acquired + {u}).At(u, Holding) == Acts(ctx, s0, u, 4);
  }

  function Call(step: Step, n: nat): seq<Step> { [step] + seq(n, _ => Act(step.w, false)) }

  lemma {:induction false} AfterCall(ctx: Waiter -> Context, steps: seq<Step>, step: Step, n: nat)
    ensures After(ctx, steps + Call(step, n)) == Acts(ctx, Next(ctx, After(ctx, steps), step), step.w, n)
  {
    AfterSnoc(ctx, steps, step);
    AfterActs(ctx, steps + [step], step.w, n);
    assert steps + Call(step, n) == steps + [step] + seq(n, _ => Act(step.w, false));
  }

  /**
   The CHECK can fail: wherever `w` holds the lock alone, it may release up to its swap,
   another context `u` takes the lock, and `u` then notifies the continuation of `w`, which
   waits again, before the flag of `w` is cleared.
   */
  lemma {:induction false} EarlyReuseHappens(ctx: Waiter -> Context, steps: seq<Step>, w: Waiter, u: Waiter)
    requires After(ctx, steps).Pc(w).Holding? && Queue(ctx, steps) == [w] && After(ctx, steps).Pc(u).Idle?
    ensures var t := After(ctx, steps + Call(Release(w), 4) + Call(AcquireFast(u), 4));
            && t.Pc(u).Holding? && t.owner == Some(ctx(u))
            && Enabled(t, AcquireSlow(w)) && !ChecksPass(t, AcquireSlow(w))
  {
    RefinesFifoLock(ctx, steps);
    var s := After(ctx, steps);
    assert WaiterOk(ctx, s, [w], Hand(ctx, steps), w) && WaiterOk(ctx, s, [w], Hand(ctx, steps), u);
    ActorIsFront(ctx, s, [w], Hand(ctx, steps), w);
    AfterCall(ctx, steps, Release(w), 4);
    LoneRelease(ctx, s, w);
    AfterCall(ctx, steps + Call(Release(w), 4), AcquireFast(u), 4);
    FreeAcquire(ctx, After(ctx, steps + Call(Release(w), 4)), u);
  }

  /** Joining the queue behind the owner. */
  lemma {:induction false} SlowJoin(ctx: Waiter -> Context, s: State, w: Waiter)
    requires s.Pc(w).Idle? && s.head.Some? && w !in s.next && w !in s.acquired
    ensures var t := Acts(ctx, Next(ctx, s, AcquireSlow(w)), w, 2);
            && t.head == Some(w) && t.next == s.next[w := s.head.value] && t.acquired == s.acquired
            && t.Pc(w).Queued? && forall v :: v != w ==> t.Pc(v) == s.Pc(v)
  {
    var act, s0 := Act(w, false), s.At(w, SlowLoad);
    var s1 := s0.(next := s.next[w := s.head.value]).At(w, SlowLoop);
    assert Next(ctx, s, AcquireSlow(w)) == s0 == Acts(ctx, s0, w, 0);
    assert Next(ctx, s0, act) == s1 == Acts(ctx, s0, w, 1);
    assert Next(ctx, s1, act) == s1.(head := Some(w)).At(w, Queued) == Acts(ctx, s0, w, 2);
  }

  /** A release by `u` with `w` behind it, up to finding that there are others. */
  lemma {:induction false} FindsOthers(ctx: Waiter -> Context, s: State, u: Waiter, w: Waiter)
    requires s.Pc(u).Holding? && s.head == Some(w) && w in s.next
    ensures var t := Acts(ctx, Next(ctx, s, Release(u)), u, 2);
            t == s.(pcs := t.pcs) && t.Pc(u) == RelWalk(w)
  {
    var act, s0 := Act(u, false), s.At(u, RelLoad);
    var s1 := s0.At(u, RelTest(w));
    assert Next(ctx, s, Release(u)) == s0 == Acts(ctx, s0, u, 0);
    assert Next(ctx, s0, act) == s1 == Acts(ctx, s0, u, 1);
    assert Next(ctx, s1, act) == s1.At(u, RelWalk(w)) == Acts(ctx, s0, u, 2);
  }

  /** Up to the cut. */
  lemma {:induction false} FindsSuccessor(ctx: Waiter -> Context, s: State, u: Waiter, w: Waiter)
    requires s.Pc(u) == RelWalk(w) && w in s.next && s.next[w] == u && u !in s.next
    ensures var t := Acts(ctx, s, u, 2);
            t == s.(acquired := s.acquired - {u}, pcs := t.pcs) && t.Pc(u) == RelCut(w)
  {
    var act, s1 := Act(u, false), s.At(u, RelClearFlag(w));
    assert Acts(ctx, s, u, 0) == s;
    assert Next(ctx, s, act) == s1 == Acts(ctx, s, u, 1);
    assert Next(ctx, s1, act) == s1.(acquired := s1.acquired - {u}).At(u, RelCut(w)) == Acts(ctx, s, u, 2);
  }

  /** Up to making `w` the owner. */
  lemma {:induction false} CutsAndStores(ctx: Waiter -> Context, s: State, u: Waiter, w: Waiter)
    requires s.Pc(u) == RelCut(w) && w in s.next
    ensures var t := Acts(ctx, s, u, 2);
            t.head == s.head && t.next == s.next - {w} && t.Pc(u) == RelSetFlag(w)
  {
    var act, s1 := Act(u, false), s.(next := s.next - {w}).At(u, RelStoreOwner(w));
    assert Acts(ctx, s, u, 0) == s;
    assert Next(ctx, s, act) == s1 == Acts(ctx, s, u, 1);
    assert Next(ctx, s1, act) == s1.(owner := Some(ctx(w))).At(u, RelSetFlag(w)) == Acts(ctx, s, u, 2);
  }

  /** Until `w` is resumed. */
  lemma {:induction false} FlagsAndResumes(ctx: Waiter -> Context, s: State, u: Waiter, w: Waiter)
    requires s.Pc(u) == RelSetFlag(w) && u != w
    ensures var t := Acts(ctx, s, u, 2);
            t.head == s.head && t.next == s.next && t.Pc(u).Idle? && t.Pc(w).Holding?
  {
    var act, s1 := Act(u, false), s.(acquired := s.acquired + {w}).At(u, RelResume(w));
    assert Acts(ctx, s, u, 0) == s;
    assert Next(ctx, s, act) == s1 == Acts(ctx, s, u, 1);
    assert Next(ctx, s1, act) == s1.At(u, Idle).At(w, Holding) == Acts(ctx, s, u, 2);
  }

  lemma {:induction false} ReleaseToSuccessor(ctx: Waiter -> Context, s: State, u: Waiter, w: Waiter)
    requires s.Pc(u).Holding? && s.head == Some(w) && w in s.next && s.next[w] == u && u !in s.next
    ensures var t := Acts(ctx, Next(ctx, s, Release(u)), u, 8);
            t.head == Some(w) && t.next == s.next - {w} && t.Pc(u).Idle? && t.Pc(w).Holding?
  {
    var s0 := Next(ctx, s, Release(u));
    var s2 := Acts(ctx, s0, u, 2);
    var s4 := Acts(ctx, s2, u, 2);
    var s6 := Acts(ctx, s4, u, 2);
    var s8 := Acts(ctx, s6, u, 2);
    assert s8.head == Some(w) && s8.next == s.next - {w} && s8.Pc(u).Idle? && s8.Pc(w).Holding? by {
      FindsOthers(ctx, s, u, w);
      FindsSuccessor(ctx, s2, u, w);
      CutsAndStores(ctx, s4, u, w);
      FlagsAndResumes(ctx, s6, u, w);
    }
    EightActs(ctx, s0, u);
  }

  lemma {:induction false} EightActs(ctx: Waiter -> Context, s: State, r: Waiter)
    ensures Acts(ctx, s, r, 8) == Acts(ctx, Acts(ctx, Acts(ctx, Acts(ctx, s, r, 2), r, 2), r, 2), r, 2)
  {
    ActsAdd(ctx, s, r, 2, 6);
    ActsAdd(ctx, Acts(ctx, s, r, 2), r, 2, 4);
    ActsAdd(ctx, Acts(ctx, Acts(ctx, s, r, 2), r, 2), r, 2, 2);
  }

  /** `u` takes the free lock, notifies `w`, which joins behind it, and releases: now `w` holds the lock alone. */
  function WokenRun(u: Waiter, w: Waiter): seq<Step> {
    Call(AcquireFast(u), 4) + Call(AcquireSlow(w), 2) + Call(Release(u), 8)
  }

  lemma {:induction false} WokenHoldsAlone(ctx: Waiter -> Context, w: Waiter, u: Waiter)
    requires w != u
    ensures var s := After(ctx, WokenRun(u, w));
            s.Pc(w).Holding? && s.Pc(u).Idle? && Queue(ctx, WokenRun(u, w)) == [w]
  {
    var one := Call(AcquireFast(u), 4);
    var two := one + Call(AcquireSlow(w), 2);
    assert [] + one == one;
    AfterCall(ctx, [], AcquireFast(u), 4);
    FreeAcquire(ctx, INIT, u);
    AfterCall(ctx, one, AcquireSlow(w), 2);
    SlowJoin(ctx, After(ctx, one), w);
    AfterCall(ctx, two, Release(u), 8);
    ReleaseToSuccessor(ctx, After(ctx, two), u, w);
    var s := After(ctx, WokenRun(u, w));
    assert s.next == map[] && IsChain(s.next, s.head, [w]);
    ListIsQueue(ctx, WokenRun(u, w), [w]);
  }

  /**
   A run from the start that ends in the failing CHECK: the notified `w` finds its
   condition unmet and waits again, and `u` notifies it a second time too early.
   */
  lemma {:induction false} EarlyReuseFromStart(ctx: Waiter -> Context, w: Waiter, u: Waiter)
    requires w != u
    ensures var t := After(ctx, WokenRun(u, w) + Call(Release(w), 4) + Call(AcquireFast(u), 4));
            t.Pc(u).Holding? && Enabled(t, AcquireSlow(w)) && !ChecksPass(t, AcquireSlow(w))
  {
    WokenHoldsAlone(ctx, w, u);
    EarlyReuseHappens(ctx, WokenRun(u, w), w, u);
  }

  lemma {:induction false} HistoryPrefix(ctx: Waiter -> Context, steps: seq<Step>, k: nat)
    requires k <= |steps|
    ensures |History(ctx, steps)| == |steps|
    ensures History(ctx, steps)[..k] == History(ctx, steps[..k])
    decreases |steps|
  {
    if k == |steps| {
      assert steps[..k] == steps;
      if steps != [] {
        HistoryPrefix(ctx, steps[..|steps| - 1], 0);
      }
    } else {
      var before := steps[..|steps| - 1];
      HistoryPrefix(ctx, before, k);
      assert before[..k] == steps[..k];
    }
  }

  /**
   First come, first served over any run: a waiter that has `k` others ahead of it at
   some point cannot hold the lock before `k` further releases, and it is at the front
   of the queue after exactly `k` of them.
   */
  lemma {:induction false} ServedInOrder(ctx: Waiter -> Context, steps: seq<Step>, more: seq<Step>, k: nat)
    ensures k < |Queue(ctx, steps)| ==>
              var w := Queue(ctx, steps)[k];
              var d := FifoLock.Leaves(History(ctx, steps + more)) - FifoLock.Leaves(History(ctx, steps));
              && d >= 0
              && (d < k ==> !After(ctx, steps + more).Pc(w).Holding?)
              && (d == k ==> Queue(ctx, steps + more) != [] && Queue(ctx, steps + more)[0] == w)
  {
    assert (steps + more)[..|steps|] == steps;
    HistoryPrefix(ctx, steps + more, |steps|);
    if k < |Queue(ctx, steps)| {
      var h, h' := History(ctx, steps), History(ctx, steps + more);
      var tail := h'[|steps|..];
      assert h' == h + tail;
      RefinesFifoLock(ctx, steps);
      RefinesFifoLock(ctx, steps + more);
      FifoLock.ApplyAllConcat([], h, tail);
      var q, q' := Queue(ctx, steps), Queue(ctx, steps + more);
      var d := FifoLock.Leaves(tail);
      if d <= k {
        FifoLock.OwnsAfterExactlyKReleases(q, tail, k);
        if d < k && After(ctx, steps + more).Pc(q[k]).Holding? {
          HolderOwnsLock(ctx, steps + more, q[k]);
          assert false;
        }
      }
    }
  }
}
