/**
 Progress of `Lock`: whatever state an interleaving has led to, an acquire and a release
 each come to their end in a bounded number of their own steps once nobody interferes and
 no swap fails spuriously.
 */
module LockProgress {
  import opened Options
  import opened Chains
  import opened LockProtocol
  import FifoLock

  lemma {:induction false} ActsFirst(ctx: Waiter -> Context, s: State, w: Waiter, n: nat)
    ensures Acts(ctx, s, w, 1 + n) == Acts(ctx, Next(ctx, s, Act(w, false)), w, n)
  {
    assert Acts(ctx, s, w, 0) == s && Acts(ctx, s, w, 1) == Next(ctx, s, Act(w, false));
    ActsAdd(ctx, s, w, 1, n);
  }

  // ------------------------------------------------------------ release

  /** In `Release` and still in the list. */
  predicate Searching(p: Pc) {
    p.RelLoad? || p.RelTest? || p.RelClearOwner? || p.RelCas? || p.RelWalk? || p.RelClearFlag? || p.RelCut?
  }

  /** How many steps are left until the waiter is out of the list. */
  ghost function Rank(q: seq<Waiter>, p: Pc): nat
    requires q != [] && ReleaseLocals(q, p)
  {
    match p
    case RelCut(_) => 1
    case RelClearFlag(_) => 2
    case RelWalk(v) => 2 + IndexOf(q, v)
    case RelTest(v) => if v != q[0] then 3 + IndexOf(q, v) else if |q| == 1 then 3 else 6 + |q|
    case RelLoad => if |q| == 1 then 4 else 3 + |q|
    case RelCas(_) => if |q| == 1 then 1 else 4 + |q|
    case RelClearOwner(_) => if |q| == 1 then 2 else 5 + |q|
    case _ => 0
  }

  lemma {:induction false} IndexOfLast(q: seq<Waiter>)
    requires q != []
    ensures IndexOf(q, q[|q| - 1]) <= |q| - 1
  {
  }

  /** The last step of the search: the waiter leaves the list. */
  predicate Leaving(q: seq<Waiter>, p: Pc) { p.RelCut? || (p.RelCas? && |q| == 1) }

  lemma {:induction false} SearchIsFront(ctx: Waiter -> Context, s: State, q: seq<Waiter>, hand: Option<Waiter>,
                                         w: Waiter)
    requires Inv(ctx, s, q, hand) && Searching(s.Pc(w))
    ensures q != [] && q[0] == w && hand.None? && ReleaseLocals(q, s.Pc(w))
    ensures Enabled(s, Act(w, false)) && ChecksPass(s, Act(w, false))
  {
    ActorIsFront(ctx, s, q, hand, w);
    assert WaiterOk(ctx, s, q, hand, w);
    ChecksHold(ctx, s, q, hand, Act(w, false));
  }

  lemma {:induction false} SearchMoves(ctx: Waiter -> Context, s: State, q: seq<Waiter>, hand: Option<Waiter>,
                                       w: Waiter)
    requires Inv(ctx, s, q, hand) && Searching(s.Pc(w)) && !Leaving(q, s.Pc(w))
    ensures var s' := Next(ctx, s, Act(w, false));
            && Inv(ctx, s', q, hand) && Searching(s'.Pc(w)) && q != [] && ReleaseLocals(q, s'.Pc(w))
            && q[0] == w && ReleaseLocals(q, s.Pc(w))
            && Rank(q, s'.Pc(w)) < Rank(q, s.Pc(w))
  {
    SearchIsFront(ctx, s, q, hand, w);
    var p, s' := s.Pc(w), Next(ctx, s, Act(w, false));
    StepSimulates(ctx, s, q, hand, Act(w, false));
    assert p.RelCas? ==> s.head != Some(p.w);
    assert EventOf(s, Act(w, false)).Stutter?;
    assert WaiterOk(ctx, s', q, hand, w);
    if p.RelWalk? || (p.RelTest? && p.w != q[0]) {
      IndexInChain(s.next, s.head, q, p.w);
    }
    IndexOfLast(q);
  }

  /** `w` has just left the queue, which is `r` now. */
  ghost predicate HasLeft(ctx: Waiter -> Context, t: State, r: seq<Waiter>, w: Waiter) {
    && Inv(ctx, t, r, if r == [] then None else Some(w))
    && t.Pc(w) == if r == [] then RelForget(w) else RelStoreOwner(r[0])
  }

  lemma {:induction false} SearchLeaves(ctx: Waiter -> Context, s: State, q: seq<Waiter>, hand: Option<Waiter>,
                                        w: Waiter)
    requires Inv(ctx, s, q, hand) && Searching(s.Pc(w)) && Leaving(q, s.Pc(w))
    ensures q != [] && HasLeft(ctx, Next(ctx, s, Act(w, false)), q[1..], w)
  {
    SearchIsFront(ctx, s, q, hand, w);
    StepSimulates(ctx, s, q, hand, Act(w, false));
    if |q| == 1 {
      assert q[1..] == [];
    }
  }

  /** Alone, the releaser is out of the list after at most as many steps as its rank. */
  lemma {:induction false} LeavesList(ctx: Waiter -> Context, s: State, q: seq<Waiter>, hand: Option<Waiter>, w: Waiter,
                                      r: seq<Waiter>)
    returns (n: nat, t: State)
    requires Inv(ctx, s, q, hand) && Searching(s.Pc(w)) && q != [] && ReleaseLocals(q, s.Pc(w)) && r == q[1..]
    ensures n <= Rank(q, s.Pc(w)) && t == Acts(ctx, s, w, n) && HasLeft(ctx, t, r, w)
    decreases Rank(q, s.Pc(w))
  {
    if Leaving(q, s.Pc(w)) {
      LeavesAtOnce(ctx, s, q, hand, w);
      n, t := 1, Acts(ctx, s, w, 1);
    } else {
      var m: nat;
      SearchMoves(ctx, s, q, hand, w);
      m, t := LeavesList(ctx, Next(ctx, s, Act(w, false)), q, hand, w, r);
      ActsFirst(ctx, s, w, m);
      n := 1 + m;
    }
  }

  lemma {:induction false} LeavesAtOnce(ctx: Waiter -> Context, s: State, q: seq<Waiter>, hand: Option<Waiter>,
                                        w: Waiter)
    requires Inv(ctx, s, q, hand) && Searching(s.Pc(w)) && Leaving(q, s.Pc(w))
    requires q != [] && ReleaseLocals(q, s.Pc(w))
    ensures Rank(q, s.Pc(w)) >= 1 && HasLeft(ctx, Acts(ctx, s, w, 1), q[1..], w)
  {
    RankBound(q, s.Pc(w));
    SearchLeaves(ctx, s, q, hand, w);
    ActsFirst(ctx, s, w, 0);
  }

  lemma {:induction false} RankBound(q: seq<Waiter>, p: Pc)
    requires q != [] && ReleaseLocals(q, p) && Searching(p)
    ensures 1 <= Rank(q, p) <= |q| + 6
  {
  }

  function HandRank(p: Pc): nat {
    if p.RelStoreOwner? then 3 else if p.RelSetFlag? then 2 else 1
  }

  lemma {:induction false} HandStep(ctx: Waiter -> Context, s: State, q: seq<Waiter>, hand: Option<Waiter>, w: Waiter)
    requires Inv(ctx, s, q, hand) && Handing(s.Pc(w))
    ensures var s' := Next(ctx, s, Act(w, false));
            && q != [] && Inv(ctx, s', q, if s.Pc(w).RelResume? then None else hand)
            && (s.Pc(w).RelResume? ==> s'.Pc(w).Idle? && s'.Pc(q[0]).Holding?)
            && (!s.Pc(w).RelResume? ==> Handing(s'.Pc(w)) && HandRank(s'.Pc(w)) == HandRank(s.Pc(w)) - 1)
  {
    assert WaiterOk(ctx, s, q, hand, w);
    StepSimulates(ctx, s, q, hand, Act(w, false));
    assert s.Pc(w).w == q[0] && WaiterOk(ctx, s, q, hand, q[0]);
  }

  /** A hand-over ends with the front of the queue holding the lock. */
  lemma {:induction false} HandsOver(ctx: Waiter -> Context, s: State, q: seq<Waiter>, hand: Option<Waiter>, w: Waiter)
    requires Inv(ctx, s, q, hand) && Handing(s.Pc(w))
    ensures var t := Acts(ctx, s, w, HandRank(s.Pc(w)));
            q != [] && Inv(ctx, t, q, None) && t.Pc(w).Idle? && t.Pc(q[0]).Holding?
    decreases HandRank(s.Pc(w))
  {
    HandStep(ctx, s, q, hand, w);
    ActsFirst(ctx, s, w, HandRank(s.Pc(w)) - 1);
    if !s.Pc(w).RelResume? {
      HandsOver(ctx, Next(ctx, s, Act(w, false)), q, hand, w);
    }
  }

  lemma {:induction false} Forgets(ctx: Waiter -> Context, s: State, q: seq<Waiter>, hand: Option<Waiter>, w: Waiter)
    requires Inv(ctx, s, q, hand) && s.Pc(w).RelForget?
    ensures var t := Acts(ctx, s, w, 1); Inv(ctx, t, q, hand) && t.Pc(w).Idle?
  {
    StepSimulates(ctx, s, q, hand, Act(w, false));
    ActsFirst(ctx, s, w, 0);
  }

  /** The queue without a releaser that is still in it. */
  function Rest(q: seq<Waiter>, p: Pc): seq<Waiter> { if Searching(p) && q != [] then q[1..] else q }

  /** Out of the list, a release has one step left, or three to hand over. */
  lemma {:induction false} OutOfList(ctx: Waiter -> Context, s: State, q: seq<Waiter>, w: Waiter)
    returns (n: nat, t: State)
    requires HasLeft(ctx, s, q, w)
    ensures n <= 3 && t == Acts(ctx, s, w, n)
    ensures Inv(ctx, t, q, None) && t.Pc(w).Idle? && (q != [] ==> t.Pc(q[0]).Holding?)
  {
    if q == [] {
      Forgets(ctx, s, q, None, w);
      n, t := 1, Acts(ctx, s, w, 1);
    } else {
      HandsOver(ctx, s, q, Some(w), w);
      n, t := 3, Acts(ctx, s, w, 3);
    }
  }

  lemma {:induction false} SearchEnds(ctx: Waiter -> Context, s: State, q: seq<Waiter>, hand: Option<Waiter>, w: Waiter,
                                      r: seq<Waiter>)
    returns (n: nat, t: State)
    requires Inv(ctx, s, q, hand) && Searching(s.Pc(w)) && q != [] && ReleaseLocals(q, s.Pc(w)) && r == q[1..]
    ensures n <= Rank(q, s.Pc(w)) + 3 && t == Acts(ctx, s, w, n)
    ensures Inv(ctx, t, r, None) && t.Pc(w).Idle? && (r != [] ==> t.Pc(r[0]).Holding?)
  {
    var m, u := LeavesList(ctx, s, q, hand, w, r);
    n, t := OutOfList(ctx, u, r, w);
    n := Chained(ctx, s, w, m, u, n, t);
  }

  lemma {:induction false} Chained(ctx: Waiter -> Context, s: State, w: Waiter, m: nat, u: State, k: nat, v: State)
    returns (n: nat)
    requires u == Acts(ctx, s, w, m) && v == Acts(ctx, u, w, k)
    ensures n == m + k && v == Acts(ctx, s, w, n)
  {
    ActsAdd(ctx, s, w, m, k);
    n := m + k;
  }

  /** From anywhere in `Release`: out of the list, and whoever is next in it holds the lock. */
  lemma {:induction false} ReleaseEnds(ctx: Waiter -> Context, s: State, q: seq<Waiter>, hand: Option<Waiter>,
                                       w: Waiter)
    returns (n: nat, t: State)
    requires Inv(ctx, s, q, hand) && (Searching(s.Pc(w)) || Handing(s.Pc(w)))
    ensures n <= |q| + 9 && t == Acts(ctx, s, w, n)
    ensures var r := Rest(q, s.Pc(w));
            q != [] && Inv(ctx, t, r, None) && t.Pc(w).Idle? && (r != [] ==> t.Pc(r[0]).Holding?)
  {
    if Handing(s.Pc(w)) {
      HandsOver(ctx, s, q, hand, w);
      n := HandRank(s.Pc(w));
      t := Acts(ctx, s, w, n);
    } else {
      SearchIsFront(ctx, s, q, hand, w);
      RankBound(q, s.Pc(w));
      n, t := SearchEnds(ctx, s, q, hand, w, q[1..]);
    }
  }

  // ------------------------------------------------------------ acquire

  predicate Acquiring(p: Pc) {
    p.FastLoad? || p.FastCas? || p.FastStoreOwner? || p.FastSetFlag? || p.FastGiveUp? || p.SlowLoad? || p.SlowLoop?
  }

  /** How many steps are left of an acquire. */
  function AcquireRank(s: State, w: Waiter): nat {
    match s.Pc(w)
    case FastSetFlag => 1
    case FastStoreOwner => 2
    case FastCas => if s.head.None? then 3 else 4
    case FastLoad => 4
    case FastGiveUp => if s.head.None? then 7 else 3
    case SlowLoad => if s.head.None? then 6 else 2
    case SlowLoop =>
      if w !in s.next then 5 else if s.head.None? then 6 else if s.head == Some(s.next[w]) then 1 else 2
    case _ => 0
  }

  function Joined(q: seq<Waiter>, w: Waiter): seq<Waiter> { if w in q then q else q + [w] }

  /** The waiter's acquire has come to its end. */
  predicate Acquired(p: Pc) { p.Queued? || p.Holding? }

  lemma {:induction false} AcquireInv(ctx: Waiter -> Context, s: State, q: seq<Waiter>, hand: Option<Waiter>, w: Waiter)
    requires Inv(ctx, s, q, hand) && Acquiring(s.Pc(w))
    ensures Enabled(s, Act(w, false)) && ChecksPass(s, Act(w, false))
    ensures var e := EventOf(s, Act(w, false));
            && (e == FifoLock.Join(w) || e.Stutter?) && FifoLock.Allowed(q, e)
            && Inv(ctx, Next(ctx, s, Act(w, false)), FifoLock.Apply(q, e), hand)
    ensures Unlinked(s.Pc(w)) ==> w !in s.next
    ensures InList(s.Pc(w)) <==> w in q
  {
    assert WaiterOk(ctx, s, q, hand, w);
    ChecksHold(ctx, s, q, hand, Act(w, false));
    StepSimulates(ctx, s, q, hand, Act(w, false));
  }

  lemma {:induction false} FastMoves(ctx: Waiter -> Context, s: State, w: Waiter)
    requires Enabled(s, Act(w, false)) && ChecksPass(s, Act(w, false)) && (Unlinked(s.Pc(w)) ==> w !in s.next)
    requires Acquiring(s.Pc(w)) && !s.Pc(w).SlowLoad? && !s.Pc(w).SlowLoop?
    ensures var s' := Next(ctx, s, Act(w, false));
            Acquired(s'.Pc(w)) || (Acquiring(s'.Pc(w)) && AcquireRank(s', w) < AcquireRank(s, w))
    ensures AcquireRank(s, w) >= 1
  {
  }

  lemma {:induction false} SlowMoves(ctx: Waiter -> Context, s: State, w: Waiter)
    requires Enabled(s, Act(w, false)) && ChecksPass(s, Act(w, false))
    requires s.Pc(w).SlowLoad? || s.Pc(w).SlowLoop?
    ensures var s' := Next(ctx, s, Act(w, false));
            Acquired(s'.Pc(w)) || (Acquiring(s'.Pc(w)) && AcquireRank(s', w) < AcquireRank(s, w))
    ensures AcquireRank(s, w) >= 1
  {
  }

  lemma {:induction false} AcquireMoves(ctx: Waiter -> Context, s: State, q: seq<Waiter>, hand: Option<Waiter>,
                                        w: Waiter) returns (q': seq<Waiter>)
    requires Inv(ctx, s, q, hand) && Acquiring(s.Pc(w))
    ensures var s' := Next(ctx, s, Act(w, false));
            && Inv(ctx, s', q', hand) && Joined(q', w) == Joined(q, w)
            && (Acquired(s'.Pc(w)) || (Acquiring(s'.Pc(w)) && AcquireRank(s', w) < AcquireRank(s, w)))
            && (Acquired(s'.Pc(w)) ==> AcquireRank(s', w) == 0)
    ensures 1 <= AcquireRank(s, w) <= 7
  {
    AcquireInv(ctx, s, q, hand, w);
    q' := FifoLock.Apply(q, EventOf(s, Act(w, false)));
    if s.Pc(w).SlowLoad? || s.Pc(w).SlowLoop? {
      SlowMoves(ctx, s, w);
    } else {
      FastMoves(ctx, s, w);
    }
  }

  lemma {:induction false} AcquireEnds(ctx: Waiter -> Context, s: State, q: seq<Waiter>, hand: Option<Waiter>,
                                       w: Waiter)
    returns (n: nat)
    requires Inv(ctx, s, q, hand) && (Acquiring(s.Pc(w)) || Acquired(s.Pc(w)))
    ensures n <= AcquireRank(s, w) <= 7
    ensures var t := Acts(ctx, s, w, n);
            Inv(ctx, t, Joined(q, w), hand) && Acquired(t.Pc(w))
    decreases if Acquiring(s.Pc(w)) then 1 + AcquireRank(s, w) else 0
  {
    if Acquired(s.Pc(w)) {
      assert WaiterOk(ctx, s, q, hand, w);
      n := 0;
    } else {
      var q' := AcquireMoves(ctx, s, q, hand, w);
      var m := AcquireEnds(ctx, Next(ctx, s, Act(w, false)), q', hand, w);
      ActsFirst(ctx, s, w, m);
      n := 1 + m;
    }
  }

  // ------------------------------------------------------------ whole runs

  /** The run goes on with `n` steps of `w` alone. */
  function Alone(steps: seq<Step>, w: Waiter, n: nat): seq<Step> { steps + seq(n, _ => Act(w, false)) }

  lemma {:induction false} QueueIs(ctx: Waiter -> Context, steps: seq<Step>, q: seq<Waiter>, hand: Option<Waiter>)
    requires Inv(ctx, After(ctx, steps), q, hand)
    ensures Queue(ctx, steps) == q
  {
    ListIsQueue(ctx, steps, q);
  }

  /**
   Wherever in `Release` an interleaving has left `w`, a swap lost to a newcomer included,
   at most |queue| + 9 steps of its own take it out of the queue and, if there is another
   waiter, leave the next one holding the lock.
   */
  lemma {:induction false} ReleaseCompletes(ctx: Waiter -> Context, steps: seq<Step>, w: Waiter) returns (n: nat)
    requires var p := After(ctx, steps).Pc(w); Searching(p) || Handing(p)
    ensures n <= |Queue(ctx, steps)| + 9
    ensures var t, q, q' := After(ctx, Alone(steps, w, n)), Queue(ctx, steps), Queue(ctx, Alone(steps, w, n));
            && q' == (if w in q then q[1..] else q) && w !in q' && t.Pc(w).Idle?
            && (q' != [] ==> t.Pc(q'[0]).Holding?)
  {
    RefinesFifoLock(ctx, steps);
    var s, q, hand := After(ctx, steps), Queue(ctx, steps), Hand(ctx, steps);
    assert WaiterOk(ctx, s, q, hand, w);
    var t: State;
    n, t := ReleaseEnds(ctx, s, q, hand, w);
    AfterActs(ctx, steps, w, n);
    var r := Rest(q, s.Pc(w));
    QueueIs(ctx, Alone(steps, w, n), r, None);
    assert WaiterOk(ctx, t, r, None, w);
  }

  /**
   Wherever in an acquire an interleaving has left `w`, at most 7 steps of its own bring it
   into the queue, behind whoever was there, and to owning the lock if nobody was.
   */
  lemma {:induction false} AcquireCompletes(ctx: Waiter -> Context, steps: seq<Step>, w: Waiter) returns (n: nat)
    requires Acquiring(After(ctx, steps).Pc(w))
    ensures n <= 7
    ensures var t, q, q' := After(ctx, Alone(steps, w, n)), Queue(ctx, steps), Queue(ctx, Alone(steps, w, n));
            && q' == (if w in q then q else q + [w])
            && (if q'[0] == w then t.Pc(w).Holding? else t.Pc(w).Queued?)
  {
    RefinesFifoLock(ctx, steps);
    var s, q, hand := After(ctx, steps), Queue(ctx, steps), Hand(ctx, steps);
    assert WaiterOk(ctx, s, q, hand, w);
    n := AcquireEnds(ctx, s, q, hand, w);
    AfterActs(ctx, steps, w, n);
    QueueIs(ctx, Alone(steps, w, n), Joined(q, w), hand);
    assert WaiterOk(ctx, Acts(ctx, s, w, n), Joined(q, w), hand, w);
  }
}
