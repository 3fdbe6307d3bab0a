/**
 Progress of `Submit` and of its consumer: alone and without spurious failures a submitter
 lands its push, and the consumer takes and runs the oldest job, in a bounded number of
 steps from wherever an interleaving has left them.
 */
module SubmitProgress {
  import opened Options
  import opened Chains
  import opened SubmitQueue

  lemma {:induction false} AfterSnoc(kind: Kind, steps: seq<Step>, step: Step)
    ensures After(kind, steps + [step]) == Next(kind, After(kind, steps), step)
    ensures Queue(kind, steps + [step]) == QueueAfter(kind, After(kind, steps), Queue(kind, steps), step)
  {
    assert (steps + [step])[..|steps|] == steps;
  }

  // ------------------------------------------------------------ the submitter

  /** What a submitter still has to do: load the head, then swap, and swap again if the head has moved. */
  function Pushing(c: Context): seq<Step> { [Load(c)] + [Push(c, false)] + [Push(c, false)] }

  predicate Fresh(s: State, c: Context) { c in s.submitting && s.submitting[c] && s.head == s.Expected(c) }

  lemma {:induction false} LoadFreshens(kind: Kind, s: State, c: Context)
    requires c in s.submitting && !s.submitting[c]
    ensures var t := Next(kind, s, Load(c)); Fresh(t, c) && t.pushed == s.pushed && t.callbacks == s.callbacks
  {
  }

  lemma {:induction false} PushLandsOrFreshens(kind: Kind, s: State, c: Context)
    requires c in s.submitting && s.submitting[c] && c in s.callbacks
    ensures var t := Next(kind, s, Push(c, false));
            && t.callbacks == s.callbacks
            && if Fresh(s, c) then c !in t.submitting && t.pushed == s.pushed + [Job(c, s.callbacks[c])]
               else Fresh(t, c) && t.pushed == s.pushed
  {
  }

  /** A submitter that goes on alone has its job pushed, once, and is done. */
  lemma {:induction false} PushLands(kind: Kind, steps: seq<Step>, c: Context)
    requires c in After(kind, steps).submitting
    ensures var s, t := After(kind, steps), After(kind, steps + Pushing(c));
            c !in t.submitting && c in s.callbacks && t.pushed == s.pushed + [Job(c, s.callbacks[c])]
  {
    RunKeepsInv(kind, steps);
    var s := After(kind, steps);
    assert ContextOk(s, Queue(kind, steps), c);
    AfterSnoc(kind, steps, Load(c));
    AfterSnoc(kind, steps + [Load(c)], Push(c, false));
    AfterSnoc(kind, steps + [Load(c)] + [Push(c, false)], Push(c, false));
    assert steps + Pushing(c) == steps + [Load(c)] + [Push(c, false)] + [Push(c, false)];
    var s1 := Next(kind, s, Load(c));
    if !s.submitting[c] {
      LoadFreshens(kind, s, c);
    } else {
      assert s1 == s;
    }
    PushLandsOrFreshens(kind, s1, c);
    var s2 := Next(kind, s1, Push(c, false));
    if c in s2.submitting {
      PushLandsOrFreshens(kind, s2, c);
    } else {
      assert Next(kind, s2, Push(c, false)) == s2;
    }
  }

  // ------------------------------------------------------------ the consumer

  /** `n` steps of the consumer alone. */
  function Consumes(kind: Kind, s: State, n: nat): State {
    if n == 0 then s else Next(kind, Consumes(kind, s, n - 1), Consume(false))
  }

  lemma {:induction false} ConsumesAdd(kind: Kind, s: State, m: nat, n: nat)
    ensures Consumes(kind, s, m + n) == Consumes(kind, Consumes(kind, s, m), n)
  {
    if n > 0 {
      ConsumesAdd(kind, s, m, n - 1);
      var t := Consumes(kind, s, m + (n - 1));
      assert Consumes(kind, s, m + n) == Next(kind, t, Consume(false));
    }
  }

  lemma {:induction false} ConsumesFirst(kind: Kind, s: State, n: nat)
    ensures Consumes(kind, s, 1 + n) == Consumes(kind, Next(kind, s, Consume(false)), n)
  {
    assert Consumes(kind, s, 0) == s && Consumes(kind, s, 1) == Next(kind, s, Consume(false));
    ConsumesAdd(kind, s, 1, n);
  }

  /** How many steps are left until the oldest job is in the consumer's hand. */
  ghost function Rank(q: seq<Context>, p: Pc): nat
    requires q != [] && ConsumerOk(q, p)
  {
    match p
    case Cutting(_) => 1
    case Walking(w) => 1 + IndexOf(q, w)
    case Testing(w) => if w != q[0] then 2 + IndexOf(q, w) else if |q| == 1 then 2 else 4 + |q|
    case Loading => if |q| == 1 then 3 else 2 + |q|
    case Swapping(_) => if |q| == 1 then 1 else 3 + |q|
    case _ => 0
  }

  lemma {:induction false} RankBound(q: seq<Context>, p: Pc)
    requires q != [] && ConsumerOk(q, p) && Awake(p)
    ensures 1 <= Rank(q, p) <= |q| + 4
  {
  }

  lemma {:induction false} SearchMoves(kind: Kind, s: State, q: seq<Context>)
    requires Inv(kind, s, q) && Awake(s.pc) && q != [] && !Takes(s, false)
    ensures var s' := Next(kind, s, Consume(false));
            && Inv(kind, s', q) && Awake(s'.pc) && Rank(q, s'.pc) < Rank(q, s.pc)
            && s' == s.(pc := s'.pc)
  {
    ChecksHold(kind, s, q, Consume(false));
    StepPreserves(kind, s, q, Consume(false));
    var p := s.pc;
    SearchKeepsPointer(kind, s, q, Consume(false));
    assert p.Swapping? ==> |q| > 1;
    if p.Walking? || (p.Testing? && p.w != q[0]) {
      IndexInChain(s.next, s.head, q, p.w);
    }
  }

  lemma {:induction false} SearchTakes(kind: Kind, s: State, q: seq<Context>)
    requires Inv(kind, s, q) && Awake(s.pc) && q != [] && Takes(s, false)
    ensures var s' := Next(kind, s, Consume(false));
            && Inv(kind, s', q[1..]) && s'.pc == Taken(q[0]) && s'.ran == s.ran && s'.callbacks == s.callbacks
  {
    ChecksHold(kind, s, q, Consume(false));
    StepPreserves(kind, s, q, Consume(false));
  }

  /** With a job in hand, two steps run it. */
  lemma {:induction false} RunsInHand(kind: Kind, s: State, q: seq<Context>) returns (t: State)
    requires Inv(kind, s, q) && s.pc.Taken?
    ensures t == Next(kind, Next(kind, s, Consume(false)), Consume(false))
    ensures Inv(kind, t, q) && t.pc.Running? && t.ran == s.ran + [JobOf(s, s.pc.w)]
  {
    ChecksHold(kind, s, q, Consume(false));
    StepPreserves(kind, s, q, Consume(false));
    var s1 := Next(kind, s, Consume(false));
    ChecksHold(kind, s1, q, Consume(false));
    StepPreserves(kind, s1, q, Consume(false));
    t := Next(kind, s1, Consume(false));
  }

  lemma {:induction false} ThreeSteps(kind: Kind, s: State, s1: State, t: State)
    requires s1 == Next(kind, s, Consume(false))
    requires t == Next(kind, Next(kind, s1, Consume(false)), Consume(false))
    ensures t == Consumes(kind, s, 3)
  {
    ConsumesFirst(kind, s, 2);
    ConsumesFirst(kind, s1, 1);
    ConsumesFirst(kind, Next(kind, s1, Consume(false)), 0);
  }

  /** `s` runs the oldest job of `q` on its way to `t` and leaves `r`. */
  ghost predicate RanOldest(kind: Kind, s: State, q: seq<Context>, t: State, r: seq<Context>)
    requires q != []
  {
    Inv(kind, t, r) && t.pc.Running? && t.ran == s.ran + [JobOf(s, q[0])]
  }

  lemma {:induction false} TakeAndRun(kind: Kind, s: State, q: seq<Context>, r: seq<Context>)
    returns (n: nat, t: State)
    requires Inv(kind, s, q) && Awake(s.pc) && q != [] && r == q[1..] && Takes(s, false)
    ensures n <= 3 && t == Consumes(kind, s, n) && RanOldest(kind, s, q, t, r)
  {
    SearchTakes(kind, s, q);
    var s1 := Next(kind, s, Consume(false));
    assert JobOf(s1, q[0]) == JobOf(s, q[0]);
    t := RunsInHand(kind, s1, r);
    ThreeSteps(kind, s, s1, t);
    n := 3;
  }

  /** The search ends where the next step takes the oldest node; nothing else has changed by then. */
  lemma {:induction false} FindsOldest(kind: Kind, s: State, q: seq<Context>) returns (n: nat, t: State)
    requires Inv(kind, s, q) && Awake(s.pc) && q != []
    ensures n <= Rank(q, s.pc) && t == Consumes(kind, s, n)
    ensures t == s.(pc := t.pc) && Inv(kind, t, q) && Awake(t.pc) && Takes(t, false)
    decreases Rank(q, s.pc)
  {
    if Takes(s, false) {
      n, t := 0, s;
    } else {
      var m: nat;
      SearchMoves(kind, s, q);
      m, t := FindsOldest(kind, Next(kind, s, Consume(false)), q);
      ConsumesFirst(kind, s, m);
      n := 1 + m;
    }
  }

  lemma {:induction false} RunsOne(kind: Kind, s: State, q: seq<Context>, r: seq<Context>) returns (n: nat, t: State)
    requires Inv(kind, s, q) && Awake(s.pc) && q != [] && r == q[1..]
    ensures n <= |q| + 7 && t == Consumes(kind, s, n) && RanOldest(kind, s, q, t, r)
  {
    var m, u := FindsOldest(kind, s, q);
    n, t := TakeAndRun(kind, u, q, r);
    n := Chained(kind, s, m, u, n, t);
    RankBound(q, s.pc);
    SameOldest(kind, s, u, q, t, r);
  }

  lemma {:induction false} Chained(kind: Kind, s: State, m: nat, u: State, k: nat, v: State) returns (n: nat)
    requires u == Consumes(kind, s, m) && v == Consumes(kind, u, k)
    ensures n == m + k && v == Consumes(kind, s, n)
  {
    ConsumesAdd(kind, s, m, k);
    n := m + k;
  }

  lemma {:induction false} SameOldest(kind: Kind, s: State, u: State, q: seq<Context>, t: State, r: seq<Context>)
    requires q != [] && u == s.(pc := u.pc) && RanOldest(kind, u, q, t, r)
    ensures RanOldest(kind, s, q, t, r)
  {
    assert JobOf(u, q[0]) == JobOf(s, q[0]);
  }

  // ------------------------------------------------------------ whole runs

  /** The run goes on with `n` steps of the consumer alone. */
  function Alone(steps: seq<Step>, n: nat): seq<Step> { steps + seq(n, _ => Consume(false)) }

  lemma {:induction false} AfterConsumes(kind: Kind, steps: seq<Step>, n: nat)
    ensures After(kind, Alone(steps, n)) == Consumes(kind, After(kind, steps), n)
  {
    if n == 0 {
      assert Alone(steps, n) == steps;
    } else {
      AfterConsumes(kind, steps, n - 1);
      AfterSnoc(kind, Alone(steps, n - 1), Consume(false));
      assert Alone(steps, n) == Alone(steps, n - 1) + [Consume(false)];
    }
  }

  lemma {:induction false} QueueIs(kind: Kind, steps: seq<Step>, q: seq<Context>)
    requires Inv(kind, After(kind, steps), q)
    ensures Queue(kind, steps) == q
  {
    RunKeepsInv(kind, steps);
    ChainUnique(After(kind, steps).next, After(kind, steps).head, q, Queue(kind, steps));
  }

  /**
   Wherever a woken consumer is, a swap lost to a newcomer included, at most |list| + 7 steps
   of its own run exactly the oldest job.
   */
  lemma {:induction false} RunsOldest(kind: Kind, steps: seq<Step>) returns (n: nat)
    requires Awake(After(kind, steps).pc) && Queue(kind, steps) != []
    ensures n <= |Queue(kind, steps)| + 7
    ensures var s, t, q := After(kind, steps), After(kind, Alone(steps, n)), Queue(kind, steps);
            && t.pc.Running? && t.ran == s.ran + [JobOf(s, q[0])] && Queue(kind, Alone(steps, n)) == q[1..]
  {
    RunKeepsInv(kind, steps);
    var q := Queue(kind, steps);
    var t: State;
    n, t := RunsOne(kind, After(kind, steps), q, q[1..]);
    AfterConsumes(kind, steps, n);
    QueueIs(kind, Alone(steps, n), q[1..]);
  }

  lemma {:induction false} Drains(s: State, q: seq<Context>) returns (n: nat, t: State)
    requires Inv(EventLoop, s, q) && s.pc.Loading?
    ensures t == Consumes(EventLoop, s, n)
    ensures Inv(EventLoop, t, []) && t.pc.Sleeping? && t.pushed == s.pushed
    decreases |q|
  {
    if q == [] {
      StepPreserves(EventLoop, s, q, Consume(false));
      ConsumesFirst(EventLoop, s, 0);
      n, t := 1, Next(EventLoop, s, Consume(false));
    } else {
      var m, u := RunsOneAndLoads(s, q, q[1..]);
      n, t := Drains(u, q[1..]);
      ConsumesAdd(EventLoop, s, m, n);
      n := m + n;
    }
  }

  /** The event loop goes on to the next job at once. */
  lemma {:induction false} RunsOneAndLoads(s: State, q: seq<Context>, r: seq<Context>) returns (n: nat, t: State)
    requires Inv(EventLoop, s, q) && s.pc.Loading? && q != [] && r == q[1..]
    ensures t == Consumes(EventLoop, s, n)
    ensures Inv(EventLoop, t, r) && t.pc.Loading? && t.pushed == s.pushed
  {
    var m, u := RunsOne(EventLoop, s, q, r);
    n, t := LoadsAgain(u, r);
    n := Chained(EventLoop, s, m, u, n, t);
    PushedSame(EventLoop, s, n);
  }

  lemma {:induction false} LoadsAgain(s: State, q: seq<Context>) returns (n: nat, t: State)
    requires Inv(EventLoop, s, q) && s.pc.Running?
    ensures t == Consumes(EventLoop, s, n) && Inv(EventLoop, t, q) && t.pc.Loading?
  {
    StepPreserves(EventLoop, s, q, Consume(false));
    ConsumesFirst(EventLoop, s, 0);
    n, t := 1, Next(EventLoop, s, Consume(false));
  }

  lemma {:induction false} ConsumerPushesNothing(kind: Kind, s: State)
    ensures Next(kind, s, Consume(false)).pushed == s.pushed
  {
  }

  lemma {:induction false} PushedSame(kind: Kind, s: State, n: nat)
    ensures Consumes(kind, s, n).pushed == s.pushed
  {
    if n > 0 {
      PushedSame(kind, s, n - 1);
      var t := Consumes(kind, s, n - 1);
      ConsumerPushesNothing(kind, t);
      assert Consumes(kind, s, n) == Next(kind, t, Consume(false));
    }
  }

  /** `Check`, left alone, runs every job that was pushed, and returns. */
  lemma {:induction false} CheckDrains(steps: seq<Step>) returns (n: nat)
    requires After(EventLoop, steps).pc.Loading?
    ensures var s, t := After(EventLoop, steps), After(EventLoop, Alone(steps, n));
            t.pc.Sleeping? && t.head.None? && t.ran == t.pushed == s.pushed
  {
    RunKeepsInv(EventLoop, steps);
    var t: State;
    n, t := Drains(After(EventLoop, steps), Queue(EventLoop, steps));
    AfterConsumes(EventLoop, steps, n);
    assert Jobs(t, []) == [];
  }
}
