/**
 `ConcurrentOrdered(f)`: number the upstream values, run `f` on each of them in
 `Concurrent`, tag what each run emits, and put the merged stream back in order. `out(j)`
 is the stream that `f` emits for the `j`-th upstream value.
 */
module ConcurrentOrdered {
  import opened Options
  import C = Concurrent
  import E = ConcurrentEnding
  import R = Reorder

  type Item<V> = R.Item<V>

  /** What one fiber emits: its values under tag `i`, then the end marker. */
  function Tagged<V>(i: int, vs: seq<V>): seq<Item<V>> {
    seq(|vs|, k requires 0 <= k < |vs| => R.Item(i, Some(vs[k]))) + [R.Item(-i, None)]
  }

  /**
   `_ConcurrentOrderedAdaptor` inside one fiber. It learns its tag from the first value,
   so its CHECK in `Ended` fails when the tranche is empty.
   */
  class OrderedAdaptor<V> {
    var index: Option<int>
    var ended: bool

    constructor ()
      ensures index == None && !ended
    {
      index, ended := None, false;
    }

    method Body(i: int, v: V) returns (item: Item<V>)
      requires index == None || index == Some(i)
      modifies this`index
      ensures index == Some(i) && item == R.Item(i, Some(v))
    {
      index := Some(i);
      item := R.Item(i, Some(v));
    }

    method Ended() returns (item: Item<V>)
      requires index.Some?
      modifies this`ended
      ensures ended && item == R.Item(-index.value, None)
    {
      ended := true;
      item := R.Item(index.value * -1, None);
    }
  }

  /** One tranche through the adaptor, or None if its CHECK aborts. */
  method EmitTranche<V>(i: int, vs: seq<V>) returns (r: Option<seq<Item<V>>>)
    ensures r == if vs == [] then None else Some(Tagged(i, vs))
  {
    var adaptor := new OrderedAdaptor<V>();
    var items: seq<Item<V>> := [];
    for k := 0 to |vs|
      invariant adaptor.index == if k == 0 then None else Some(i)
      invariant items == Tagged(i, vs)[..k]
      invariant fresh(adaptor)
    {
      var item := adaptor.Body(i, vs[k]);
      items := items + [item];
    }
    if adaptor.index.None? {
      return None;
    }
    var last := adaptor.Ended();
    return Some(items + [last]);
  }

  /** The stream of the fiber that runs upstream value `j`; tags start at 1. */
  function Script<V>(out: nat -> seq<V>): nat -> seq<Item<V>> {
    (j: nat) => Tagged(j + 1, out(j))
  }

  /** The sequential meaning: what `f` emits for the first n upstream values, in input order. */
  function FlatMap<V>(out: nat -> seq<V>, n: nat): seq<V> {
    if n == 0 then [] else FlatMap(out, n - 1) + out(n - 1)
  }

  // ------------------------------------------------------------ fibers produce merges

  lemma {:induction false} TrancheOfTagged<V>(i: int, vs: seq<V>, k: nat)
    requires i > 0 && k <= |vs| + 1
    ensures R.Tranche(Tagged(i, vs)[..k], i) == vs[..if k <= |vs| then k else |vs|]
    ensures R.EndedIn(Tagged(i, vs)[..k]) == if k == |vs| + 1 then {i} else {}
  {
    if k > 0 {
      var t := Tagged(i, vs)[..k];
      assert t[..k - 1] == Tagged(i, vs)[..k - 1];
      TrancheOfTagged(i, vs, k - 1);
      assert t[k - 1] == if k <= |vs| then R.Item(i, Some(vs[k - 1])) else R.Item(-i, None);
    }
  }

  /** Every fiber has so far emitted a prefix of its stream. */
  ghost predicate Fits<V>(out: nat -> seq<V>, es: seq<C.Emission<Item<V>>>) {
    forall j: nat :: C.Of(es, j) <= Script(out)(j)
  }

  /** The last emission is the next item of its fiber's stream. */
  lemma {:induction false} LastEmission<V>(out: nat -> seq<V>, es: seq<C.Emission<Item<V>>>)
    requires es != [] && Fits(out, es)
    ensures var front, last := es[..|es| - 1], es[|es| - 1];
            var t, n := Tagged(last.job + 1, out(last.job)), |C.Of(front, last.job)|;
            && Fits(out, front)
            && C.Values(es)[..|es| - 1] == C.Values(front)
            && n < |t| && C.Of(front, last.job) == t[..n] && last.value == t[n]
  {
    var front, last := es[..|es| - 1], es[|es| - 1];
    forall j: nat ensures C.Of(front, j) <= Script(out)(j) {
      assert C.Of(front, j) <= C.Of(es, j);
    }
    assert C.Of(es, last.job) == C.Of(front, last.job) + [last.value];
    assert C.Of(es, last.job) <= Script(out)(last.job) == Tagged(last.job + 1, out(last.job));
  }

  lemma {:induction false} LastTag<V>(out: nat -> seq<V>, es: seq<C.Emission<Item<V>>>)
    requires es != [] && Fits(out, es)
    ensures var last := es[|es| - 1];
            Fits(out, es[..|es| - 1]) && R.Abs(last.value.index) == last.job + 1
  {
    LastEmission(out, es);
  }

  lemma {:induction false} OtherTag<V>(fed: seq<Item<V>>, item: Item<V>, i: nat)
    requires R.Abs(item.index) != i
    ensures R.Tranche(fed + [item], i) == R.Tranche(fed, i)
    ensures i in R.EndedIn(fed + [item]) <==> i in R.EndedIn(fed)
  {
    R.Snoc(fed, item, i);
  }

  lemma {:induction false} SameTag<V>(fed: seq<Item<V>>, own: seq<Item<V>>, item: Item<V>, i: nat)
    requires R.Tranche(fed, i) == R.Tranche(own, i) && (i in R.EndedIn(fed) <==> i in R.EndedIn(own))
    ensures R.Tranche(fed + [item], i) == R.Tranche(own + [item], i)
    ensures i in R.EndedIn(fed + [item]) <==> i in R.EndedIn(own + [item])
  {
    R.Snoc(fed, item, i);
    R.Snoc(own, item, i);
  }

  /** Reading one tag out of the merged stream is reading one fiber's stream. */
  lemma {:induction false} TrancheOfMerge<V>(out: nat -> seq<V>, es: seq<C.Emission<Item<V>>>, j: nat)
    requires Fits(out, es)
    ensures R.Tranche(C.Values(es), j + 1) == R.Tranche(C.Of(es, j), j + 1)
    ensures j + 1 in R.EndedIn(C.Values(es)) <==> j + 1 in R.EndedIn(C.Of(es, j))
    decreases |es|
  {
    if es != [] {
      var front, last := es[..|es| - 1], es[|es| - 1];
      assert es == front + [last];
      C.Snoc(front, last, j);
      LastTag(out, es);
      TrancheOfMerge(out, front, j);
      if last.job == j {
        SameTag(C.Values(front), C.Of(front, j), last.value, j + 1);
      } else {
        OtherTag(C.Values(front), last.value, j + 1);
      }
    }
  }

  /** What a fiber emits next may follow what has been emitted in a merge. */
  lemma {:induction false} LastMayFollow<V>(out: nat -> seq<V>, es: seq<C.Emission<Item<V>>>)
    requires es != [] && Fits(out, es)
    ensures var front, item := es[..|es| - 1], es[|es| - 1].value;
            && Fits(out, front) && item.index != 0 && (item.index > 0 ==> item.value.Some?)
            && R.Abs(item.index) !in R.EndedIn(C.Values(front))
  {
    var front, last := es[..|es| - 1], es[|es| - 1];
    LastEmission(out, es);
    TrancheOfTagged(last.job + 1, out(last.job), |C.Of(front, last.job)|);
    TrancheOfMerge(out, front, last.job);
  }

  /** Whatever the interleaving, the fibers' streams form a merge. */
  lemma {:induction false} FibersFormMerge<V>(out: nat -> seq<V>, es: seq<C.Emission<Item<V>>>)
    requires Fits(out, es)
    ensures R.Merge(C.Values(es))
    decreases |es|
  {
    if es != [] {
      var front, last := es[..|es| - 1], es[|es| - 1];
      LastMayFollow(out, es);
      FibersFormMerge(out, front);
      assert C.Values(es)[..|es| - 1] == C.Values(front) && C.Values(es)[|es| - 1] == last.value;
    }
  }

  /** Only tags of accepted upstream values end. */
  lemma {:induction false} EndedTagsArePositive<V>(fed: seq<Item<V>>)
    requires R.Merge(fed)
    ensures forall i :: i in R.EndedIn(fed) ==> i > 0
    decreases |fed|
  {
    if fed != [] {
      EndedTagsArePositive(fed[..|fed| - 1]);
    }
  }

  lemma {:induction false} FlatIsFlatMap<V>(out: nat -> seq<V>, fed: seq<Item<V>>, n: nat)
    requires forall j: nat :: j < n ==> R.Tranche(fed, j + 1) == out(j)
    ensures R.Flat(fed, n) == FlatMap(out, n)
  {
    if n > 0 {
      FlatIsFlatMap(out, fed, n - 1);
      assert R.Tranche(fed, (n - 1) + 1) == out(n - 1);
    }
  }

  /** One fiber's tranche in the merge: a prefix of its stream, and all of it once ended. */
  lemma {:induction false} TrancheOfFiber<V>(out: nat -> seq<V>, es: seq<C.Emission<Item<V>>>, j: nat)
    requires Fits(out, es)
    ensures R.Tranche(C.Values(es), j + 1) <= out(j)
    ensures j + 1 in R.EndedIn(C.Values(es)) ==> R.Tranche(C.Values(es), j + 1) == out(j)
  {
    TrancheOfMerge(out, es, j);
    var t, n := Tagged(j + 1, out(j)), |C.Of(es, j)|;
    assert C.Of(es, j) <= Script(out)(j);
    assert C.Of(es, j) == t[..n];
    TrancheOfTagged(j + 1, out(j), n);
  }

  lemma {:induction false} FiberIsComplete<V>(out: nat -> seq<V>, es: seq<C.Emission<Item<V>>>, n: nat, j: nat)
    requires Fits(out, es)
    requires C.Of(es, j) == if j < n then Script(out)(j) else []
    ensures R.Tranche(C.Values(es), j + 1) == if j < n then out(j) else []
    ensures j + 1 in R.EndedIn(C.Values(es)) <==> j < n
  {
    TrancheOfMerge(out, es, j);
    var t := Tagged(j + 1, out(j));
    TrancheOfTagged(j + 1, out(j), |t|);
    assert t[..|t|] == t;
  }

  /** When the fibers of n upstream values have emitted everything, the merge is complete. */
  lemma {:induction false} CompleteMerge<V>(out: nat -> seq<V>, es: seq<C.Emission<Item<V>>>, n: nat)
    requires forall j: nat :: C.Of(es, j) == if j < n then Script(out)(j) else []
    ensures var fed := C.Values(es);
            R.Merge(fed) && R.Complete(fed, n) && R.Flat(fed, n) == FlatMap(out, n)
  {
    var fed := C.Values(es);
    assert Fits(out, es);
    FibersFormMerge(out, es);
    forall j: nat ensures j < n ==> R.Tranche(fed, j + 1) == out(j) {
      FiberIsComplete(out, es, n, j);
    }
    EndedTagsArePositive(fed);
    forall i ensures (i in R.EndedIn(fed) <==> 1 <= i <= n) && (i > n ==> R.Tranche(fed, i) == []) {
      if i > 0 {
        FiberIsComplete(out, es, n, i - 1);
      }
    }
    FlatIsFlatMap(out, fed, n);
  }

  lemma {:induction false} FitsTake<V>(out: nat -> seq<V>, es: seq<C.Emission<Item<V>>>, n: nat)
    requires Fits(out, es) && n <= |es|
    ensures Fits(out, es[..n])
    decreases |es|
  {
    if n == |es| {
      assert es[..n] == es;
    } else {
      LastEmission(out, es);
      FitsTake(out, es[..|es| - 1], n);
      assert es[..|es| - 1][..n] == es[..n];
    }
  }

  // ------------------------------------------------------------ the composed machine

  /**
   `Concurrent` on the tagged fibers, with the reorder adaptor as its downstream. `waiting` is
   downstream's own view: it has asked and nothing has been sent to it since.
   */
  datatype Ordered<V> = Ordered(c: C.State<Item<V>>, r: R.View<V>, waiting: bool)

  datatype Step =
    | Ask                        // downstream asks the reorder adaptor for a value
    | Request                    // the adaptor's call to Next reaches Concurrent
    | Inner(step: C.Step)        // any other step of Concurrent; what it delivers arrives at the adaptor
    | GiveUp                     // downstream calls Done on the adaptor, which passes it on

  /** The value that a step of `Concurrent` delivers. */
  function Delivery<V>(c: C.State<V>, c': C.State<V>): Option<V> {
    if |c'.delivered| > |c.delivered| then Some(c'.delivered[|c.delivered|]) else None
  }

  /** After the end of the stream it is `Concurrent` itself that calls Done. */
  predicate Enabled<V>(out: nat -> seq<V>, s: Ordered<V>, step: Step) {
    match step
    case Ask => !s.waiting && !s.r.done
    case Request => s.r.asking && C.Enabled(Script(out), s.c, C.AskNext)
    case Inner(x) =>
      C.Enabled(Script(out), s.c, x) && !x.AskNext? && (x.CallDone? ==> s.c.downstream.Finished?)
    case GiveUp => !s.waiting && !s.r.done && C.Enabled(Script(out), s.c, C.CallDone)
  }

  /** The CHECKs of the adaptor on what arrives. */
  predicate BodyPasses<V>(out: nat -> seq<V>, s: Ordered<V>, step: Step) {
    step.Inner? ==>
      var item := Delivery(s.c, C.Next(Script(out), s.c, step.step));
      item.Some? ==> R.BodyChecks(s.r, item.value)
  }

  /** A fiber comes to the end of a tranche without values, so that no tag is known for the end marker. */
  predicate EndsEmpty<V>(out: nat -> seq<V>, s: Ordered<V>, step: Step) {
    && step.Inner? && step.step.FiberEmit? && C.Live(s.c, step.step.fiber)
    && out(s.c.core.fibers[step.step.fiber].job) == []
  }

  predicate ChecksPass<V>(out: nat -> seq<V>, s: Ordered<V>, step: Step) {
    BodyPasses(out, s, step) && !EndsEmpty(out, s, step)
  }

  function Next<V>(out: nat -> seq<V>, s: Ordered<V>, step: Step): Ordered<V> {
    if !Enabled(out, s, step) || !ChecksPass(out, s, step) then s
    else
      match step
      case Ask =>
        var r' := R.Pull(s.r);
        s.(r := r', waiting := |r'.sent| == |s.r.sent|)
      case Request => s.(c := C.Next(Script(out), s.c, C.AskNext))
      case Inner(x) =>
        var c' := C.Next(Script(out), s.c, x);
        var item := Delivery(s.c, c');
        var r' := if item.Some? then R.Receive(s.r, item.value) else s.r;
        Ordered(c', r', s.waiting && |r'.sent| == |s.r.sent|)
      case GiveUp => s.(c := C.Next(Script(out), s.c, C.CallDone), r := R.Finish(s.r))
  }

  function After<V>(out: nat -> seq<V>, steps: seq<Step>): Ordered<V> {
    if steps == [] then Ordered(C.Init(), R.Init(), false)
    else Next(out, After(out, steps[..|steps| - 1]), steps[|steps| - 1])
  }

  lemma {:induction false} AfterSnoc<V>(out: nat -> seq<V>, steps: seq<Step>, step: Step)
    ensures After(out, steps + [step]) == Next(out, After(out, steps), step)
  {
    assert (steps + [step])[..|steps|] == steps;
  }

  /** What a step is to `Concurrent`. */
  function Inside<V>(out: nat -> seq<V>, s: Ordered<V>, step: Step): Option<C.Step> {
    if !Enabled(out, s, step) || !ChecksPass(out, s, step) then None
    else
      match step
      case Ask => None
      case Request => Some(C.AskNext)
      case Inner(x) => Some(x)
      case GiveUp => Some(C.CallDone)
  }

  function InsideAll<V>(out: nat -> seq<V>, steps: seq<Step>): seq<C.Step> {
    if steps == [] then []
    else
      var before := steps[..|steps| - 1];
      var x := Inside(out, After(out, before), steps[|steps| - 1]);
      if x.Some? then InsideAll(out, before) + [x.value] else InsideAll(out, before)
  }

  lemma {:induction false} StepsConcurrent<V>(out: nat -> seq<V>, s: Ordered<V>, step: Step)
    ensures var x := Inside(out, s, step);
            Next(out, s, step).c == if x.Some? then C.Next(Script(out), s.c, x.value) else s.c
  {
  }

  /** Every run of the whole is a run of `Concurrent`, so everything proved about it holds here. */
  lemma {:induction false} RunsConcurrent<V>(out: nat -> seq<V>, steps: seq<Step>)
    ensures After(out, steps).c == C.After(Script(out), InsideAll(out, steps))
    decreases |steps|
  {
    if steps != [] {
      var before, last := steps[..|steps| - 1], steps[|steps| - 1];
      RunsConcurrent(out, before);
      StepsConcurrent(out, After(out, before), last);
      var x := Inside(out, After(out, before), last);
      if x.Some? {
        C.AfterConcat(Script(out), InsideAll(out, before), x.value);
      }
    }
  }

  // ------------------------------------------------------------ the invariant

  /** What `Concurrent` has delivered is a merge of the streams of the accepted values. */
  lemma {:induction false} DeliveredFits<V>(out: nat -> seq<V>, steps: seq<C.Step>)
    returns (es: seq<C.Emission<Item<V>>>)
    ensures var s := C.After(Script(out), steps);
            && C.Values(es) == s.delivered && Fits(out, es) && R.Merge(s.delivered)
            && (forall j: nat :: j >= |s.jobs| ==> C.Of(es, j) == [])
  {
    C.DeliversInPushOrder(Script(out), steps);
    var s := C.After(Script(out), steps);
    var n := |s.delivered|;
    assert |C.Values(s.pushed)| == |s.pushed|;
    es := s.pushed[..n];
    FitsTake(out, s.pushed, n);
    assert C.Values(es) == C.Values(s.pushed)[..n] == s.delivered;
    FibersFormMerge(out, es);
    forall j: nat | j >= |s.jobs| ensures C.Of(es, j) == [] {
      OfTake(s.pushed, n, j);
    }
  }

  lemma {:induction false} OfTake<V>(es: seq<C.Emission<V>>, n: nat, j: nat)
    requires n <= |es|
    ensures C.Of(es[..n], j) <= C.Of(es, j)
    decreases |es|
  {
    if n == |es| {
      assert es[..n] == es;
    } else {
      OfTake(es[..|es| - 1], n, j);
      assert es[..|es| - 1][..n] == es[..n];
    }
  }

  ghost predicate Inv<V>(out: nat -> seq<V>, s: Ordered<V>) {
    && (!s.c.downstream.Idle? ==> s.r.asking)
    && (s.waiting <==> s.r.asking)
    && (s.r.done ==> s.c.core.downstreamDone && s.c.downstream.Idle? && !s.r.asking)
    && (s.c.core.downstreamDone && !s.r.done ==> s.c.downstream == C.Finished(C.EndOfStream))
    && (if s.r.done then s.r.sent <= FlatMap(out, |s.c.jobs|) else R.Inv(s.r, s.c.delivered))
    && NoneEmpty(out, s.c.pushed)
  }

  /** Whatever was pushed belongs to a tranche with values. */
  predicate NoneEmpty<V>(out: nat -> seq<V>, es: seq<C.Emission<Item<V>>>) {
    forall k :: 0 <= k < |es| ==> |out(es[k].job)| > 0
  }

  lemma {:induction false} FlatMapGrows<V>(out: nat -> seq<V>, m: nat, n: nat)
    requires m <= n
    ensures FlatMap(out, m) <= FlatMap(out, n)
    decreases n
  {
    if m < n {
      FlatMapGrows(out, m, n - 1);
    }
  }

  lemma {:induction false} FlatIsPrefix<V>(out: nat -> seq<V>, es: seq<C.Emission<Item<V>>>, k: nat)
    requires Fits(out, es)
    requires forall i :: 1 <= i <= k ==> i in R.EndedIn(C.Values(es))
    ensures R.Flat(C.Values(es), k) == FlatMap(out, k)
    ensures R.Tranche(C.Values(es), k + 1) <= out(k)
  {
    forall j: nat | j < k ensures R.Tranche(C.Values(es), j + 1) == out(j) {
      TrancheOfFiber(out, es, j);
    }
    FlatIsFlatMap(out, C.Values(es), k);
    TrancheOfFiber(out, es, k);
  }

  /** A value that was not accepted has no tranche and no end marker. */
  lemma {:induction false} UnstartedIsSilent<V>(out: nat -> seq<V>, es: seq<C.Emission<Item<V>>>, j: nat)
    requires Fits(out, es) && C.Of(es, j) == []
    ensures R.Tranche(C.Values(es), j + 1) == [] && j + 1 !in R.EndedIn(C.Values(es))
  {
    TrancheOfMerge(out, es, j);
  }

  /** What the adaptor sent is part of the flat-map of the `n` accepted values. */
  lemma {:induction false} SentFits<V>(out: nat -> seq<V>, r: R.View<V>, es: seq<C.Emission<Item<V>>>, n: nat)
    requires R.Inv(r, C.Values(es)) && Fits(out, es)
    requires forall j: nat :: j >= n ==> C.Of(es, j) == []
    ensures r.sent <= FlatMap(out, n)
  {
    var fed, k := C.Values(es), r.index - 1;
    FlatIsPrefix(out, es, k);
    assert k <= n by {
      if k > n {
        UnstartedIsSilent(out, es, n);
        assert false;
      }
    }
    assert r.sent <= R.Flat(fed, k + 1) == FlatMap(out, k) + R.Tranche(fed, k + 1);
    if k == n {
      UnstartedIsSilent(out, es, n);
    } else {
      FlatMapGrows(out, k + 1, n);
      assert FlatMap(out, k) + R.Tranche(fed, k + 1) <= FlatMap(out, k + 1);
    }
  }

  lemma {:induction false} AskKeeps<V>(out: nat -> seq<V>, s: Ordered<V>)
    requires Inv(out, s) && Enabled(out, s, Ask)
    ensures Inv(out, Next(out, s, Ask))
  {
    R.PullKeeps(s.r, s.c.delivered);
    R.PullAnswersOrAsks(s.r);
  }

  lemma {:induction false} GiveUpKeeps<V>(out: nat -> seq<V>, s: Ordered<V>)
    requires Inv(out, s) && Enabled(out, s, GiveUp) && s.r.sent <= FlatMap(out, |s.c.jobs|)
    ensures Inv(out, Next(out, s, GiveUp))
  {
  }

  lemma {:induction false} RequestKeeps<V>(out: nat -> seq<V>, s: Ordered<V>)
    requires Inv(out, s) && Enabled(out, s, Request)
    ensures Inv(out, Next(out, s, Request))
  {
  }

  /** A step of `Concurrent` that delivers: the adaptor's CHECKs pass and it stays in step. */
  lemma {:induction false} DeliveryKeeps<V>(out: nat -> seq<V>, s: Ordered<V>, item: Item<V>)
    requires Inv(out, s) && s.c.downstream.Asking? && R.Merge(s.c.delivered + [item])
    ensures R.BodyChecks(s.r, item) && !s.r.done
    ensures var r := R.Receive(s.r, item);
            R.Inv(r, s.c.delivered + [item]) && !r.done && R.AnswersOrAsks(s.r, r)
  {
    R.ReceiveKeeps(s.r, s.c.delivered, item);
    R.ReceiveAnswersOrAsks(s.r, item);
  }

  /** A step of `Concurrent` passes the CHECKs of the adaptor. */
  lemma {:induction false} BodyAlwaysPasses<V>(out: nat -> seq<V>, s: Ordered<V>, x: C.Step)
    requires Inv(out, s) && Enabled(out, s, Inner(x)) && R.Merge(C.Next(Script(out), s.c, x).delivered)
    ensures BodyPasses(out, s, Inner(x))
  {
    var c' := C.Next(Script(out), s.c, x);
    C.OnlyEgressDelivers(Script(out), s.c, x);
    if |c'.delivered| > |s.c.delivered| {
      DeliveryKeeps(out, s, c'.delivered[|s.c.delivered|]);
    }
  }

  lemma {:induction false} DeliveringKeeps<V>(out: nat -> seq<V>, s: Ordered<V>, x: C.Step)
    requires Inv(out, s) && Enabled(out, s, Inner(x)) && C.Inv(Script(out), s.c) && ChecksPass(out, s, Inner(x))
    requires var c' := C.Next(Script(out), s.c, x); R.Merge(c'.delivered) && |c'.delivered| > |s.c.delivered|
    ensures Inv(out, Next(out, s, Inner(x)))
  {
    var c' := C.Next(Script(out), s.c, x);
    C.OnlyEgressDelivers(Script(out), s.c, x);
    DoneOnlyAtEnd(out, s.c, x);
    InnerKeepsTranches(out, s, x);
    var item := c'.delivered[|s.c.delivered|];
    assert c'.delivered == s.c.delivered + [item];
    DeliveryKeeps(out, s, item);
  }

  lemma {:induction false} SilentKeeps<V>(out: nat -> seq<V>, s: Ordered<V>, x: C.Step)
    requires Inv(out, s) && Enabled(out, s, Inner(x)) && C.Inv(Script(out), s.c) && ChecksPass(out, s, Inner(x))
    requires |C.Next(Script(out), s.c, x).delivered| <= |s.c.delivered|
    ensures Inv(out, Next(out, s, Inner(x)))
  {
    var c' := C.Next(Script(out), s.c, x);
    C.OnlyEgressDelivers(Script(out), s.c, x);
    DoneOnlyAtEnd(out, s.c, x);
    InnerKeepsTranches(out, s, x);
    FlatMapGrows(out, |s.c.jobs|, |c'.jobs|);
  }

  lemma {:induction false} InnerKeepsTranches<V>(out: nat -> seq<V>, s: Ordered<V>, x: C.Step)
    requires NoneEmpty(out, s.c.pushed) && !EndsEmpty(out, s, Inner(x))
    ensures NoneEmpty(out, C.Next(Script(out), s.c, x).pushed)
  {
    C.OnlyFibersPush(Script(out), s.c, x);
    var es, es' := s.c.pushed, C.Next(Script(out), s.c, x).pushed;
    forall k | 0 <= k < |es'| ensures |out(es'[k].job)| > 0 {
      assert k < |es| ==> es'[k] == es'[..|es|][k] == es[k];
    }
  }

  lemma {:induction false} DoneOnlyAtEnd<V>(out: nat -> seq<V>, c: C.State<Item<V>>, x: C.Step)
    requires C.Inv(Script(out), c) && C.Enabled(Script(out), c, x) && (x.CallDone? ==> c.downstream.Finished?)
    ensures var c' := C.Next(Script(out), c, x);
            && (c.core.downstreamDone ==> c'.core.downstreamDone)
            && (c'.core.downstreamDone ==>
                  c.core.downstreamDone || (c.downstream == C.Finished(C.EndOfStream) && c'.downstream == c.downstream))
            && (c.downstream.Finished? ==> c'.downstream == c.downstream)
  {
  }

  lemma {:induction false} StepKeeps<V>(out: nat -> seq<V>, steps: seq<Step>, step: Step)
    requires Inv(out, After(out, steps)) && Enabled(out, After(out, steps), step)
    ensures BodyPasses(out, After(out, steps), step) && Inv(out, Next(out, After(out, steps), step))
  {
    var s, inner := After(out, steps), InsideAll(out, steps);
    RunsConcurrent(out, steps);
    match step
    case Ask => AskKeeps(out, s);
    case Request => RequestKeeps(out, s);
    case Inner(x) =>
      C.RunKeepsInv(Script(out), inner);
      C.AfterConcat(Script(out), inner, x);
      var es := DeliveredFits(out, inner + [x]);
      BodyAlwaysPasses(out, s, x);
      if ChecksPass(out, s, step) {
        if |C.Next(Script(out), s.c, x).delivered| > |s.c.delivered| {
          DeliveringKeeps(out, s, x);
        } else {
          SilentKeeps(out, s, x);
        }
      }
    case GiveUp =>
      var es := DeliveredFits(out, inner);
      SentFits(out, s.r, es, |s.c.jobs|);
      GiveUpKeeps(out, s);
  }

  lemma {:induction false} RunKeepsInv<V>(out: nat -> seq<V>, steps: seq<Step>)
    ensures Inv(out, After(out, steps))
    decreases |steps|
  {
    if steps == [] {
      assert R.Flat<V>([], 1) == [];
    } else {
      var before, last := steps[..|steps| - 1], steps[|steps| - 1];
      RunKeepsInv(out, before);
      if Enabled(out, After(out, before), last) {
        StepKeeps(out, before, last);
      }
    }
  }

  // ------------------------------------------------------------ end to end

  /**
   In no run does the reorder adaptor trip a CHECK, not even after Done, and the adaptor
   inside a fiber trips its own exactly when a tranche ends without a value.
   */
  lemma {:induction false} OnlyEmptyTrancheAborts<V>(out: nat -> seq<V>, steps: seq<Step>, step: Step)
    requires Enabled(out, After(out, steps), step)
    ensures BodyPasses(out, After(out, steps), step)
    ensures ChecksPass(out, After(out, steps), step) <==> !EndsEmpty(out, After(out, steps), step)
  {
    RunKeepsInv(out, steps);
    StepKeeps(out, steps, step);
  }

  /**
   Downstream never waits in vain: as long as its request is not answered, the adaptor has
   one of its own outstanding, or about to reach `Concurrent`, and it makes no other.
   */
  lemma {:induction false} RequestsArePassedOn<V>(out: nat -> seq<V>, steps: seq<Step>)
    ensures var s := After(out, steps);
            && (s.waiting <==> s.r.asking)
            && (s.waiting ==> !s.c.downstream.Idle? || Enabled(out, s, Request))
            && (!s.waiting ==> s.c.downstream.Idle?)
  {
    RunKeepsInv(out, steps);
    RunsConcurrent(out, steps);
  }

  /** At every moment what has gone downstream is an initial part of the flat-map of the accepted values. */
  lemma {:induction false} SentIsPrefix<V>(out: nat -> seq<V>, steps: seq<Step>)
    ensures var s := After(out, steps); s.r.sent <= FlatMap(out, |s.c.jobs|)
  {
    RunKeepsInv(out, steps);
    RunsConcurrent(out, steps);
    var s := After(out, steps);
    if !s.r.done {
      var es := DeliveredFits(out, InsideAll(out, steps));
      SentFits(out, s.r, es, |s.c.jobs|);
    }
  }

  lemma {:induction false} FlushedAtEnd<V>(out: nat -> seq<V>, r: R.View<V>, es: seq<C.Emission<Item<V>>>, n: nat)
    requires R.Inv(r, C.Values(es)) && r.asking
    requires forall j: nat :: C.Of(es, j) == if j < n then Script(out)(j) else []
    ensures r.sent == FlatMap(out, n) && forall i :: R.Buf(r.buffer, i) == []
  {
    CompleteMerge(out, es, n);
    R.CompleteIsFlushed(r, C.Values(es), n);
  }

  /**
   Every interleaving is the sequential flat-map. When the stream has ended, or Ended has
   been sent to a downstream that did not give up, exactly what `f` emits for the accepted
   upstream values has been sent, in input order, and no buffer holds a value. Without
   an interrupt these are all the upstream values. Ended is sent at most once, and a stream
   that ended had no empty tranche.
   */
  lemma {:induction false} OrderedIsFlatMap<V>(out: nat -> seq<V>, steps: seq<Step>)
    requires var s := After(out, steps);
             s.c.downstream == C.Finished(C.EndOfStream) || (s.c.endings > 0 && !s.r.done)
    ensures var s := After(out, steps);
            && s.r.sent == FlatMap(out, |s.c.jobs|)
            && (!s.c.core.interrupted ==> s.r.sent == FlatMap(out, s.c.offered))
            && (forall i :: R.Buf(s.r.buffer, i) == [])
            && s.c.endings <= 1
            && (forall j: nat :: j < |s.c.jobs| ==> |out(j)| > 0)
  {
    var s, inner := After(out, steps), InsideAll(out, steps);
    RunKeepsInv(out, steps);
    RunsConcurrent(out, steps);
    C.NoLostWakeup(Script(out), inner);
    C.EndOfStreamMeansEverything(Script(out), inner);
    FlushedAtEnd(out, s.r, s.c.pushed, |s.c.jobs|);
    forall j: nat | j < |s.c.jobs| ensures |out(j)| > 0 {
      assert C.Of(s.c.pushed, j) == Script(out)(j) == Tagged(j + 1, out(j));
      PushedIsNotEmpty(out, s.c.pushed, j);
    }
  }

  lemma {:induction false} PushedIsNotEmpty<V>(out: nat -> seq<V>, es: seq<C.Emission<Item<V>>>, j: nat)
    requires NoneEmpty(out, es) && C.Of(es, j) != []
    ensures |out(j)| > 0
    decreases |es|
  {
    if es != [] && es[|es| - 1].job != j {
      PushedIsNotEmpty(out, es[..|es| - 1], j);
    }
  }

  // ------------------------------------------------------------ the stream can always end

  /** What downstream and the adaptor do while everything upstream has finished. */
  function Drain<V>(s: Ordered<V>): Step {
    if s.c.downstream.Asking? then Inner(C.RunEgress) else if s.r.asking then Request else Ask
  }

  function Phase<V>(s: Ordered<V>): nat {
    if s.c.downstream.Asking? then 0 else if s.r.asking then 1 else 2
  }

  /** How many values of the flat-map have not been sent. */
  function Room<V>(out: nat -> seq<V>, s: Ordered<V>): nat {
    var all := |FlatMap(out, |s.c.jobs|)|;
    if |s.r.sent| <= all then all - |s.r.sent| else 0
  }

  lemma {:induction false} DrainStep<V>(out: nat -> seq<V>, steps: seq<Step>)
    requires E.Draining(After(out, steps).c) && !After(out, steps).c.downstream.Finished?
    ensures var s := After(out, steps);
            var t := After(out, steps + [Drain(s)]);
            && E.Draining(t.c) && t.c.jobs == s.c.jobs && t.c.offered == s.c.offered
            && t.c.core.interrupted == s.c.core.interrupted
            && (|| t.c.downstream == C.Finished(C.EndOfStream)
                || |t.c.values| < |s.c.values|
                || (t.c.values == s.c.values && !t.c.downstream.Finished?
                    && (|t.r.sent| > |s.r.sent| || (t.r.sent == s.r.sent && Phase(t) < Phase(s)))))
  {
    var s, inner := After(out, steps), InsideAll(out, steps);
    RunKeepsInv(out, steps);
    RunsConcurrent(out, steps);
    C.RunKeepsInv(Script(out), inner);
    AfterSnoc(out, steps, Drain(s));
    if s.c.downstream.Asking? {
      E.DrainStep(Script(out), inner, C.RunEgress);
      C.AfterConcat(Script(out), inner, C.RunEgress);
      StepKeeps(out, steps, Drain(s));
    } else if s.r.asking {
      E.DrainStep(Script(out), inner, C.AskNext);
      C.AfterConcat(Script(out), inner, C.AskNext);
    } else {
      R.PullAnswersOrAsks(s.r);
    }
  }

  lemma {:induction false} DrainDecreases<V>(out: nat -> seq<V>, steps: seq<Step>)
    requires E.Draining(After(out, steps).c) && !After(out, steps).c.downstream.Finished?
    ensures var s := After(out, steps);
            var t := After(out, steps + [Drain(s)]);
            && E.Draining(t.c) && t.c.jobs == s.c.jobs && t.c.offered == s.c.offered
            && t.c.core.interrupted == s.c.core.interrupted
            && (|| t.c.downstream == C.Finished(C.EndOfStream)
                || |t.c.values| < |s.c.values|
                || (|t.c.values| == |s.c.values| && Room(out, t) < Room(out, s))
                || (|t.c.values| == |s.c.values| && Room(out, t) == Room(out, s) && Phase(t) < Phase(s)))
  {
    DrainStep(out, steps);
    SentIsPrefix(out, steps + [Drain(After(out, steps))]);
    SentIsPrefix(out, steps);
  }

  lemma {:induction false} FinishedMeansEnded<V>(out: nat -> seq<V>, steps: seq<Step>)
    requires E.Draining(After(out, steps).c) && After(out, steps).c.downstream.Finished?
    ensures After(out, steps).c.downstream == C.Finished(C.EndOfStream)
  {
    RunsConcurrent(out, steps);
    C.RunKeepsInv(Script(out), InsideAll(out, steps));
  }

  lemma {:induction false} DrainsToEnd<V>(out: nat -> seq<V>, steps: seq<Step>) returns (more: seq<Step>)
    requires E.Draining(After(out, steps).c)
    ensures var s, t := After(out, steps), After(out, steps + more);
            && E.Draining(t.c) && t.c.downstream == C.Finished(C.EndOfStream)
            && t.c.jobs == s.c.jobs && t.c.offered == s.c.offered && t.c.core.interrupted == s.c.core.interrupted
    decreases |After(out, steps).c.values|, Room(out, After(out, steps)), Phase(After(out, steps))
  {
    var s := After(out, steps);
    if s.c.downstream.Finished? {
      FinishedMeansEnded(out, steps);
      more := [];
      assert steps + more == steps;
    } else {
      DrainDecreases(out, steps);
      var before := steps + [Drain(s)];
      if After(out, before).c.downstream == C.Finished(C.EndOfStream) {
        more := [Drain(s)];
      } else {
        var rest := DrainsToEnd(out, before);
        more := [Drain(s)] + rest;
        assert steps + more == before + rest;
      }
    }
  }

  /** The end marker, Done and the parked WaitForDone: Ended is sent. */
  lemma {:induction false} SendsEnded<V>(out: nat -> seq<V>, steps: seq<Step>)
    requires E.Draining(After(out, steps).c) && After(out, steps).c.downstream == C.Finished(C.EndOfStream)
    ensures var s, t := After(out, steps), After(out, steps + [Inner(C.CallDone)] + [Inner(C.RunWaiter)]);
            && t.c.endings == 1 && t.c.downstream == s.c.downstream
            && t.c.jobs == s.c.jobs && t.c.offered == s.c.offered && t.c.core.interrupted == s.c.core.interrupted
  {
    var inner := InsideAll(out, steps);
    RunsConcurrent(out, steps);
    E.DoneStep(Script(out), inner);
    C.AfterConcat(Script(out), inner, C.CallDone);
    EnabledAtEnd(out, steps);
    InnerStep(out, steps, C.CallDone);
    InnerStep(out, steps + [Inner(C.CallDone)], C.RunWaiter);
  }

  lemma {:induction false} EnabledAtEnd<V>(out: nat -> seq<V>, steps: seq<Step>)
    requires E.Draining(After(out, steps).c) && After(out, steps).c.downstream == C.Finished(C.EndOfStream)
    ensures Enabled(out, After(out, steps), Inner(C.CallDone))
  {
    RunsConcurrent(out, steps);
    C.RunKeepsInv(Script(out), InsideAll(out, steps));
  }

  lemma {:induction false} InnerStep<V>(out: nat -> seq<V>, steps: seq<Step>, x: C.Step)
    requires Enabled(out, After(out, steps), Inner(x)) && !x.FiberEmit?
    ensures After(out, steps + [Inner(x)]).c == C.Next(Script(out), After(out, steps).c, x)
  {
    RunKeepsInv(out, steps);
    StepKeeps(out, steps, Inner(x));
    AfterSnoc(out, steps, Inner(x));
  }

  /**
   From every reachable state in which upstream and the fibers have finished without
   failure and downstream has not given up, asking on sends exactly the flat-map of the
   upstream values and then Ended, once.
   */
  lemma {:induction false} CanAlwaysEnd<V>(out: nat -> seq<V>, steps: seq<Step>) returns (more: seq<Step>)
    requires E.Draining(After(out, steps).c)
    ensures var s, t := After(out, steps), After(out, steps + more);
            && t.c.downstream == C.Finished(C.EndOfStream) && t.c.endings == 1
            && t.r.sent == FlatMap(out, |s.c.jobs|)
            && (!s.c.core.interrupted ==> t.r.sent == FlatMap(out, s.c.offered))
  {
    var rest := DrainsToEnd(out, steps);
    SendsEnded(out, steps + rest);
    more := rest + [Inner(C.CallDone)] + [Inner(C.RunWaiter)];
    assert steps + more == steps + rest + [Inner(C.CallDone)] + [Inner(C.RunWaiter)];
    OrderedIsFlatMap(out, steps + more);
  }
}
