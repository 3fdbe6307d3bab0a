/**
 `StaticCompletionThreadPool::Schedule`: lease the first least loaded completion queue.
 */
module CompletionQueues {
  import opened Options

  const SIZE_MAX: nat := 0xFFFF_FFFF_FFFF_FFFF

  /** Position `i` holds the least load, and no earlier position does. */
  predicate IsFirstLeast(loads: seq<nat>, i: nat) {
    && i < |loads|
    && (forall j :: 0 <= j < |loads| ==> loads[i] <= loads[j])
    && (forall j :: 0 <= j < i ==> loads[i] < loads[j])
  }

  class CompletionPool {
    var borrows: seq<nat>
    var scheduling: bool

    constructor (n: nat)
      ensures borrows == seq(n, _ => 0) && !scheduling
    {
      borrows, scheduling := seq(n, _ => 0), false;
    }

    /** The leased queue, or None where the CHECK on `selected` aborts. */
    method Schedule() returns (r: Option<nat>)
      modifies this
      ensures scheduling
      ensures r.None? <==> forall j :: 0 <= j < |old(borrows)| ==> old(borrows)[j] >= SIZE_MAX
      ensures r.None? ==> borrows == old(borrows)
      ensures r.Some? ==>
                && IsFirstLeast(old(borrows), r.value)
                && borrows == old(borrows)[r.value := old(borrows)[r.value] + 1]
    {
      scheduling := true;
      r := None;
      var load := SIZE_MAX;
      for i := 0 to |borrows|
        invariant borrows == old(borrows)
        invariant r.None? ==> load == SIZE_MAX && forall j :: 0 <= j < i ==> borrows[j] >= SIZE_MAX
        invariant r.Some? ==> IsFirstLeast(borrows[..i], r.value) && load == borrows[r.value] < SIZE_MAX
      {
        if borrows[i] < load {
          r := Some(i);
          load := borrows[i];
        }
      }
      assert borrows[..|borrows|] == borrows;
      if r.Some? {
        borrows := borrows[r.value := borrows[r.value] + 1];
      }
    }
  }

  // ------------------------------------------------------------ keeping every lease

  /** Dealing `k` leases out in turn to `n` queues: whose turn it is next. */
  function Turn(n: nat, k: nat): (t: nat)
    requires n > 0
    ensures t < n
  {
    if k == 0 || Turn(n, k - 1) + 1 == n then 0 else Turn(n, k - 1) + 1
  }

  /** How many full rounds have been dealt. */
  function Rounds(n: nat, k: nat): nat
    requires n > 0
  {
    if k == 0 then 0 else Rounds(n, k - 1) + if Turn(n, k) == 0 then 1 else 0
  }

  function Share(n: nat, k: nat, i: nat): nat
    requires n > 0
  {
    if i < Turn(n, k) then Rounds(n, k) + 1 else Rounds(n, k)
  }

  /** The loads after `k` leases. */
  function Dealt(n: nat, k: nat): seq<nat>
    requires n > 0
  {
    seq(n, i requires 0 <= i < n => Share(n, k, i))
  }

  lemma {:induction false} DealNext(n: nat, k: nat)
    requires n > 0
    ensures IsFirstLeast(Dealt(n, k), Turn(n, k))
    ensures Dealt(n, k)[Turn(n, k) := Dealt(n, k)[Turn(n, k)] + 1] == Dealt(n, k + 1)
  {
    assert forall i :: 0 <= i < n ==> Dealt(n, k)[i] == Share(n, k, i);
    forall i | 0 <= i < n
      ensures Share(n, k + 1, i) == if i == Turn(n, k) then Share(n, k, i) + 1 else Share(n, k, i)
    {
    }
  }

  /** Turns are remainders. */
  lemma {:induction false} TurnIsRemainder(n: nat, k: nat)
    requires n > 0
    ensures k == Rounds(n, k) * n + Turn(n, k)
    ensures Turn(n, k) == k % n
  {
    if k > 0 {
      TurnIsRemainder(n, k - 1);
      assert (Rounds(n, k - 1) + 1) * n == Rounds(n, k - 1) * n + n;
    }
    RemainderUnique(k, n, Rounds(n, k), Turn(n, k));
  }

  lemma {:induction false} RemainderUnique(x: nat, n: nat, q: nat, m: nat)
    requires n > 0 && m < n && x == q * n + m
    ensures x % n == m
  {
    assert x == (x / n) * n + x % n;
    MulStep(x / n, q, n);
    MulStep(q, x / n, n);
  }

  lemma {:induction false} MulStep(a: nat, b: nat, n: nat)
    ensures a < b ==> a * n + n <= b * n
    decreases b
  {
    if a < b {
      assert b * n == (b - 1) * n + n;
      MulStep(a, b - 1, n);
    }
  }

  lemma {:induction false} FirstRound(n: nat, k: nat)
    requires k < n
    ensures Turn(n, k) == k
  {
    if k > 0 {
      FirstRound(n, k - 1);
    }
  }

  lemma {:induction false} FirstLeastUnique(loads: seq<nat>, i: nat, j: nat)
    requires IsFirstLeast(loads, i) && IsFirstLeast(loads, j)
    ensures i == j
  {
    assert loads[i] <= loads[j] && loads[j] <= loads[i];
  }

  /** `k` calls in a row on an idle pool, every lease kept. */
  ghost predicate IsSchedule(n: nat, loads: seq<seq<nat>>, picks: seq<nat>) {
    && |loads| == |picks| + 1
    && loads[0] == seq(n, _ => 0)
    && forall k :: 0 <= k < |picks| ==>
         && IsFirstLeast(loads[k], picks[k])
         && loads[k + 1] == loads[k][picks[k] := loads[k][picks[k]] + 1]
  }

  /** Least loaded with leases kept is round robin. */
  lemma {:induction false} SchedulesRoundRobin(n: nat, loads: seq<seq<nat>>, picks: seq<nat>, k: nat)
    requires n > 0 && IsSchedule(n, loads, picks) && k <= |picks|
    ensures loads[k] == Dealt(n, k)
    ensures k < |picks| ==> picks[k] == Turn(n, k) == k % n
  {
    if k == 0 {
      assert forall i: nat :: i < n ==> Share(n, 0, i) == 0;
      assert loads[0] == Dealt(n, 0);
    } else {
      SchedulesRoundRobin(n, loads, picks, k - 1);
      DealNext(n, k - 1);
    }
    if k < |picks| {
      DealNext(n, k);
      FirstLeastUnique(loads[k], picks[k], Turn(n, k));
      TurnIsRemainder(n, k);
    }
  }

  /** No two loads differ by more than one. */
  predicate Balanced(loads: seq<nat>) {
    forall a, b :: 0 <= a < |loads| && 0 <= b < |loads| ==> loads[a] <= loads[b] + 1
  }

  /**
   The server relies on this: `n` workers that each keep a lease get `n` different
   queues, and no two loads ever differ by more than one.
   */
  lemma {:induction false} WorkersGetDistinctQueues(n: nat, loads: seq<seq<nat>>, picks: seq<nat>)
    requires n > 0 && IsSchedule(n, loads, picks)
    ensures forall i, j :: 0 <= i < j < |picks| && j < n ==> picks[i] != picks[j]
    ensures forall k :: 0 <= k < |loads| ==> |loads[k]| == n && Balanced(loads[k])
  {
    forall i, j | 0 <= i < j < |picks| && j < n ensures picks[i] != picks[j] {
      SchedulesRoundRobin(n, loads, picks, i);
      SchedulesRoundRobin(n, loads, picks, j);
      FirstRound(n, i);
      FirstRound(n, j);
    }
    forall k | 0 <= k < |loads| ensures |loads[k]| == n && Balanced(loads[k]) {
      SchedulesRoundRobin(n, loads, picks, k);
    }
  }
}
