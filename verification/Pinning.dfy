/**
 CPU pinning in `StaticThreadPool::ForkJoin`: each fork is pinned to a random CPU outside
 a mask that grows by the CPU chosen. Random draws are inputs.
 */
module Pinning {
  import opened Options

  const UNSIGNED: nat := 0x1_0000_0000              // unsigned int
  const SIZE_T: nat := 0x1_0000_0000_0000_0000      // size_t

  type Cpu = nat

  /** The CPUs that a mask leaves. */
  function Free(total: nat, mask: seq<Cpu>): set<Cpu> {
    set c | 0 <= c < total && c !in mask
  }

  /**
   `RandomCPU`: draw until the draw is not masked. None means that it is still drawing
   when the given draws are used up.
   */
  method RandomCpu(total: nat, mask: seq<Cpu>, draws: seq<Cpu>) returns (r: Option<Cpu>)
    requires forall i :: 0 <= i < |draws| ==> draws[i] < total
    ensures r.Some? ==> r.value in Free(total, mask)
    ensures r.None? <==> forall i :: 0 <= i < |draws| ==> draws[i] in mask
  {
    for i := 0 to |draws|
      invariant forall k :: 0 <= k < i ==> draws[k] in mask
    {
      if draws[i] !in mask {
        return Some(draws[i]);
      }
    }
    return None;
  }

  /** CPUs chosen one after the other, each added to the mask. */
  predicate Chosen(total: nat, mask: seq<Cpu>, picks: seq<Cpu>) {
    forall i :: 0 <= i < |picks| ==> picks[i] in Free(total, mask + picks[..i])
  }

  /** The forks in order; draws that run out leave the rest unpinned. */
  method PinForks(total: nat, mask: seq<Cpu>, forks: nat, draws: seq<seq<Cpu>>) returns (picks: seq<Cpu>)
    requires |draws| == forks
    requires forall i, k :: 0 <= i < forks && 0 <= k < |draws[i]| ==> draws[i][k] < total
    ensures |picks| <= forks && Chosen(total, mask, picks)
    ensures forks <= |Free(total, mask)| && (forall i, c :: 0 <= i < forks && 0 <= c < total ==> c in draws[i])
            ==> |picks| == forks
  {
    picks := [];
    while |picks| < forks
      invariant |picks| <= forks && Chosen(total, mask, picks)
      decreases forks - |picks|
    {
      var i := |picks|;
      var r := RandomCpu(total, mask + picks, draws[i]);
      if r.None? {
        FreeShrinks(total, mask, picks);
        if forks <= |Free(total, mask)| {
          var c :| c in Free(total, mask + picks);
          assert c !in draws[i];
        }
        return;
      }
      picks := picks + [r.value];
      assert forall k :: 0 <= k < i ==> picks[..k] == picks[..i][..k];
      assert picks[..i] + [r.value] == picks;
    }
  }

  /** Chosen CPUs are in range, pairwise distinct and outside the initial mask. */
  lemma {:induction false} ChosenAreDistinct(total: nat, mask: seq<Cpu>, picks: seq<Cpu>)
    requires Chosen(total, mask, picks)
    ensures forall i :: 0 <= i < |picks| ==> picks[i] < total && picks[i] !in mask
    ensures forall i, j :: 0 <= i < j < |picks| ==> picks[i] != picks[j]
  {
    forall i, j | 0 <= i < j < |picks| ensures picks[i] != picks[j] {
      assert picks[j] in Free(total, mask + picks[..j]);
      assert picks[..j][i] == picks[i] && picks[i] in mask + picks[..j];
    }
    forall i | 0 <= i < |picks| ensures picks[i] < total && picks[i] !in mask {
      assert picks[i] in Free(total, mask + picks[..i]);
    }
  }

  /** Each choice uses up exactly one free CPU. */
  lemma {:induction false} FreeShrinks(total: nat, mask: seq<Cpu>, picks: seq<Cpu>)
    requires Chosen(total, mask, picks)
    ensures |Free(total, mask + picks)| == |Free(total, mask)| - |picks|
    decreases |picks|
  {
    if picks == [] {
      assert mask + picks == mask;
    } else {
      var front, last := picks[..|picks| - 1], picks[|picks| - 1];
      forall i | 0 <= i < |front| ensures front[i] in Free(total, mask + front[..i]) {
        assert front[..i] == picks[..i];
      }
      FreeShrinks(total, mask, front);
      assert last in Free(total, mask + front);
      assert Free(total, mask + picks) == Free(total, mask + front) - {last};
    }
  }

  /** No order of random choices gets stuck exactly when there are as many free CPUs as forks. */
  lemma {:induction false} NeverStuck(total: nat, mask: seq<Cpu>, forks: nat)
    ensures forks <= |Free(total, mask)| <==>
            forall picks :: Chosen(total, mask, picks) && |picks| < forks ==> Free(total, mask + picks) != {}
  {
    if forks <= |Free(total, mask)| {
      forall picks | Chosen(total, mask, picks) && |picks| < forks ensures Free(total, mask + picks) != {} {
        FreeShrinks(total, mask, picks);
      }
    } else {
      var picks := ChooseAll(total, mask);
      assert Chosen(total, mask, picks) && |picks| < forks;
    }
  }

  lemma {:induction false} ChooseAll(total: nat, mask: seq<Cpu>) returns (picks: seq<Cpu>)
    ensures Chosen(total, mask, picks)
    ensures Free(total, mask + picks) == {} && |picks| == |Free(total, mask)|
  {
    picks := [];
    assert mask + picks == mask;
    while Free(total, mask + picks) != {}
      invariant Chosen(total, mask, picks)
      decreases |Free(total, mask + picks)|
    {
      var c :| c in Free(total, mask + picks);
      var more := picks + [c];
      assert forall k :: 0 <= k < |picks| ==> more[..k] == picks[..k];
      assert more[..|picks|] == picks;
      assert Free(total, mask + more) == Free(total, mask + picks) - {c};
      picks := more;
    }
    FreeShrinks(total, mask, picks);
  }

  /** The CHECKs at the head of `ForkJoin`, with the subtraction in `size_t`. */
  predicate GuardPasses(total: nat, mask: seq<Cpu>, forks: nat) {
    && (forall i :: 0 <= i < |mask| ==> mask[i] <= total)
    && forks <= (total - |mask|) % SIZE_T
  }

  lemma {:induction false} FreeAtLeast(total: nat, mask: seq<Cpu>)
    ensures |Free(total, mask)| + |mask| >= total
    decreases |mask|
  {
    if mask == [] {
      AllFree(total);
    } else {
      var front, last := mask[..|mask| - 1], mask[|mask| - 1];
      FreeAtLeast(total, front);
      assert Free(total, mask) == Free(total, front) - {last};
    }
  }

  lemma {:induction false} AllFree(total: nat)
    ensures |Free(total, [])| == total
  {
    if total > 0 {
      AllFree(total - 1);
      assert Free(total, []) == Free(total - 1, []) + {total - 1};
    }
  }

  /** With a mask no longer than the number of CPUs, forks that pass the guard can all be pinned. */
  lemma {:induction false} GuardSuffices(total: nat, mask: seq<Cpu>, forks: nat)
    requires GuardPasses(total, mask, forks) && |mask| <= total < SIZE_T
    ensures forks <= |Free(total, mask)|
  {
    FreeAtLeast(total, mask);
  }

  /** For such a mask the guard says what it is meant to say. */
  lemma {:induction false} GuardIsExact(total: nat, mask: seq<Cpu>, forks: nat)
    requires |mask| <= total < SIZE_T
    ensures GuardPasses(total, mask, forks) <==>
            (forall i :: 0 <= i < |mask| ==> mask[i] <= total) && forks + |mask| <= total
  {
    assert (total - |mask|) % SIZE_T == total - |mask|;
  }

  /** Two CPUs, a mask that lists one of them twice: the guard passes and no CPU is left. */
  lemma {:induction false} GuardCanWrap()
    ensures GuardPasses(2, [0, 1, 1], 1) && Free(2, [0, 1, 1]) == {}
  {
    assert (2 - 3) % SIZE_T == SIZE_T - 1;
    assert forall c :: 0 <= c < 2 ==> c == [0, 1, 1][c];
  }

  /**
   The guard is trustworthy for every number of forks exactly when the mask is no longer
   than the number of CPUs; a longer one wraps the subtraction around.
   */
  lemma {:induction false} GuardIsTrustworthyIff(total: nat, mask: seq<Cpu>)
    requires total < UNSIGNED - 1 && |mask| < SIZE_T - UNSIGNED
    requires forall i :: 0 <= i < |mask| ==> mask[i] <= total
    ensures |mask| <= total <==>
            forall forks: nat :: forks < UNSIGNED && GuardPasses(total, mask, forks) ==> forks <= |Free(total, mask)|
  {
    if |mask| <= total {
      forall forks: nat | forks < UNSIGNED && GuardPasses(total, mask, forks)
        ensures forks <= |Free(total, mask)|
      {
        GuardSuffices(total, mask, forks);
      }
    } else {
      FreeAtMost(total, mask);
      var forks := |Free(total, mask)| + 1;
      assert (total - |mask|) % SIZE_T == total - |mask| + SIZE_T;
      assert forks < UNSIGNED && GuardPasses(total, mask, forks);
    }
  }

  lemma {:induction false} FreeAtMost(total: nat, mask: seq<Cpu>)
    ensures |Free(total, mask)| <= total
  {
    AllFree(total);
    Subset(Free(total, mask), Free(total, []));
  }

  lemma {:induction false} Subset(a: set<Cpu>, b: set<Cpu>)
    requires a <= b
    ensures |a| <= |b|
    decreases |b|
  {
    if a != {} {
      var x :| x in a;
      Subset(a - {x}, b - {x});
    }
  }
}
