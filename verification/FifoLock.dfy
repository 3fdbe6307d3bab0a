/**
 The abstract lock: a queue of waiters whose first element owns the lock. A waiter
 joins at the back and only the front leaves.
 */
module FifoLock {
  type Waiter = nat

  datatype Event = Join(waiter: Waiter) | Leave | Stutter

  predicate Allowed(q: seq<Waiter>, e: Event) {
    match e
    case Join(w) => w !in q
    case Leave => q != []
    case Stutter => true
  }

  function Apply(q: seq<Waiter>, e: Event): seq<Waiter>
    requires Allowed(q, e)
  {
    match e
    case Join(w) => q + [w]
    case Leave => q[1..]
    case Stutter => q
  }

  predicate AllAllowed(q: seq<Waiter>, es: seq<Event>)
    decreases |es|
  {
    es == [] || (Allowed(q, es[0]) && AllAllowed(Apply(q, es[0]), es[1..]))
  }

  function ApplyAll(q: seq<Waiter>, es: seq<Event>): seq<Waiter>
    requires AllAllowed(q, es)
    decreases |es|
  {
    if es == [] then q else ApplyAll(Apply(q, es[0]), es[1..])
  }

  /** How many releases a run holds. */
  function Leaves(es: seq<Event>): nat {
    if es == [] then 0 else (if es[0].Leave? then 1 else 0) + Leaves(es[1..])
  }

  /**
   Nobody barges: a waiter with `k` waiters ahead of it has exactly `k - d` ahead of it
   after `d <= k` releases, so it owns the lock after exactly `k` of them and not before.
   */
  lemma {:induction false} OwnsAfterExactlyKReleases(q: seq<Waiter>, es: seq<Event>, k: nat)
    requires k < |q| && AllAllowed(q, es) && Leaves(es) <= k
    ensures |ApplyAll(q, es)| > k - Leaves(es)
    ensures ApplyAll(q, es)[k - Leaves(es)] == q[k]
    decreases |es|
  {
    if es != [] {
      OwnsAfterExactlyKReleases(Apply(q, es[0]), es[1..], if es[0].Leave? then k - 1 else k);
    }
  }

  /** Running two histories one after the other. */
  lemma {:induction false} ApplyAllConcat(q: seq<Waiter>, es: seq<Event>, fs: seq<Event>)
    requires AllAllowed(q, es)
    ensures AllAllowed(q, es + fs) <==> AllAllowed(ApplyAll(q, es), fs)
    ensures AllAllowed(q, es + fs) ==> ApplyAll(q, es + fs) == ApplyAll(ApplyAll(q, es), fs)
    ensures Leaves(es + fs) == Leaves(es) + Leaves(fs)
    decreases |es|
  {
    if es == [] {
      assert es + fs == fs;
    } else {
      assert (es + fs)[1..] == es[1..] + fs;
      ApplyAllConcat(Apply(q, es[0]), es[1..], fs);
    }
  }
}
