/**
 The intrusive linked lists of the library, in place and without interference: the
 condition variable's list, appended at the tail and notified from the head, the waiter
 list of `EventLoop` and `StaticThreadPool`, pushed at the head and taken at the tail, and
 `Lock` with its hand-over. A weak compare-and-swap may fail spuriously a given number of
 times. How these behave under interleaving is the subject of the step machines.
 */
module IntrusiveLists {
  import opened Options
  import opened Sequences

  type Context = nat

  class Waiter {
    const context: Context
    var next: Waiter?
    var notified: bool
    var acquired: bool

    constructor (context: Context)
      ensures this.context == context && next == null && !notified && !acquired
    {
      this.context := context;
      next, notified, acquired := null, false, false;
    }
  }

  /** `chain` is linked through `next` from its first element to null. */
  ghost predicate Linked(chain: seq<Waiter>)
    reads chain
  {
    && Distinct(chain)
    && (forall i :: 0 <= i < |chain| - 1 ==> chain[i].next == chain[i + 1])
    && (chain != [] ==> chain[|chain| - 1].next == null)
  }

  lemma {:induction false} LastHasNullNext(chain: seq<Waiter>, k: nat)
    requires Linked(chain) && k < |chain|
    ensures chain[k].next == null <==> k == |chain| - 1
  {
    if k < |chain| - 1 {
      assert chain[k].next == chain[k + 1];
    }
  }

  lemma {:induction false} TakeOne(chain: seq<Waiter>, k: nat)
    requires k < |chain|
    ensures chain[k..][0] == chain[k] && chain[k..][1..] == chain[k + 1..]
    ensures chain[..k] + chain[k..][..1] == chain[..k + 1]
  {
  }

  ghost predicate IsHead(head: Waiter?, chain: seq<Waiter>) {
    head == if chain == [] then null else chain[0]
  }

  /** `ConditionVariable`; `woken` lists the waiters whose notify callback was called. */
  class ConditionVariable {
    var head: Waiter?
    var woken: seq<Waiter>
    ghost var waiting: seq<Waiter>

    ghost predicate Valid()
      reads this, waiting
    {
      Linked(waiting) && IsHead(head, waiting)
    }

    constructor ()
      ensures Valid() && waiting == [] && woken == []
    {
      head, woken, waiting := null, [], [];
    }

    /** The append in `Wait`, with the same three cases. */
    method Append(waiter: Waiter)
      requires Valid() && waiter !in waiting && waiter.next == null
      modifies this`head, this`waiting, waiting
      ensures Valid() && waiting == old(waiting) + [waiter]
      ensures forall w :: w in waiting ==> w.notified == old(w.notified)
    {
      if head == null {
        head := waiter;
      } else if head.next == null {
        LastHasNullNext(waiting, 0);
        head.next := waiter;
      } else {
        var next := head.next;
        ghost var k := 1;
        while next.next != null
          invariant 1 <= k < |waiting| && next == waiting[k]
          decreases |waiting| - k
        {
          next := next.next;
          k := k + 1;
        }
        LastHasNullNext(waiting, k);
        next.next := waiter;
      }
      waiting := waiting + [waiter];
    }

    /** Wakes the waiter that has waited longest, if any. */
    method Notify()
      requires Valid()
      modifies this, waiting
      ensures Valid()
      ensures waiting == if old(waiting) == [] then [] else old(waiting)[1..]
      ensures woken == old(woken) + old(waiting)[..if old(waiting) == [] then 0 else 1]
      ensures forall w :: w in waiting ==> w.notified == old(w.notified)
      ensures old(waiting) != [] ==>
                old(waiting)[0] !in waiting && old(waiting)[0].notified && old(waiting)[0].next == null
    {
      var waiter := head;
      if waiter != null {
        head := waiter.next;
        waiter.next := null;
        waiter.notified := true;
        woken := woken + [waiter];
        waiting := waiting[1..];
      }
    }

    /** Wakes everybody, in the order they started to wait. */
    method NotifyAll()
      requires Valid()
      modifies this, waiting
      ensures Valid() && waiting == [] && head == null
      ensures woken == old(woken) + old(waiting)
      ensures forall w :: w in old(waiting) ==> w.notified && w.next == null
    {
      ghost var all, k := waiting, 0;
      while head != null
        invariant 0 <= k <= |all|
        invariant Valid() && waiting == all[k..]
        invariant woken == old(woken) + all[..k]
        invariant forall i :: 0 <= i < k ==> all[i] !in waiting && all[i].notified && all[i].next == null
        decreases |waiting|
      {
        TakeOne(all, k);
        Notify();
        k := k + 1;
      }
    }
  }

  /** The list behind `head_`, `waiters_` and `heads_`; `chain` is newest first. */
  class WaiterList {
    var head: Waiter?
    ghost var chain: seq<Waiter>

    ghost predicate Valid()
      reads this, chain
    {
      Linked(chain) && IsHead(head, chain)
    }

    constructor ()
      ensures Valid() && chain == []
    {
      head, chain := null, [];
    }

    /** `Submit`: load the head, then swap until the swap succeeds. */
    method Push(waiter: Waiter, spurious: nat)
      requires Valid() && waiter !in chain
      modifies this, waiter
      ensures Valid() && chain == [waiter] + old(chain)
    {
      waiter.next := head;
      var failures := spurious;
      while failures > 0
        invariant Valid() && chain == old(chain) && waiter.next == head
      {
        waiter.next := head;   // what a failed compare-and-swap stores as the value it has seen
        failures := failures - 1;
      }
      head := waiter;
      chain := [waiter] + chain;
    }

    /** Takes the oldest waiter: swap the head for null, or cut it off behind its successor. */
    method TakeOldest() returns (oldest: Waiter?)
      requires Valid()
      modifies this, chain
      ensures Valid()
      ensures old(chain) == [] ==> oldest == null && chain == []
      ensures old(chain) != [] ==> oldest != null && old(chain) == chain + [oldest] && oldest.next == null
    {
      var waiter := head;
      if waiter == null {
        return null;
      }
      if waiter.next == null {
        LastHasNullNext(chain, 0);
        head, chain := null, [];
        return waiter;
      }
      ghost var k := 0;
      while waiter.next.next != null
        invariant 0 <= k < |chain| - 1 && waiter == chain[k] && waiter.next == chain[k + 1]
        decreases |chain| - k
      {
        waiter := waiter.next;
        k := k + 1;
      }
      LastHasNullNext(chain, k + 1);
      oldest := waiter.next;
      waiter.next := null;
      chain := chain[..k + 1];
    }
  }

  /** `Lock`, whose oldest waiter owns it. */
  class Lock {
    var head: Waiter?
    var owner: Option<Context>
    ghost var chain: seq<Waiter>      // newest first

    ghost predicate Shaped()
      reads this, chain
    {
      && Linked(chain) && IsHead(head, chain)
      && (forall i :: 0 <= i < |chain| ==> (chain[i].acquired <==> i == |chain| - 1))
    }

    ghost predicate Valid()
      reads this, chain
    {
      && Shaped()
      && owner == if chain == [] then None else Some(chain[|chain| - 1].context)
    }

    constructor ()
      ensures Valid() && chain == []
    {
      head, owner, chain := null, None, [];
    }

    /** Takes the lock if it is free, and otherwise leaves everything as it was. */
    method AcquireFast(waiter: Waiter, spurious: nat) returns (acquired: bool)
      requires Valid() && waiter !in chain && !waiter.acquired && waiter.next == null
      modifies this, waiter
      ensures Valid()
      ensures acquired <==> old(chain) == []
      ensures chain == if acquired then [waiter] else old(chain)
      ensures waiter.next == null && waiter.acquired == acquired
    {
      waiter.next := head;
      var failures := spurious;
      while waiter.next == null
        invariant Valid() && chain == old(chain) && waiter.next == head && !waiter.acquired
        decreases failures
      {
        if failures == 0 {
          head := waiter;
          chain := [waiter];
          owner := Some(waiter.context);
          waiter.acquired := true;
          return true;
        }
        waiter.next := head;
        failures := failures - 1;
      }
      waiter.next := null;
      return false;
    }

    /** Joins the queue; says whether that acquired the lock at once. */
    method AcquireSlow(waiter: Waiter, spurious: nat) returns (acquired: bool)
      requires Valid() && waiter !in chain && !waiter.acquired && waiter.next == null
      modifies this, waiter
      ensures Valid() && chain == [waiter] + old(chain)
      ensures acquired == waiter.acquired == (old(chain) == [])
    {
      waiter.next := head;
      if waiter.next == null {
        acquired := AcquireFast(waiter, spurious);
        return;
      }
      var failures := spurious;
      while failures > 0
        invariant Valid() && chain == old(chain) && waiter.next == head && !waiter.acquired
      {
        waiter.next := head;   // what a failed compare-and-swap stores as the value it has seen
        failures := failures - 1;
      }
      head := waiter;
      chain := [waiter] + chain;
      return false;
    }

    /**
     Drops the owner and hands over to the next oldest waiter, whose callback is to be
     called. A retry after a failed swap starts with `owner` already cleared.
     */
    method Release(spurious: nat) returns (resumed: Waiter?)
      requires Shaped() && chain != []
      modifies this, chain
      ensures Valid() && chain == old(chain)[..|old(chain)| - 1]
      ensures resumed == if chain == [] then null else chain[|chain| - 1]
      ensures !old(chain)[|old(chain)| - 1].acquired && old(chain)[|old(chain)| - 1].next == null
      decreases spurious
    {
      var waiter := head;
      if waiter.next == null {
        LastHasNullNext(chain, 0);
        owner := None;
        if spurious > 0 {
          resumed := Release(spurious - 1);
          return;
        }
        head := null;
        waiter.acquired := false;
        chain := [];
        return null;
      }
      ghost var k := 0;
      while waiter.next.next != null
        invariant 0 <= k < |chain| - 1 && waiter == chain[k] && waiter.next == chain[k + 1]
        decreases |chain| - k
      {
        waiter := waiter.next;
        k := k + 1;
      }
      LastHasNullNext(chain, k + 1);
      waiter.next.acquired := false;
      waiter.next := null;
      owner := Some(waiter.context);
      waiter.acquired := true;
      chain := chain[..k + 1];
      return waiter;
    }
  }
}
