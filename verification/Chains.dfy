/**
 The intrusive list shared by `Lock`, `EventLoop` and `StaticThreadPool`: nodes are
 pushed at the head by compare-and-swap and leave at the tail. A `next` pointer that
 is null is a node that is not a key of the `next` map. The abstraction of a list is
 the sequence of its nodes, oldest (tail) first.
 */
module Chains {
  import opened Options
  import opened Sequences

  type Node = nat
  type Links = map<Node, Node>

  /** Following `next` from `head` visits exactly `q`, newest first, and then stops. */
  predicate IsChain(next: Links, head: Option<Node>, q: seq<Node>) {
    && Distinct(q)
    && (head.None? <==> q == [])
    && (q != [] ==> head == Some(q[|q| - 1]) && q[0] !in next)
    && (forall i :: 0 < i < |q| ==> q[i] in next && next[q[i]] == q[i - 1])
  }

  /** A list has one reading: the pointers determine the queue. */
  lemma {:induction false} ChainUnique(next: Links, head: Option<Node>, q: seq<Node>, r: seq<Node>)
    requires IsChain(next, head, q) && IsChain(next, head, r)
    ensures q == r
    decreases |q|
  {
    if q != [] {
      var h := q[|q| - 1];
      if |q| == 1 {
        assert |r| == 1;
      } else {
        assert |r| > 1;
        var q', r' := q[..|q| - 1], r[..|r| - 1];
        assert q'[|q'| - 1] == next[h] == r'[|r'| - 1];
        ChainUnique(next, Some(next[h]), q', r');
        assert q == q' + [h] && r == r' + [h];
      }
    }
  }

  /** A successful compare-and-swap of `head` to a node whose `next` is the old head. */
  lemma {:induction false} ChainPush(next: Links, head: Option<Node>, q: seq<Node>, w: Node)
    requires IsChain(next, head, q) && w !in q
    requires head.None? ==> w !in next
    requires head.Some? ==> w in next && next[w] == head.value
    ensures IsChain(next, Some(w), q + [w])
  {
    var r := q + [w];
    assert forall i :: 0 <= i < |q| ==> r[i] == q[i];
  }

  /** Cutting the second oldest node's `next` drops the oldest node. */
  lemma {:induction false} ChainCut(next: Links, head: Option<Node>, q: seq<Node>)
    requires IsChain(next, head, q) && |q| > 1
    ensures IsChain(next - {q[1]}, head, q[1..])
  {
    var r := q[1..];
    assert forall i :: 0 <= i < |r| ==> r[i] == q[i + 1];
  }

  /** Pointers of nodes outside the list are free to change. */
  lemma {:induction false} ChainFrame(next: Links, next': Links, head: Option<Node>, q: seq<Node>)
    requires IsChain(next, head, q)
    requires forall w :: w in q ==> (w in next <==> w in next') && (w in next ==> next[w] == next'[w])
    ensures IsChain(next', head, q)
  {
    assert forall i :: 0 <= i < |q| ==> q[i] in q;
  }

  /** One step of the walk towards the second oldest node. */
  lemma {:induction false} ChainWalk(next: Links, head: Option<Node>, q: seq<Node>, v: Node)
    requires IsChain(next, head, q) && v in q && v != q[0]
    ensures v in next && next[v] in q
    ensures next[v] in next ==> next[v] != q[0]
    ensures next[v] !in next ==> |q| > 1 && v == q[1]
  {
    var i :| 0 <= i < |q| && q[i] == v;
    assert next[v] == q[i - 1];
  }

  ghost function IndexOf(q: seq<Node>, v: Node): (i: nat)
    requires v in q
    ensures i < |q| && q[i] == v
  {
    var i :| 0 <= i < |q| && q[i] == v;
    i
  }

  /** The same step by position in the queue. */
  lemma {:induction false} IndexInChain(next: Links, head: Option<Node>, q: seq<Node>, v: Node)
    requires IsChain(next, head, q) && v in q && v != q[0]
    ensures IndexOf(q, v) > 0 && v in next && next[v] == q[IndexOf(q, v) - 1]
    ensures IndexOf(q, next[v]) == IndexOf(q, v) - 1
    ensures next[v] in next <==> IndexOf(q, v) > 1
  {
    var i := IndexOf(q, v);
    assert q[i] == v && q[IndexOf(q, q[i - 1])] == q[i - 1];
  }
}
