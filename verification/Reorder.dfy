/**
 `_ReorderAdaptor`: receives tagged values in any order that keeps each tag's own order,
 with a negative tag marking the end of a tranche, and delivers tranche 1, then tranche
 2, and so on.
 */
module Reorder {
  import opened Options

  /** `std::tuple<int, std::optional<Value>>` */
  datatype Item<V> = Item(index: int, value: Option<V>)

  /** `asking` while a request to upstream is outstanding; `sent` is what went downstream. */
  datatype View<V> = View(
    buffer: map<int, seq<V>>, index: int, ended: set<int>, done: bool, sent: seq<V>, asking: bool)
  {
    function Remaining(): set<int> { set i | i in ended && i >= index }
  }

  /** A `std::map` of deques: an index not yet seen has an empty one. */
  function Buf<V>(buffer: map<int, seq<V>>, i: int): seq<V> { if i in buffer then buffer[i] else [] }

  function Init<V>(): View<V> { View(map[], 1, {}, false, [], false) }

  /** `Next`: flush the current tranche, move on past an ended one, or ask upstream. */
  function Pull<V>(r: View<V>): View<V>
    decreases r.Remaining()
  {
    if Buf(r.buffer, r.index) != [] then
      var b := Buf(r.buffer, r.index);
      r.(buffer := r.buffer[r.index := b[1..]], sent := r.sent + [b[0]], asking := false)
    else if r.index in r.ended then
      assert r.index in r.Remaining() && r.index !in r.(index := r.index + 1).Remaining();
      Pull(r.(index := r.index + 1))
    else r.(asking := true)
  }

  /** The CHECKs in `Body`. */
  predicate BodyChecks<V>(r: View<V>, item: Item<V>) {
    && !r.done
    && (item.index >= 0 ==>
          && item.value.Some?
          && (item.index == r.index ==> Buf(r.buffer, r.index) == [])
          && r.index <= item.index)
  }

  function Receive<V>(r: View<V>, item: Item<V>): View<V>
    requires BodyChecks(r, item)
  {
    if item.index < 0 then
      Pull(r.(ended := r.ended + {-item.index}))
    else if item.index == r.index then
      r.(sent := r.sent + [item.value.value], asking := false)
    else
      r.(buffer := r.buffer[item.index := Buf(r.buffer, item.index) + [item.value.value]], asking := true)
  }

  /** A call either answers downstream with one value or leaves a request to upstream outstanding. */
  predicate AnswersOrAsks<V>(r: View<V>, r': View<V>) {
    if r'.asking then |r'.sent| == |r.sent| else |r'.sent| == |r.sent| + 1
  }

  lemma {:induction false} PullAnswersOrAsks<V>(r: View<V>)
    ensures AnswersOrAsks(r, Pull(r)) && Pull(r).done == r.done
    ensures Pull(r).asking ==> Pull(r).sent == r.sent
    decreases r.Remaining()
  {
    if Buf(r.buffer, r.index) == [] && r.index in r.ended {
      var r' := r.(index := r.index + 1);
      assert r.index in r.Remaining() && r.index !in r'.Remaining();
      PullAnswersOrAsks(r');
    }
  }

  lemma {:induction false} ReceiveAnswersOrAsks<V>(r: View<V>, item: Item<V>)
    requires BodyChecks(r, item)
    ensures AnswersOrAsks(r, Receive(r, item)) && !Receive(r, item).done
  {
    if item.index < 0 {
      PullAnswersOrAsks(r.(ended := r.ended + {-item.index}));
    }
  }

  /** `Done`: downstream wants no more. */
  function Finish<V>(r: View<V>): View<V> { r.(done := true, buffer := map[], ended := {}) }

  class ReorderAdaptor<V> {
    var buffer: map<int, seq<V>>
    var index: int
    var ended: set<int>
    var done: bool
    var sent: seq<V>
    var asking: bool

    function State(): View<V>
      reads this
    {
      View(buffer, index, ended, done, sent, asking)
    }

    constructor ()
      ensures State() == Init()
    {
      buffer, index, ended, done, sent, asking := map[], 1, {}, false, [], false;
    }

    method Next()
      modifies this
      ensures State() == Pull(old(State()))
      decreases State().Remaining()
    {
      var current := Buf(buffer, index);
      if current != [] {
        buffer := buffer[index := current[1..]];
        sent, asking := sent + [current[0]], false;
      } else if index in ended {
        ghost var before := State();
        index := index + 1;
        assert before.index in before.Remaining() && before.index !in State().Remaining();
        Next();
      } else {
        asking := true;
      }
    }

    method Body(item: Item<V>)
      requires BodyChecks(State(), item)
      modifies this
      ensures State() == Receive(old(State()), item)
    {
      if item.index < 0 {
        ended := ended + {-item.index};
        Next();
      } else if index == item.index {
        sent, asking := sent + [item.value.value], false;
      } else {
        buffer := buffer[item.index := Buf(buffer, item.index) + [item.value.value]];
        asking := true;
      }
    }

    method Done()
      modifies this
      ensures State() == Finish(old(State()))
      ensures done && ended == {} && forall i :: Buf(buffer, i) == []
    {
      done := true;
      buffer := map[];
      ended := {};
    }
  }

  // ------------------------------------------------------------ merges

  /** The values a merge holds for one tag, in order. */
  function Tranche<V>(fed: seq<Item<V>>, i: int): seq<V> {
    if fed == [] then []
    else
      var last := fed[|fed| - 1];
      var before := Tranche(fed[..|fed| - 1], i);
      if last.index == i && last.value.Some? then before + [last.value.value] else before
  }

  /** The tags whose end marker the merge holds. */
  function EndedIn<V>(fed: seq<Item<V>>): set<int> {
    if fed == [] then {}
    else
      var last := fed[|fed| - 1];
      EndedIn(fed[..|fed| - 1]) + if last.index < 0 then {-last.index} else {}
  }

  lemma {:induction false} Snoc<V>(fed: seq<Item<V>>, item: Item<V>, i: int)
    ensures Tranche(fed + [item], i) ==
            if item.index == i && item.value.Some? then Tranche(fed, i) + [item.value.value] else Tranche(fed, i)
    ensures EndedIn(fed + [item]) == EndedIn(fed) + if item.index < 0 then {-item.index} else {}
  {
    assert (fed + [item])[..|fed|] == fed;
  }

  function Abs(i: int): nat { if i < 0 then -i else i }

  /** Tags are positive, values carry a payload, and nothing follows a tag's end marker. */
  predicate Merge<V>(fed: seq<Item<V>>) {
    fed == [] ||
    var front, last := fed[..|fed| - 1], fed[|fed| - 1];
    && Merge(front)
    && last.index != 0
    && (last.index > 0 ==> last.value.Some?)
    && Abs(last.index) !in EndedIn(front)
  }

  /** Tranches 1 to k, one after the other. */
  function Flat<V>(fed: seq<Item<V>>, k: nat): seq<V> {
    if k == 0 then [] else Flat(fed, k - 1) + Tranche(fed, k)
  }

  lemma {:induction false} FlatUnchanged<V>(fed: seq<Item<V>>, item: Item<V>, k: nat)
    requires item.value.None? || item.index <= 0 || item.index > k
    ensures Flat(fed + [item], k) == Flat(fed, k)
  {
    if k > 0 {
      FlatUnchanged(fed, item, k - 1);
      assert (fed + [item])[..|fed|] == fed;
    }
  }

  /** What has been sent, with the current buffer, is the flattening of what arrived. */
  ghost predicate Inv<V>(r: View<V>, fed: seq<Item<V>>) {
    && r.index >= 1 && !r.done
    && r.ended == EndedIn(fed)
    && (forall i :: 1 <= i < r.index ==> i in r.ended)
    && r.sent + Buf(r.buffer, r.index) == Flat(fed, r.index)
    && (forall i :: i > r.index ==> Buf(r.buffer, i) == Tranche(fed, i))
    && (forall i :: i < r.index ==> Buf(r.buffer, i) == [])
    && (r.asking ==> Buf(r.buffer, r.index) == [] && r.index !in r.ended)
  }

  lemma {:induction false} PullKeeps<V>(r: View<V>, fed: seq<Item<V>>)
    requires Inv(r.(asking := false), fed)
    ensures Inv(Pull(r), fed)
    decreases r.Remaining()
  {
    if Buf(r.buffer, r.index) != [] {
      var b := Buf(r.buffer, r.index);
      assert Buf(Pull(r).buffer, r.index) == b[1..];
      assert forall i :: i != r.index ==> Buf(Pull(r).buffer, i) == Buf(r.buffer, i);
      assert (r.sent + [b[0]]) + b[1..] == r.sent + b;
    } else if r.index in r.ended {
      var r' := r.(index := r.index + 1);
      assert r.index in r.Remaining() && r.index !in r'.Remaining();
      assert Buf(r'.buffer, r'.index) == Tranche(fed, r'.index);
      PullKeeps(r', fed);
    }
  }

  lemma {:induction false} MarkerKeeps<V>(r: View<V>, fed: seq<Item<V>>, item: Item<V>)
    requires Inv(r, fed) && r.asking && item.index < 0
    ensures Inv(Receive(r, item), fed + [item])
  {
    var r', more := r.(ended := r.ended + {-item.index}), fed + [item];
    Snoc(fed, item, r.index);
    FlatUnchanged(fed, item, r.index);
    forall i | i > r.index ensures Tranche(more, i) == Tranche(fed, i) {
      Snoc(fed, item, i);
    }
    PullKeeps(r', more);
  }

  lemma {:induction false} ValueKeeps<V>(r: View<V>, fed: seq<Item<V>>, item: Item<V>)
    requires Inv(r, fed) && r.asking && item.index >= r.index && item.value.Some?
    ensures Inv(Receive(r, item), fed + [item])
  {
    var r', more := Receive(r, item), fed + [item];
    forall i ensures i > r.index ==> Buf(r'.buffer, i) == Tranche(more, i) {
      Snoc(fed, item, i);
      assert i > r.index ==> Buf(r.buffer, i) == Tranche(fed, i);
    }
    forall i | i < r.index ensures Buf(r'.buffer, i) == [] {
      assert Buf(r.buffer, i) == [];
    }
    Snoc(fed, item, r.index);
    FlatGrows(fed, item, r.index);
    if item.index == r.index {
      assert r.sent + [] == r.sent && r.sent + [item.value.value] + [] == r.sent + [item.value.value];
    }
  }

  lemma {:induction false} FlatGrows<V>(fed: seq<Item<V>>, item: Item<V>, k: nat)
    requires 0 < k <= item.index && item.value.Some?
    ensures Flat(fed + [item], k) ==
            if item.index == k then Flat(fed, k) + [item.value.value] else Flat(fed, k)
  {
    Snoc(fed, item, k);
    FlatUnchanged(fed, item, k - 1);
    var front, t := Flat(fed, k - 1), Tranche(fed, k);
    assert item.index == k ==> front + (t + [item.value.value]) == front + t + [item.value.value];
  }

  /** On a merge no CHECK of `Body` fires, and the invariant is kept. */
  lemma {:induction false} ReceiveKeeps<V>(r: View<V>, fed: seq<Item<V>>, item: Item<V>)
    requires Inv(r, fed) && r.asking && Merge(fed + [item])
    ensures BodyChecks(r, item)
    ensures Inv(Receive(r, item), fed + [item])
  {
    var more := fed + [item];
    assert more[..|fed|] == fed;
    if item.index < 0 {
      MarkerKeeps(r, fed, item);
    } else {
      ValueKeeps(r, fed, item);
    }
  }

  // ------------------------------------------------------------ whole runs

  /** Downstream asks for the next value or wants no more, or upstream answers a request. */
  datatype Event<V> = Ask | Arrive(item: Item<V>) | GiveUp

  function Fed<V>(events: seq<Event<V>>): seq<Item<V>> {
    if events == [] then []
    else
      var last := events[|events| - 1];
      var before := Fed(events[..|events| - 1]);
      if last.Arrive? then before + [last.item] else before
  }

  /** Downstream has asked and has not been sent anything since. */
  predicate Waiting<V>(events: seq<Event<V>>) {
    events != [] &&
    var before, last := events[..|events| - 1], events[|events| - 1];
    && !last.GiveUp? && (last.Ask? || Waiting(before))
    && |After(events).sent| == |After(before).sent|
  }

  /** Downstream asks, or gives up, only when it is not waiting, and upstream answers only when asked. */
  predicate Paced<V>(events: seq<Event<V>>) {
    events == [] ||
    var before, last := events[..|events| - 1], events[|events| - 1];
    && Paced(before)
    && (match last
        case Ask => !Waiting(before) && !After(before).done
        case Arrive(_) => After(before).asking
        case GiveUp => !Waiting(before) && !After(before).done)
  }

  function After<V>(events: seq<Event<V>>): View<V> {
    if events == [] then Init()
    else
      var r, last := After(events[..|events| - 1]), events[|events| - 1];
      match last
      case Ask => Pull(r)
      case Arrive(item) => if BodyChecks(r, item) then Receive(r, item) else r
      case GiveUp => Finish(r)
  }

  lemma {:induction false} RunKeepsInv<V>(events: seq<Event<V>>)
    requires Paced(events) && Merge(Fed(events))
    ensures if After(events).done then !After(events).asking else Inv(After(events), Fed(events))
    ensures Waiting(events) <==> After(events).asking
    decreases |events|
  {
    if events != [] {
      var before, last := events[..|events| - 1], events[|events| - 1];
      assert last.Arrive? ==> Fed(events)[..|Fed(events)| - 1] == Fed(before);
      assert !last.Arrive? ==> Fed(events) == Fed(before);
      RunKeepsInv(before);
      if last.Ask? {
        PullKeeps(After(before), Fed(before));
        PullAnswersOrAsks(After(before));
      } else if last.Arrive? {
        ReceiveKeeps(After(before), Fed(before), last.item);
        ReceiveAnswersOrAsks(After(before), last.item);
      }
    }
  }

  /**
   While a request is outstanding the current tranche is neither buffered nor ended, and
   whatever the merge brings next passes every CHECK: it is never of an earlier tranche.
   */
  lemma {:induction false} ChecksNeverFire<V>(events: seq<Event<V>>, item: Item<V>)
    requires Paced(events) && After(events).asking && Merge(Fed(events) + [item])
    ensures var r := After(events);
            Buf(r.buffer, r.index) == [] && r.index !in r.ended && BodyChecks(r, item)
  {
    assert (Fed(events) + [item])[..|Fed(events)|] == Fed(events);
    RunKeepsInv(events);
    ReceiveKeeps(After(events), Fed(events), item);
  }

  /** Whatever arrives, downstream's request is passed on upstream until it is answered, and no other is made. */
  lemma {:induction false} RequestsArePassedOn<V>(events: seq<Event<V>>)
    requires Paced(events) && Merge(Fed(events))
    ensures Waiting(events) <==> After(events).asking
  {
    RunKeepsInv(events);
  }

  /** All tranches 1..n have ended, and nothing else arrived. */
  ghost predicate Complete<V>(fed: seq<Item<V>>, n: nat) {
    && (forall i :: i in EndedIn(fed) <==> 1 <= i <= n)
    && (forall i :: i > n ==> Tranche(fed, i) == [])
  }

  lemma {:induction false} CompleteIsFlushed<V>(r: View<V>, fed: seq<Item<V>>, n: nat)
    requires Inv(r, fed) && r.asking && Complete(fed, n)
    ensures r.sent == Flat(fed, n) && forall i :: Buf(r.buffer, i) == []
  {
    assert r.index == n + 1 by {
      assert r.index <= n ==> r.index in EndedIn(fed);
      assert r.index > n + 1 ==> n + 1 in r.ended;
    }
    assert Flat(fed, n + 1) == Flat(fed, n) + Tranche(fed, n + 1) == Flat(fed, n);
    forall i ensures Buf(r.buffer, i) == [] {
      assert i > r.index ==> Buf(r.buffer, i) == Tranche(fed, i);
    }
  }

  /**
   When upstream ends after n complete tranches, exactly they have been sent, one after
   the other, and no value is left in any buffer.
   */
  lemma {:induction false} DeliversTranchesInOrder<V>(events: seq<Event<V>>, n: nat)
    requires Paced(events) && Merge(Fed(events)) && After(events).asking && Complete(Fed(events), n)
    ensures After(events).sent == Flat(Fed(events), n)
    ensures forall i :: Buf(After(events).buffer, i) == []
  {
    RunKeepsInv(events);
    CompleteIsFlushed(After(events), Fed(events), n);
  }
}
