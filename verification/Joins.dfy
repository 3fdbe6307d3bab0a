/**
 `DoAll` and `ForkJoin`: every child writes its own slot and then decrements an atomic
 counter, and the child that brings the counter to zero completes the whole. The slot
 write and the decrement are separate steps, interleaved in any order.
 */
module Joins {
  import opened Options

  datatype Failure = Stopped | Error(code: nat)

  /** `std::variant<Undefined, Value, StoppedOrError>` */
  datatype Slot<V> = Undefined | Value(value: V) | Failed(failure: Failure)

  /** What the continuation is called with. */
  datatype Outcome<V> = Stop | Fail(code: nat) | Start(values: seq<V>)

  // ------------------------------------------------------------ what the slots mean

  predicate AnyStopped<V>(slots: seq<Slot<V>>) {
    exists i :: 0 <= i < |slots| && slots[i].Failed? && slots[i].failure.Stopped?
  }

  /** Index `i` holds the last error. */
  predicate IsLastError<V>(slots: seq<Slot<V>>, i: nat, code: nat) {
    && i < |slots| && slots[i].Failed? && slots[i].failure == Error(code)
    && forall k :: i < k < |slots| ==> !slots[k].Failed?
  }

  /** A stop wins over every error, otherwise the last error by index wins. */
  ghost predicate IsVerdict<V>(slots: seq<Slot<V>>, r: Option<Failure>) {
    match r
    case None => forall i :: 0 <= i < |slots| ==> !slots[i].Failed?
    case Some(Stopped) => AnyStopped(slots)
    case Some(Error(code)) => !AnyStopped(slots) && exists i: nat :: IsLastError(slots, i, code)
  }

  lemma {:induction false} VerdictUnique<V>(slots: seq<Slot<V>>, r: Option<Failure>, r': Option<Failure>)
    requires IsVerdict(slots, r) && IsVerdict(slots, r')
    ensures r == r'
  {
    if r.Some? && r'.Some? && r.value.Error? && r'.value.Error? {
      var i: nat :| IsLastError(slots, i, r.value.code);
      var k: nat :| IsLastError(slots, k, r'.value.code);
      assert i == k;
    }
  }

  lemma {:induction false} VerdictSnoc<V>(slots: seq<Slot<V>>, slot: Slot<V>, r: Option<Failure>)
    requires IsVerdict(slots, r)
    ensures IsVerdict(slots + [slot],
                      if slot.Failed? && (r.None? || !r.value.Stopped?) then Some(slot.failure) else r)
  {
    var more := slots + [slot];
    assert forall i :: 0 <= i < |slots| ==> more[i] == slots[i];
    assert more[|slots|] == slot;
    if r.Some? && r.value.Error? && !slot.Failed? {
      var i: nat :| IsLastError(slots, i, r.value.code);
      assert IsLastError(more, i, r.value.code);
    } else if slot.Failed? && slot.failure.Error? && !AnyStopped(slots) {
      assert IsLastError(more, |slots|, slot.failure.code);
    }
    if r == Some(Stopped) {
      var i :| 0 <= i < |slots| && slots[i].Failed? && slots[i].failure.Stopped?;
      assert more[i].Failed? && more[i].failure.Stopped?;
    }
  }

  lemma {:induction false} StoppedStays<V>(slots: seq<Slot<V>>, more: seq<Slot<V>>)
    requires AnyStopped(slots)
    ensures AnyStopped(slots + more)
  {
    var i :| 0 <= i < |slots| && slots[i].Failed? && slots[i].failure.Stopped?;
    assert (slots + more)[i] == slots[i];
  }

  /** The verdict as a function, so that runs can mention it. */
  ghost function Verdict<V>(slots: seq<Slot<V>>): (r: Option<Failure>)
    ensures IsVerdict(slots, r)
  {
    if slots == [] then None
    else
      var front, last := slots[..|slots| - 1], slots[|slots| - 1];
      var r := Verdict(front);
      VerdictSnoc(front, last, r);
      assert front + [last] == slots;
      if last.Failed? && (r.None? || !r.value.Stopped?) then Some(last.failure) else r
  }

  function ValuesOf<V>(slots: seq<Slot<V>>): seq<V>
    requires forall i :: 0 <= i < |slots| ==> slots[i].Value?
  {
    seq(|slots|, i requires 0 <= i < |slots| => slots[i].value)
  }

  predicate Written<V>(slots: seq<Slot<V>>) {
    forall i :: 0 <= i < |slots| ==> !slots[i].Undefined?
  }

  ghost function OutcomeOf<V>(slots: seq<Slot<V>>): Outcome<V>
    requires Written(slots)
  {
    match Verdict(slots)
    case None => Start(ValuesOf(slots))
    case Some(Stopped) => Stop
    case Some(Error(code)) => Fail(code)
  }

  /** What the continuation must be called with, read off the slots. */
  ghost predicate IsOutcome<V>(slots: seq<Slot<V>>, o: Outcome<V>) {
    match o
    case Stop => AnyStopped(slots)
    case Fail(code) => !AnyStopped(slots) && exists i: nat :: IsLastError(slots, i, code)
    case Start(values) =>
      && |values| == |slots|
      && forall i :: 0 <= i < |slots| ==> slots[i].Value? && values[i] == slots[i].value
  }

  lemma {:induction false} OutcomeIs<V>(slots: seq<Slot<V>>)
    requires Written(slots)
    ensures IsOutcome(slots, OutcomeOf(slots))
  {
  }

  lemma {:induction false} OutcomeUnique<V>(slots: seq<Slot<V>>, o: Outcome<V>, o': Outcome<V>)
    requires IsOutcome(slots, o) && IsOutcome(slots, o')
    ensures o == o'
  {
    match o
    case Stop =>
    case Fail(code) =>
      var i: nat :| IsLastError(slots, i, code);
      if o'.Fail? {
        var k: nat :| IsLastError(slots, k, o'.code);
        assert i == k;
      }
    case Start(values) =>
      if o'.Start? {
        assert values == o'.values;
      }
  }

  // ------------------------------------------------------------ the code

  class Adaptor<V> {
    const slots: array<Slot<V>>
    var counter: nat

    constructor (n: nat)
      ensures fresh(slots) && slots.Length == n && counter == n
      ensures forall i :: 0 <= i < n ==> slots[i].Undefined?
    {
      slots := new Slot<V>[n](_ => Undefined);
      counter := n;
    }

    method FetchSub() returns (before: nat)
      requires counter > 0
      modifies this`counter
      ensures before == old(counter) && counter == before - 1
    {
      before := counter;
      counter := counter - 1;
    }

    /** `DoAll`: fold over every slot, overwriting unless a stop has been seen. */
    method StoppedOrErrorByFold() returns (r: Option<Failure>)
      ensures r == Verdict(slots[..])
    {
      r := None;
      for i := 0 to slots.Length
        invariant IsVerdict(slots[..i], r)
      {
        VerdictSnoc(slots[..i], slots[i], r);
        assert slots[..i + 1] == slots[..i] + [slots[i]];
        if slots[i].Failed? {
          if r.None? || !r.value.Stopped? {
            r := Some(slots[i].failure);
          }
        }
      }
      assert slots[..] == slots[..slots.Length];
      VerdictUnique(slots[..], r, Verdict(slots[..]));
    }

    /** `ForkJoin`: the same loop, left early once a failure follows a stop. */
    method StoppedOrErrorWithBreak() returns (r: Option<Failure>)
      ensures r == Verdict(slots[..])
    {
      r := None;
      var i := 0;
      while i < slots.Length
        invariant 0 <= i <= slots.Length
        invariant IsVerdict(slots[..i], r)
      {
        VerdictSnoc(slots[..i], slots[i], r);
        assert slots[..i + 1] == slots[..i] + [slots[i]];
        if slots[i].Failed? {
          if r.None? || !r.value.Stopped? {
            r := Some(slots[i].failure);
          } else if r.Some? && r.value.Stopped? {
            break;
          }
        }
        i := i + 1;
      }
      if i < slots.Length {
        StoppedStays(slots[..i], slots[i..]);
      }
      assert slots[..] == slots[..i] + slots[i..];
      VerdictUnique(slots[..], r, Verdict(slots[..]));
    }

    /** All values in index order; its CHECK needs every slot to hold a value. */
    method GetValues() returns (values: seq<V>)
      requires forall i :: 0 <= i < slots.Length ==> slots[i].Value?
      ensures |values| == slots.Length && forall i :: 0 <= i < slots.Length ==> values[i] == slots[i].value
      ensures values == ValuesOf(slots[..])
    {
      values := [];
      for i := 0 to slots.Length
        invariant |values| == i && forall k :: 0 <= k < i ==> values[k] == slots[k].value
      {
        values := values + [slots[i].value];
      }
    }

    /** What the child that brings the counter to zero calls the continuation with. */
    method Complete() returns (o: Outcome<V>)
      requires Written(slots[..])
      ensures IsOutcome(slots[..], o) && o == OutcomeOf(slots[..])
    {
      OutcomeIs(slots[..]);
      var r := StoppedOrErrorByFold();
      match r
      case Some(Stopped) => o := Stop;
      case Some(Error(code)) => o := Fail(code);
      case None =>
        var values := GetValues();
        o := Start(values);
    }

    /** A child writes its slot and decrements; the one that finds the counter at 1 completes the whole. */
    method Finish(i: nat, slot: Slot<V>) returns (o: Option<Outcome<V>>)
      requires i < slots.Length && counter > 0 && !slot.Undefined?
      requires counter == 1 ==> forall k :: 0 <= k < slots.Length && k != i ==> !slots[k].Undefined?
      modifies this`counter, slots
      ensures slots[..] == old(slots[..])[i := slot] && counter == old(counter) - 1
      ensures o == if old(counter) == 1 then Some(OutcomeOf(slots[..])) else None
      ensures o.Some? ==> IsOutcome(slots[..], o.value)
    {
      slots[i] := slot;
      var before := FetchSub();
      o := None;
      if before == 1 {
        var outcome := Complete();
        o := Some(outcome);
      }
    }
  }

  // ------------------------------------------------------------ every completion order

  datatype Child = Running | SlotWritten | Finished

  datatype State<V> = State(
    slots: seq<Slot<V>>,
    children: seq<Child>,
    counter: int,
    completions: seq<Outcome<V>>)

  datatype Step = WriteSlot(i: nat) | Decrement(i: nat)

  function Init<V>(n: nat): State<V> {
    State(seq(n, _ => Undefined), seq(n, _ => Running), n, [])
  }

  predicate Enabled<V>(s: State<V>, step: Step) {
    && step.i < |s.children|
    && s.children[step.i] == if step.WriteSlot? then Running else SlotWritten
  }

  /** `results[i]` is what child `i` finishes with. */
  ghost function Next<V>(results: seq<Slot<V>>, s: State<V>, step: Step): State<V>
    requires Written(results) && |s.slots| == |s.children| == |results|
  {
    if !Enabled(s, step) then s
    else
      match step
      case WriteSlot(i) =>
        s.(slots := s.slots[i := results[i]], children := s.children[i := SlotWritten])
      case Decrement(i) =>
        s.(children := s.children[i := Finished], counter := s.counter - 1,
           completions := s.completions + if s.counter == 1 && Written(s.slots) then [OutcomeOf(s.slots)] else [])
  }

  /** Children that have not decremented yet. */
  function Pending(children: seq<Child>): nat {
    if children == [] then 0 else (if children[0].Finished? then 0 else 1) + Pending(children[1..])
  }

  lemma {:induction false} PendingUpdate(children: seq<Child>, i: nat, c: Child)
    requires i < |children| && !children[i].Finished?
    ensures Pending(children[i := c]) == Pending(children) - if c.Finished? then 1 else 0
  {
    if i == 0 {
      assert children[i := c][1..] == children[1..];
    } else {
      assert children[i := c][1..] == children[1..][i - 1 := c];
      PendingUpdate(children[1..], i - 1, c);
    }
  }

  lemma {:induction false} PendingZero(children: seq<Child>)
    ensures Pending(children) == 0 <==> forall i :: 0 <= i < |children| ==> children[i].Finished?
  {
    if children != [] {
      PendingZero(children[1..]);
      assert forall i :: 0 < i < |children| ==> children[i] == children[1..][i - 1];
      if forall i :: 0 <= i < |children| ==> children[i].Finished? {
        assert forall i :: 0 <= i < |children[1..]| ==> children[1..][i] == children[i + 1];
      }
    }
  }

  ghost predicate Inv<V>(results: seq<Slot<V>>, s: State<V>) {
    && Written(results) && |s.slots| == |s.children| == |results|
    && (forall i :: 0 <= i < |results| ==>
          s.slots[i] == if s.children[i].Running? then Undefined else results[i])
    && s.counter == Pending(s.children)
    && s.completions == if s.counter == 0 then [OutcomeOf(results)] else []
  }

  lemma {:induction false} StepKeeps<V>(results: seq<Slot<V>>, s: State<V>, step: Step)
    requires Inv(results, s)
    ensures Inv(results, Next(results, s, step))
    ensures Enabled(s, step) && step.Decrement? && s.counter == 1 ==> s.slots == results
  {
    if Enabled(s, step) {
      var s' := Next(results, s, step);
      PendingUpdate(s.children, step.i, s'.children[step.i]);
      if step.Decrement? && s.counter == 1 {
        PendingZero(s'.children);
        forall k | 0 <= k < |results| ensures s.slots[k] == results[k] {
          assert s'.children[k].Finished?;
          assert !s.children[k].Running?;
        }
        assert s.slots == results;
      }
      PendingZero(s.children);
    }
  }

  lemma {:induction false} InitOk<V>(results: seq<Slot<V>>)
    requires Written(results) && results != []
    ensures Inv(results, Init<V>(|results|))
  {
    PendingAll(|results|);
  }

  lemma {:induction false} PendingAll(n: nat)
    ensures Pending(seq(n, _ => Running)) == n
  {
    if n > 0 {
      assert seq(n, _ => Running)[1..] == seq(n - 1, _ => Running);
      PendingAll(n - 1);
    }
  }

  ghost function After<V>(results: seq<Slot<V>>, steps: seq<Step>): (s: State<V>)
    requires Written(results) && results != []
    ensures Inv(results, s)
  {
    if steps == [] then
      InitOk(results);
      Init(|results|)
    else
      var s := After(results, steps[..|steps| - 1]);
      StepKeeps(results, s, steps[|steps| - 1]);
      Next(results, s, steps[|steps| - 1])
  }

  /**
   Whatever the order of the writes and decrements, the continuation is called exactly
   once, precisely when the last child has decremented. A stop of any child wins, then the
   last error by index; otherwise it is started with all the values in index order.
   */
  lemma {:induction false} CompletesExactlyOnce<V>(results: seq<Slot<V>>, steps: seq<Step>)
    requires Written(results) && results != []
    ensures var s := After(results, steps);
            if exists i :: 0 <= i < |results| && !s.children[i].Finished? then s.completions == []
            else
              && |s.completions| == 1
              && (s.completions[0].Stop? <==> AnyStopped(results))
              && (forall code :: s.completions[0] == Fail(code) <==>
                    !AnyStopped(results) && exists i: nat :: IsLastError(results, i, code))
              && (s.completions[0].Start? <==> forall i :: 0 <= i < |results| ==> results[i].Value?)
              && (s.completions[0].Start? ==>
                    && |s.completions[0].values| == |results|
                    && forall i :: 0 <= i < |results| ==> s.completions[0].values[i] == results[i].value)
  {
    var s := After(results, steps);
    PendingZero(s.children);
    if s.counter == 0 {
      var o := OutcomeOf(results);
      assert s.completions == [o];
      OutcomeIs(results);
      OutcomeByCases(results, o);
    }
  }

  lemma {:induction false} OutcomeByCases<V>(results: seq<Slot<V>>, o: Outcome<V>)
    requires Written(results) && IsOutcome(results, o)
    ensures o.Stop? <==> AnyStopped(results)
    ensures forall code :: o == Fail(code) <==>
              !AnyStopped(results) && exists i: nat :: IsLastError(results, i, code)
    ensures o.Start? <==> forall i :: 0 <= i < |results| ==> results[i].Value?
  {
    forall code, i: nat | !AnyStopped(results) && IsLastError(results, i, code) ensures o == Fail(code) {
      OutcomeUnique(results, o, Fail(code));
    }
  }

  /** The completing child reads only written slots, and if it failed there is a failure to report. */
  lemma {:induction false} CompleterSeesEverySlot<V>(results: seq<Slot<V>>, steps: seq<Step>, i: nat)
    requires Written(results) && results != []
    requires var s := After(results, steps); Enabled(s, Decrement(i)) && s.counter == 1
    ensures After(results, steps).slots == results
    ensures results[i].Failed? ==> Verdict(results).Some?
    ensures Verdict(results).None? ==> forall k :: 0 <= k < |results| ==> results[k].Value?
  {
    StepKeeps(results, After(results, steps), Decrement(i));
  }
}
