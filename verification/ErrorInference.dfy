/**
 The compile-time inference of errors (`ErrorsFrom`) and the run-time propagation of
 Start, Fail and Stop through composed eventuals. Values are abstracted away: wherever
 the code branches on a value, both branches are possible.
 */
module ErrorInference {
  import opened Options
  import opened Sequences
  import opened TypeLists

  const RUNTIME_ERROR: Type := 0
  const TYPE_ERASED_ERROR: Type := 1

  /** `std::is_base_of`: reflexive, and `RuntimeError` is final. */
  type Bases = (Type, Type) -> bool

  ghost predicate IsHierarchy(isBase: Bases) {
    && (forall t :: isBase(t, t))
    && (forall t :: isBase(RUNTIME_ERROR, t) ==> t == RUNTIME_ERROR)
  }

  datatype Handler = Handler(error: Type, body: Eventual)

  datatype Eventual =
    | Builder(raises: Types, handlesFail: bool, handlesStop: bool,
              byLvalue: bool)                                        // Eventual<T>().raises<...>()
    | Just
    | Raise(error: Type)
    | ThenValue                                                      // Then(f) where f returns a value
    | Then(inner: Eventual)                                          // Then(f) where f returns an eventual
    | Conditional(yes: Eventual, no: Eventual)
    | Finally                                                        // turns every signal into a value
    | Expected(errors: Types)                                        // expected<T, variant<Stopped, Errors...>>
    | Catch(handlers: seq<Handler>, all: Option<Eventual>)
    | Compose(left: Eventual, right: Eventual)

  /** `lvalue` if the error was passed to `Fail` as an lvalue, so that `Error` is deduced as a reference. */
  datatype Signal = Started | Raised(error: Type, lvalue: bool) | Halted

  function Catches(handlers: seq<Handler>): Types {
    seq(|handlers|, i requires 0 <= i < |handlers| => handlers[i].error)
  }

  // ------------------------------------------------------------ the inference

  function ErrorsFrom(e: Eventual, errors: Types): Types
    decreases e
  {
    match e
    case Builder(raises, _, _, _) => Union(raises, errors)
    case Just => Union([], errors)
    case Raise(t) => Union([t], errors)
    case ThenValue => Union(errors, Union([], Union([], [])))
    case Then(inner) => Union(errors, Union([], ErrorsFrom(inner, [])))
    case Conditional(yes, no) => Union(errors, Union(ErrorsFrom(yes, []), ErrorsFrom(no, [])))
    case Finally => []
    case Expected(_) => Union([RUNTIME_ERROR], errors)
    case Catch(handlers, all) =>
      Union(if TYPE_ERASED_ERROR in Catches(handlers) || all.Some? then [] else Subtract(errors, Catches(handlers)),
            Added(e))
    case Compose(left, right) => ErrorsFrom(right, ErrorsFrom(left, errors))
  }

  /** `Raises` of each handler; an `.all` handler contributes nothing. */
  function HandlerErrors(e: Eventual): seq<Types>
    requires e.Catch?
    decreases e, 0
  {
    seq(|e.handlers|, i requires 0 <= i < |e.handlers| => ErrorsFrom(e.handlers[i].body, []))
  }

  /** What `Catch` adds to the errors that it lets through. */
  function Added(e: Eventual): Types
    requires e.Catch?
    decreases e, 1
  {
    UnionAll(HandlerErrors(e) + if e.all.Some? then [[]] else [])
  }

  lemma {:induction false} HandlersInfer(e: Eventual, t: Type)
    requires e.Catch?
    ensures t in Added(e) <==>
            exists k :: 0 <= k < |e.handlers| && t in ErrorsFrom(e.handlers[k].body, [])
  {
    var raised := HandlerErrors(e) + if e.all.Some? then [[]] else [];
    UnionAllMembers(raised, t);
    assert forall k :: 0 <= k < |e.handlers| ==> raised[k] == ErrorsFrom(e.handlers[k].body, []);
    assert forall k :: |e.handlers| <= k < |raised| ==> raised[k] == [];
  }

  /** What `Catch` lets through and what its handlers add, as sets. */
  lemma {:induction false} CatchInfers(e: Eventual, errors: Types, t: Type)
    requires e.Catch?
    ensures t in ErrorsFrom(e, errors) <==>
            || (e.all.None? && TYPE_ERASED_ERROR !in Catches(e.handlers) && t in errors && t !in Catches(e.handlers))
            || exists k :: 0 <= k < |e.handlers| && t in ErrorsFrom(e.handlers[k].body, [])
  {
    var catches := Catches(e.handlers);
    var passed := if TYPE_ERASED_ERROR in catches || e.all.Some? then [] else Subtract(errors, catches);
    SubtractMembers(errors, catches, t);
    HandlersInfer(e, t);
    UnionMembers(passed, Added(e), t);
  }

  /** Exactly which errors every other eventual is inferred to pass on or to raise. */
  lemma {:induction false} InfersExactly(e: Eventual, errors: Types, t: Type)
    requires !e.Catch?
    ensures t in ErrorsFrom(e, errors) <==>
            match e
            case Builder(raises, _, _, _) => t in raises || t in errors
            case Just => t in errors
            case Raise(raised) => t == raised || t in errors
            case ThenValue => t in errors
            case Then(inner) => t in errors || t in ErrorsFrom(inner, [])
            case Conditional(yes, no) => t in errors || t in ErrorsFrom(yes, []) || t in ErrorsFrom(no, [])
            case Finally => false
            case Expected(_) => t == RUNTIME_ERROR || t in errors
            case Compose(left, right) => t in ErrorsFrom(right, ErrorsFrom(left, errors))
  {
    match e
    case Builder(raises, _, _, _) => UnionMembers(raises, errors, t);
    case Raise(raised) => UnionMembers([raised], errors, t);
    case Then(inner) => UnionMembers(errors, ErrorsFrom(inner, []), t);
    case Conditional(yes, no) =>
      UnionMembers(ErrorsFrom(yes, []), ErrorsFrom(no, []), t);
      UnionMembers(errors, Union(ErrorsFrom(yes, []), ErrorsFrom(no, [])), t);
    case Expected(_) => UnionMembers([RUNTIME_ERROR], errors, t);
    case _ =>
  }

  /** No list of raised errors is written with a repetition. */
  predicate Tidy(e: Eventual)
    decreases e
  {
    match e
    case Builder(raises, _, _, _) => Distinct(raises)
    case Then(inner) => Tidy(inner)
    case Conditional(yes, no) => Tidy(yes) && Tidy(no)
    case Catch(handlers, all) =>
      (forall i :: 0 <= i < |handlers| ==> Tidy(handlers[i].body)) && (all.Some? ==> Tidy(all.value))
    case Compose(left, right) => Tidy(left) && Tidy(right)
    case _ => true
  }

  /** Inferred lists hold no duplicates, as the variants built from them require. */
  lemma {:induction false} InfersNoDuplicates(e: Eventual, errors: Types)
    requires Tidy(e) && Distinct(errors)
    ensures Distinct(ErrorsFrom(e, errors))
    decreases e
  {
    match e
    case Builder(raises, _, _, _) => UnionDistinct(raises, errors);
    case Raise(t) => UnionDistinct([t], errors);
    case Then(inner) =>
      InfersNoDuplicates(inner, []);
      UnionDistinct(errors, ErrorsFrom(inner, []));
    case Conditional(yes, no) =>
      InfersNoDuplicates(yes, []);
      InfersNoDuplicates(no, []);
      UnionDistinct(ErrorsFrom(yes, []), ErrorsFrom(no, []));
      UnionDistinct(errors, Union(ErrorsFrom(yes, []), ErrorsFrom(no, [])));
    case Expected(_) => UnionDistinct([RUNTIME_ERROR], errors);
    case Catch(handlers, all) =>
      var catches := Catches(handlers);
      var passed := if TYPE_ERASED_ERROR in catches || all.Some? then [] else Subtract(errors, catches);
      var raised := HandlerErrors(e) + if all.Some? then [[]] else [];
      forall k | 0 <= k < |raised| ensures Distinct(raised[k]) {
        if k < |handlers| {
          InfersNoDuplicates(handlers[k].body, []);
        }
      }
      SubtractDistinct(errors, catches);
      UnionAllDistinct(raised);
      UnionDistinct(passed, UnionAll(raised));
    case Compose(left, right) =>
      InfersNoDuplicates(left, errors);
      InfersNoDuplicates(right, ErrorsFrom(left, errors));
    case _ =>
  }

  // ------------------------------------------------------------ what happens at run time

  /**
   `TryHandle` for a handler of a specific type. It compares types without decaying the
   error's, and a reference is neither the same as a class nor derived from one.
   */
  predicate Matches(isBase: Bases, handler: Type, s: Signal) {
    && s.Raised?
    && (handler == TYPE_ERASED_ERROR || (!s.lvalue && (handler == s.error || isBase(handler, s.error))))
  }

  predicate IsFirstMatch(isBase: Bases, handlers: seq<Handler>, s: Signal, i: nat) {
    && i < |handlers| && Matches(isBase, handlers[i].error, s)
    && forall j :: 0 <= j < i ==> !Matches(isBase, handlers[j].error, s)
  }

  predicate AnyMatch(isBase: Bases, handlers: seq<Handler>, s: Signal) {
    exists i :: 0 <= i < |handlers| && Matches(isBase, handlers[i].error, s)
  }

  /** `raises` lets an eventual fail with a subtype of what it lists. */
  predicate Covered(isBase: Bases, errors: Types, s: Signal) {
    s.Raised? ==> exists i :: 0 <= i < |errors| && isBase(errors[i], s.error)
  }

  /** The compile-time condition that removes the forwarding branch; it decays the error's type. */
  predicate BranchRemoved(isBase: Bases, handlers: seq<Handler>, all: Option<Eventual>, s: Signal) {
    TYPE_ERASED_ERROR in Catches(handlers) || Covered(isBase, Catches(handlers), s) || all.Some?
  }

  /** No handler takes the error and it is not forwarded either: nothing is called. */
  predicate Drops(isBase: Bases, handlers: seq<Handler>, all: Option<Eventual>, s: Signal) {
    s.Raised? && all.None? && !AnyMatch(isBase, handlers, s) && BranchRemoved(isBase, handlers, all, s)
  }

  /** `e`, signalled with `i`, may signal its continuation with `o`. */
  ghost predicate Can(isBase: Bases, e: Eventual, i: Signal, o: Signal)
    decreases e
  {
    match e
    case Builder(raises, handlesFail, handlesStop, byLvalue) =>
      if (i.Raised? && !handlesFail) || (i.Halted? && !handlesStop) then o == i
      else Covered(isBase, raises, o) && (o.Raised? && o.lvalue ==> byLvalue)
    case Just => o == i
    case Raise(t) => o == if i.Started? then Raised(t, false) else i
    case ThenValue => o == i
    case Then(inner) => if i.Started? then Can(isBase, inner, Started, o) else o == i
    case Conditional(yes, no) =>
      if i.Started? then Can(isBase, yes, Started, o) || Can(isBase, no, Started, o) else o == i
    case Finally => o == Started
    case Expected(errors) => if i.Started? then o.Raised? ==> o.error in errors && !o.lvalue else o == i
    case Catch(handlers, all) =>
      if !i.Raised? then o == i
      else if AnyMatch(isBase, handlers, i) then
        exists k: nat :: IsFirstMatch(isBase, handlers, i, k) && Can(isBase, handlers[k].body, Started, o)
      else if all.Some? then Can(isBase, all.value, Started, o)
      else !Drops(isBase, handlers, all, i) && o == i
    case Compose(left, right) =>
      exists m :: Can(isBase, left, i, m) && Can(isBase, right, m, o)
  }

  lemma {:induction false} MatchesMeans(isBase: Bases, handlers: seq<Handler>, all: Option<Eventual>, s: Signal)
    requires s.Raised? && IsHierarchy(isBase)
    ensures forall k :: 0 <= k < |handlers| ==>
              (Matches(isBase, handlers[k].error, s) <==>
                 handlers[k].error == TYPE_ERASED_ERROR || (!s.lvalue && isBase(handlers[k].error, s.error)))
    ensures !BranchRemoved(isBase, handlers, all, s) <==>
            && all.None?
            && forall k :: 0 <= k < |handlers| ==>
                 handlers[k].error != TYPE_ERASED_ERROR && !isBase(handlers[k].error, s.error)
  {
    var catches := Catches(handlers);
    assert forall k :: 0 <= k < |handlers| ==> catches[k] == handlers[k].error;
  }

  /** `Catch::Continuation::Fail`: try the handlers in order while the error is not handled. */
  method CatchFail(isBase: Bases, handlers: seq<Handler>, all: Option<Eventual>, s: Signal)
    returns (handler: Option<nat>, forwarded: bool)
    requires s.Raised? && IsHierarchy(isBase)
    // the typed handler that runs is the first for TypeErasedError or for a base of an rvalue's type
    ensures forall k :: 0 <= k < |handlers| ==>
              (handler == Some(k) <==>
                 && (handlers[k].error == TYPE_ERASED_ERROR || (!s.lvalue && isBase(handlers[k].error, s.error)))
                 && forall j :: 0 <= j < k ==>
                      handlers[j].error != TYPE_ERASED_ERROR && (s.lvalue || !isBase(handlers[j].error, s.error)))
    // .all runs only if no typed handler does
    ensures handler == Some(|handlers|) <==>
              && all.Some?
              && forall j :: 0 <= j < |handlers| ==>
                   handlers[j].error != TYPE_ERASED_ERROR && (s.lvalue || !isBase(handlers[j].error, s.error))
    ensures handler.Some? ==> handler.value <= |handlers|
    // the error is forwarded only if no handler is for its decayed type
    ensures forwarded <==>
              && all.None?
              && forall j :: 0 <= j < |handlers| ==>
                   handlers[j].error != TYPE_ERASED_ERROR && !isBase(handlers[j].error, s.error)
    ensures handler.None? && !forwarded <==> Drops(isBase, handlers, all, s)
    ensures handler.Some? ==> !forwarded
  {
    MatchesMeans(isBase, handlers, all, s);
    var handled := false;
    handler, forwarded := None, false;
    for i := 0 to |handlers|
      invariant handled <==> handler.Some?
      invariant handled ==> IsFirstMatch(isBase, handlers, s, handler.value)
      invariant !handled ==> forall j :: 0 <= j < i ==> !Matches(isBase, handlers[j].error, s)
    {
      if !handled {
        handled := Matches(isBase, handlers[i].error, s);
        if handled {
          handler := Some(i);
        }
      }
    }
    if !handled && all.Some? {
      handled := true;
      handler := Some(|handlers|);
    }
    if !BranchRemoved(isBase, handlers, all, s) {
      forwarded := !handled;
    }
  }

  // ------------------------------------------------------------ where an error is dropped

  /**
   The handlers look at the error's type as it was passed while the removal of the
   forwarding branch looks at its decayed type. They disagree exactly for an error passed
   as an lvalue to handlers of which one is for its type or a base of it, none is for
   `TypeErasedError`, and no `.all` follows. The error is then dropped.
   */
  lemma {:induction false} DropsExactlyLvalues(isBase: Bases, handlers: seq<Handler>, all: Option<Eventual>, s: Signal)
    requires IsHierarchy(isBase)
    ensures Drops(isBase, handlers, all, s) <==>
            && s.Raised? && s.lvalue && all.None?
            && (forall k :: 0 <= k < |handlers| ==> handlers[k].error != TYPE_ERASED_ERROR)
            && (exists k :: 0 <= k < |handlers| && isBase(handlers[k].error, s.error))
  {
    var catches := Catches(handlers);
    assert forall k :: 0 <= k < |handlers| ==> catches[k] == handlers[k].error;
    if Drops(isBase, handlers, all, s) {
      forall k | 0 <= k < |handlers| ensures handlers[k].error != TYPE_ERASED_ERROR {
        assert !Matches(isBase, handlers[k].error, s);
      }
      var k :| 0 <= k < |catches| && isBase(catches[k], s.error);
      assert !Matches(isBase, handlers[k].error, s);
    }
    if k :| 0 <= k < |handlers| && s.Raised? && isBase(handlers[k].error, s.error) {
      assert isBase(catches[k], s.error);
    }
  }

  /** Some run of `e`, signalled with `i`, drops an error. */
  ghost predicate MayDrop(isBase: Bases, e: Eventual, i: Signal)
    decreases e
  {
    match e
    case Then(inner) => i.Started? && MayDrop(isBase, inner, Started)
    case Conditional(yes, no) => i.Started? && (MayDrop(isBase, yes, Started) || MayDrop(isBase, no, Started))
    case Catch(handlers, all) =>
      && i.Raised?
      && (|| Drops(isBase, handlers, all, i)
          || (exists k: nat :: IsFirstMatch(isBase, handlers, i, k) && MayDrop(isBase, handlers[k].body, Started))
          || (!AnyMatch(isBase, handlers, i) && all.Some? && MayDrop(isBase, all.value, Started)))
    case Compose(left, right) =>
      MayDrop(isBase, left, i) || exists m :: Can(isBase, left, i, m) && MayDrop(isBase, right, m)
    case _ => false
  }

  /** An eventual that fails with an lvalue of the very type that is caught: nobody hears of it. */
  lemma {:induction false} LvalueErrorIsDropped(isBase: Bases, error: Type, body: Eventual)
    requires IsHierarchy(isBase) && error != TYPE_ERASED_ERROR
    ensures var raising, catching := Builder([error], false, false, true), Catch([Handler(error, body)], None);
            && Can(isBase, raising, Started, Raised(error, true))
            && (forall o :: !Can(isBase, catching, Raised(error, true), o))
            && MayDrop(isBase, Compose(raising, catching), Started)
  {
    var raising, catching := Builder([error], false, false, true), Catch([Handler(error, body)], None);
    var s := Raised(error, true);
    assert [error][0] == error && [Handler(error, body)][0].error == error;
    DropsExactlyLvalues(isBase, catching.handlers, None, s);
    assert Can(isBase, raising, Started, s);
    assert MayDrop(isBase, catching, s);
  }

  /** No eventual in `e` fails with an lvalue of its own. */
  predicate ByRvalue(e: Eventual)
    decreases e
  {
    match e
    case Builder(_, _, _, byLvalue) => !byLvalue
    case Then(inner) => ByRvalue(inner)
    case Conditional(yes, no) => ByRvalue(yes) && ByRvalue(no)
    case Catch(handlers, all) =>
      (forall i :: 0 <= i < |handlers| ==> ByRvalue(handlers[i].body)) && (all.Some? ==> ByRvalue(all.value))
    case Compose(left, right) => ByRvalue(left) && ByRvalue(right)
    case _ => true
  }

  predicate IsLvalue(s: Signal) { s.Raised? && s.lvalue }

  /** Errors that start out as rvalues stay rvalues. */
  lemma {:induction false} RvaluesStay(isBase: Bases, e: Eventual, i: Signal, o: Signal)
    requires ByRvalue(e) && !IsLvalue(i) && Can(isBase, e, i, o)
    ensures !IsLvalue(o)
    decreases e
  {
    match e
    case Then(inner) =>
      if i.Started? {
        RvaluesStay(isBase, inner, Started, o);
      }
    case Conditional(yes, no) =>
      if i.Started? {
        if Can(isBase, yes, Started, o) {
          RvaluesStay(isBase, yes, Started, o);
        } else {
          RvaluesStay(isBase, no, Started, o);
        }
      }
    case Catch(handlers, all) =>
      if AnyMatch(isBase, handlers, i) {
        var k: nat :| IsFirstMatch(isBase, handlers, i, k) && Can(isBase, handlers[k].body, Started, o);
        RvaluesStay(isBase, handlers[k].body, Started, o);
      } else if i.Raised? && all.Some? {
        RvaluesStay(isBase, all.value, Started, o);
      }
    case Compose(left, right) =>
      var m :| Can(isBase, left, i, m) && Can(isBase, right, m, o);
      RvaluesStay(isBase, left, i, m);
      RvaluesStay(isBase, right, m, o);
    case _ =>
  }

  /** A pipeline whose eventuals fail with rvalues never drops an error, however it runs. */
  lemma {:induction false} RvaluesAreNeverDropped(isBase: Bases, e: Eventual, i: Signal)
    requires IsHierarchy(isBase) && ByRvalue(e) && !IsLvalue(i)
    ensures !MayDrop(isBase, e, i)
    decreases e
  {
    match e
    case Then(inner) => RvaluesAreNeverDropped(isBase, inner, Started);
    case Conditional(yes, no) =>
      RvaluesAreNeverDropped(isBase, yes, Started);
      RvaluesAreNeverDropped(isBase, no, Started);
    case Catch(handlers, all) =>
      DropsExactlyLvalues(isBase, handlers, all, i);
      forall k: nat | IsFirstMatch(isBase, handlers, i, k) ensures !MayDrop(isBase, handlers[k].body, Started) {
        RvaluesAreNeverDropped(isBase, handlers[k].body, Started);
      }
      if all.Some? {
        RvaluesAreNeverDropped(isBase, all.value, Started);
      }
    case Compose(left, right) =>
      RvaluesAreNeverDropped(isBase, left, i);
      forall m | Can(isBase, left, i, m) ensures !MayDrop(isBase, right, m) {
        RvaluesStay(isBase, left, i, m);
        RvaluesAreNeverDropped(isBase, right, m);
      }
    case _ =>
  }

  lemma {:induction false} FirstMatch(isBase: Bases, handlers: seq<Handler>, s: Signal) returns (k: nat)
    requires AnyMatch(isBase, handlers, s)
    ensures IsFirstMatch(isBase, handlers, s, k)
  {
    k := 0;
    while !Matches(isBase, handlers[k].error, s)
      invariant k < |handlers| && forall j :: 0 <= j < k ==> !Matches(isBase, handlers[j].error, s)
      decreases |handlers| - k
    {
      k := k + 1;
    }
  }

  /** How one run of an eventual ends: its continuation is signalled, or an error is dropped and nothing happens. */
  datatype Outcome = Signalled(signal: Signal) | Dropped

  /** `e`, signalled with `i`, has a run that ends with `r`. */
  ghost predicate Ends(isBase: Bases, e: Eventual, i: Signal, r: Outcome)
    decreases e
  {
    match e
    case Then(inner) => if i.Started? then Ends(isBase, inner, Started, r) else r == Signalled(i)
    case Conditional(yes, no) =>
      if i.Started? then Ends(isBase, yes, Started, r) || Ends(isBase, no, Started, r) else r == Signalled(i)
    case Catch(handlers, all) =>
      if !i.Raised? then r == Signalled(i)
      else if AnyMatch(isBase, handlers, i) then
        exists k: nat :: IsFirstMatch(isBase, handlers, i, k) && Ends(isBase, handlers[k].body, Started, r)
      else if all.Some? then Ends(isBase, all.value, Started, r)
      else r == if BranchRemoved(isBase, handlers, all, i) then Dropped else Signalled(i)
    case Compose(left, right) =>
      exists m :: Ends(isBase, left, i, m) && if m.Dropped? then r.Dropped? else Ends(isBase, right, m.signal, r)
    case _ => r.Signalled? && Can(isBase, e, i, r.signal)
  }

  /** Runs that signal are those of `Can`. */
  lemma {:induction false} EndsBySignal(isBase: Bases, e: Eventual, i: Signal, o: Signal)
    ensures Ends(isBase, e, i, Signalled(o)) <==> Can(isBase, e, i, o)
    decreases e
  {
    match e
    case Then(inner) => EndsBySignal(isBase, inner, Started, o);
    case Conditional(yes, no) =>
      EndsBySignal(isBase, yes, Started, o);
      EndsBySignal(isBase, no, Started, o);
    case Catch(handlers, all) =>
      forall k: nat | IsFirstMatch(isBase, handlers, i, k)
        ensures Ends(isBase, handlers[k].body, Started, Signalled(o)) <==> Can(isBase, handlers[k].body, Started, o)
      {
        EndsBySignal(isBase, handlers[k].body, Started, o);
      }
      if all.Some? {
        EndsBySignal(isBase, all.value, Started, o);
      }
    case Compose(left, right) =>
      forall m ensures Ends(isBase, left, i, Signalled(m)) <==> Can(isBase, left, i, m) {
        EndsBySignal(isBase, left, i, m);
      }
      forall m ensures Ends(isBase, right, m, Signalled(o)) <==> Can(isBase, right, m, o) {
        EndsBySignal(isBase, right, m, o);
      }
      if m :| Can(isBase, left, i, m) && Can(isBase, right, m, o) {
        assert Ends(isBase, left, i, Signalled(m)) && Ends(isBase, right, Signalled(m).signal, Signalled(o));
      }
    case _ =>
  }

  /** Runs that drop an error are those of `MayDrop`. */
  lemma {:induction false} EndsByDropping(isBase: Bases, e: Eventual, i: Signal)
    ensures Ends(isBase, e, i, Dropped) <==> MayDrop(isBase, e, i)
    decreases e
  {
    match e
    case Then(inner) => EndsByDropping(isBase, inner, Started);
    case Conditional(yes, no) =>
      EndsByDropping(isBase, yes, Started);
      EndsByDropping(isBase, no, Started);
    case Catch(handlers, all) =>
      forall k: nat | IsFirstMatch(isBase, handlers, i, k)
        ensures Ends(isBase, handlers[k].body, Started, Dropped) <==> MayDrop(isBase, handlers[k].body, Started)
      {
        EndsByDropping(isBase, handlers[k].body, Started);
      }
      if all.Some? {
        EndsByDropping(isBase, all.value, Started);
      }
    case Compose(left, right) =>
      EndsByDropping(isBase, left, i);
      forall m ensures Ends(isBase, left, i, Signalled(m)) <==> Can(isBase, left, i, m) {
        EndsBySignal(isBase, left, i, m);
      }
      forall m ensures Ends(isBase, right, m, Dropped) <==> MayDrop(isBase, right, m) {
        EndsByDropping(isBase, right, m);
      }
      if m :| Can(isBase, left, i, m) && MayDrop(isBase, right, m) {
        assert Ends(isBase, left, i, Signalled(m)) && Ends(isBase, right, Signalled(m).signal, Dropped);
      }
    case _ =>
  }

  /** Every eventual has a run from every signal. */
  lemma {:induction false} SomeRun(isBase: Bases, e: Eventual, i: Signal) returns (r: Outcome)
    ensures Ends(isBase, e, i, r)
    decreases e
  {
    r := Signalled(i);
    match e
    case Builder(_, handlesFail, _, _) =>
      if i.Raised? && handlesFail {
        r := Signalled(Started);
      }
    case Raise(t) =>
      if i.Started? {
        r := Signalled(Raised(t, false));
      }
    case Then(inner) =>
      if i.Started? {
        r := SomeRun(isBase, inner, Started);
      }
    case Conditional(yes, _) =>
      if i.Started? {
        r := SomeRun(isBase, yes, Started);
      }
    case Finally => r := Signalled(Started);
    case Catch(handlers, all) =>
      if AnyMatch(isBase, handlers, i) {
        var k := FirstMatch(isBase, handlers, i);
        r := SomeRun(isBase, handlers[k].body, Started);
      } else if i.Raised? && all.Some? {
        r := SomeRun(isBase, all.value, Started);
      } else if i.Raised? && BranchRemoved(isBase, handlers, all, i) {
        r := Dropped;
      }
    case Compose(left, right) =>
      var m := SomeRun(isBase, left, i);
      if m.Dropped? {
        r := Dropped;
      } else {
        r := SomeRun(isBase, right, m.signal);
      }
    case _ =>
  }

  /** If nothing can be dropped, every run calls the continuation of `e`, and there is one. */
  lemma {:induction false} AlwaysSignals(isBase: Bases, e: Eventual, i: Signal)
    requires !MayDrop(isBase, e, i)
    ensures exists r :: Ends(isBase, e, i, r)
    ensures forall r :: Ends(isBase, e, i, r) ==> r.Signalled? && Can(isBase, e, i, r.signal)
  {
    var r := SomeRun(isBase, e, i);
    EndsByDropping(isBase, e, i);
    forall r | Ends(isBase, e, i, r) ensures r.Signalled? && Can(isBase, e, i, r.signal) {
      if r.Signalled? {
        EndsBySignal(isBase, e, i, r.signal);
      }
    }
  }

  // ------------------------------------------------------------ soundness

  /** What an `.all` handler is inferred to raise some typed handler raises too, and expecteds hold `RuntimeError`. */
  predicate Disciplined(e: Eventual)
    decreases e
  {
    match e
    case Then(inner) => Disciplined(inner)
    case Conditional(yes, no) => Disciplined(yes) && Disciplined(no)
    case Expected(errors) => forall i :: 0 <= i < |errors| ==> errors[i] == RUNTIME_ERROR
    case Catch(handlers, all) =>
      && (forall i :: 0 <= i < |handlers| ==> Disciplined(handlers[i].body))
      && (all.Some? ==> Disciplined(all.value) && Inferred(e, all.value))
    case Compose(left, right) => Disciplined(left) && Disciplined(right)
    case _ => true
  }

  /** Every error inferred for the `.all` handler is inferred for the `Catch` because of a typed handler. */
  predicate Inferred(e: Eventual, body: Eventual)
    requires e.Catch?
  {
    forall i :: 0 <= i < |ErrorsFrom(body, [])| ==> ErrorsFrom(body, [])[i] in UnionAll(HandlerErrors(e))
  }

  lemma {:induction false} CoveredByMember(isBase: Bases, errors: Types, t: Type, s: Signal)
    requires t in errors && s.Raised? && isBase(t, s.error)
    ensures Covered(isBase, errors, s)
  {
    var i :| 0 <= i < |errors| && errors[i] == t;
  }

  lemma {:induction false} CoveredByUnion(isBase: Bases, l: Types, r: Types, s: Signal)
    ensures Covered(isBase, Union(l, r), s) <==> Covered(isBase, l, s) || Covered(isBase, r, s)
  {
    if s.Raised? {
      if i :| 0 <= i < |Union(l, r)| && isBase(Union(l, r)[i], s.error) {
        UnionMembers(l, r, Union(l, r)[i]);
        var t := Union(l, r)[i];
        if t in l {
          CoveredByMember(isBase, l, t, s);
        } else {
          CoveredByMember(isBase, r, t, s);
        }
      }
      if i :| 0 <= i < |l| && isBase(l[i], s.error) {
        UnionMembers(l, r, l[i]);
        CoveredByMember(isBase, Union(l, r), l[i], s);
      }
      if i :| 0 <= i < |r| && isBase(r[i], s.error) {
        UnionMembers(l, r, r[i]);
        CoveredByMember(isBase, Union(l, r), r[i], s);
      }
    }
  }

  lemma {:induction false} CoveredBySubset(isBase: Bases, l: Types, r: Types, s: Signal)
    requires Covered(isBase, l, s) && forall i :: 0 <= i < |l| ==> l[i] in r
    ensures Covered(isBase, r, s)
  {
    if s.Raised? {
      var i :| 0 <= i < |l| && isBase(l[i], s.error);
      CoveredByMember(isBase, r, l[i], s);
    }
  }

  /** An `.all` handler adds nothing. */
  lemma {:induction false} AddedByHandlers(isBase: Bases, e: Eventual, s: Signal)
    requires e.Catch?
    ensures Covered(isBase, Added(e), s) <==> Covered(isBase, UnionAll(HandlerErrors(e)), s)
  {
    var added, typed := Added(e), UnionAll(HandlerErrors(e));
    forall t ensures t in added <==> t in typed {
      HandlersInfer(e, t);
      UnionAllMembers(HandlerErrors(e), t);
      assert forall k :: 0 <= k < |e.handlers| ==> HandlerErrors(e)[k] == ErrorsFrom(e.handlers[k].body, []);
    }
    if Covered(isBase, added, s) {
      CoveredBySubset(isBase, added, typed, s);
    }
    if Covered(isBase, typed, s) {
      CoveredBySubset(isBase, typed, added, s);
    }
  }

  /** An error that no handler takes is still listed after subtracting what they catch. */
  lemma {:induction false} UncaughtIsListed(isBase: Bases, handlers: seq<Handler>, errors: Types, s: Signal)
    requires IsHierarchy(isBase) && s.Raised? && Covered(isBase, errors, s)
    requires !BranchRemoved(isBase, handlers, None, s)
    ensures TYPE_ERASED_ERROR !in Catches(handlers)
    ensures Covered(isBase, Subtract(errors, Catches(handlers)), s)
  {
    var catches := Catches(handlers);
    assert forall k :: 0 <= k < |catches| ==> catches[k] == handlers[k].error;
    var i :| 0 <= i < |errors| && isBase(errors[i], s.error);
    SubtractMembers(errors, catches, errors[i]);
    CoveredByMember(isBase, Subtract(errors, catches), errors[i], s);
  }

  /**
   Soundness: whatever error reaches the continuation of a disciplined eventual is a
   subtype of an inferred one, provided the same holds of what it is given.
   */
  lemma {:induction false} InferenceIsSound(isBase: Bases, e: Eventual, errors: Types, i: Signal, o: Signal)
    requires IsHierarchy(isBase) && Disciplined(e)
    requires Covered(isBase, errors, i) && Can(isBase, e, i, o)
    ensures Covered(isBase, ErrorsFrom(e, errors), o)
    decreases e
  {
    match e
    case Builder(raises, _, _, _) => CoveredByUnion(isBase, raises, errors, o);
    case Just =>
    case Raise(t) => CoveredByUnion(isBase, [t], errors, o);
      assert [t][0] == t;
    case ThenValue =>
    case Then(inner) =>
      if i.Started? {
        InferenceIsSound(isBase, inner, [], Started, o);
      }
      CoveredByUnion(isBase, errors, Union([], ErrorsFrom(inner, [])), o);
    case Conditional(yes, no) =>
      var l, r := ErrorsFrom(yes, []), ErrorsFrom(no, []);
      if i.Started? && Can(isBase, yes, Started, o) {
        InferenceIsSound(isBase, yes, [], Started, o);
      } else if i.Started? {
        InferenceIsSound(isBase, no, [], Started, o);
      }
      CoveredByUnion(isBase, l, r, o);
      CoveredByUnion(isBase, errors, Union(l, r), o);
    case Finally =>
    case Expected(_) =>
      assert [RUNTIME_ERROR][0] == RUNTIME_ERROR;
      CoveredByUnion(isBase, [RUNTIME_ERROR], errors, o);
    case Catch(_, _) => CatchIsSound(isBase, e, errors, i, o);
    case Compose(left, right) =>
      var m :| Can(isBase, left, i, m) && Can(isBase, right, m, o);
      InferenceIsSound(isBase, left, errors, i, m);
      InferenceIsSound(isBase, right, ErrorsFrom(left, errors), m, o);
  }

  /** The typed handlers of a `Catch` raise only what it is inferred to add. */
  lemma {:induction false} TypedHandlerIsSound(isBase: Bases, e: Eventual, k: nat, o: Signal)
    requires IsHierarchy(isBase) && e.Catch? && k < |e.handlers| && Disciplined(e.handlers[k].body)
    requires Can(isBase, e.handlers[k].body, Started, o)
    ensures Covered(isBase, UnionAll(HandlerErrors(e)), o)
    decreases e, 0
  {
    var errors := ErrorsFrom(e.handlers[k].body, []);
    InferenceIsSound(isBase, e.handlers[k].body, [], Started, o);
    forall i | 0 <= i < |errors| ensures errors[i] in UnionAll(HandlerErrors(e)) {
      assert HandlerErrors(e)[k] == errors;
      UnionAllMembers(HandlerErrors(e), errors[i]);
    }
    CoveredBySubset(isBase, errors, UnionAll(HandlerErrors(e)), o);
  }

  lemma {:induction false} CatchIsSound(isBase: Bases, e: Eventual, errors: Types, i: Signal, o: Signal)
    requires IsHierarchy(isBase) && e.Catch? && Disciplined(e)
    requires Covered(isBase, errors, i) && Can(isBase, e, i, o)
    ensures Covered(isBase, ErrorsFrom(e, errors), o)
    decreases e, 1
  {
    if i.Raised? {
      var handlers, all := e.handlers, e.all;
      var catches := Catches(handlers);
      var passed := if TYPE_ERASED_ERROR in catches || all.Some? then [] else Subtract(errors, catches);
      if AnyMatch(isBase, handlers, i) {
        var k: nat :| IsFirstMatch(isBase, handlers, i, k) && Can(isBase, handlers[k].body, Started, o);
        TypedHandlerIsSound(isBase, e, k, o);
      } else if all.Some? {
        InferenceIsSound(isBase, all.value, [], Started, o);
        CoveredBySubset(isBase, ErrorsFrom(all.value, []), UnionAll(HandlerErrors(e)), o);
      } else {
        UncaughtIsListed(isBase, handlers, errors, i);
      }
      AddedByHandlers(isBase, e, o);
      CoveredByUnion(isBase, passed, Added(e), o);
    }
  }

  /** A started pipeline with nothing inferred cannot fail. */
  lemma {:induction false} NothingInferredNothingRaised(isBase: Bases, e: Eventual, o: Signal)
    requires IsHierarchy(isBase) && Disciplined(e) && ErrorsFrom(e, []) == [] && Can(isBase, e, Started, o)
    ensures !o.Raised?
  {
    InferenceIsSound(isBase, e, [], Started, o);
  }

  lemma {:induction false} SplitCompose(isBase: Bases, e: Eventual, i: Signal, o: Signal) returns (m: Signal)
    requires e.Compose? && Can(isBase, e, i, o)
    ensures Can(isBase, e.left, i, m) && Can(isBase, e.right, m, o)
  {
    match e
    case Compose(left, right) =>
      m :| Can(isBase, left, i, m) && Can(isBase, right, m, o);
  }

  /** Composition is associative, in what it infers and in what it does. */
  lemma {:induction false} ComposeAssociates(isBase: Bases, l: Eventual, r: Eventual,
                                             errors: Types, i: Signal, o: Signal)
    requires l.Compose? && l.left.Compose? && r == Compose(l.left.left, Compose(l.left.right, l.right))
    ensures ErrorsFrom(l, errors) == ErrorsFrom(r, errors)
    ensures Can(isBase, l, i, o) <==> Can(isBase, r, i, o)
  {
    assert ErrorsFrom(l, errors) == ErrorsFrom(l.right, ErrorsFrom(l.left, errors));
    assert ErrorsFrom(r, errors) == ErrorsFrom(r.right, ErrorsFrom(r.left, errors));
    if Can(isBase, l, i, o) {
      var m := SplitCompose(isBase, l, i, o);
      var n := SplitCompose(isBase, l.left, i, m);
      assert Can(isBase, r.right, n, o);
      assert Can(isBase, r, i, o);
    }
    if Can(isBase, r, i, o) {
      var m := SplitCompose(isBase, r, i, o);
      var n := SplitCompose(isBase, r.right, m, o);
      assert Can(isBase, l.left, i, n);
      assert Can(isBase, l, i, o);
    }
  }

  // ------------------------------------------------------------ where inference is not sound

  /** A raising `.all` handler is not inferred. */
  lemma {:induction false} RaisingAllHandlerIsMissed(isBase: Bases, error: Type, other: Type)
    ensures var e := Compose(Raise(error), Catch([], Some(Raise(other))));
            ErrorsFrom(e, []) == [] && Can(isBase, e, Started, Raised(other, false))
  {
    var c := Catch([], Some(Raise(other)));
    var given, raised := Raised(error, false), Raised(other, false);
    assert ErrorsFrom(Raise(error), []) == [error] && HandlerErrors(c) + [[]] == [[]];
    assert Added(c) == [] && ErrorsFrom(c, [error]) == [];
    assert Can(isBase, Raise(error), Started, given) && Can(isBase, c, given, raised);
  }

  lemma {:induction false} AllHandlerAdds(isBase: Bases, e: Eventual, errors: Types, o: Signal)
    requires e.Catch? && e.all.Some?
    ensures Covered(isBase, ErrorsFrom(e, errors), o) <==> Covered(isBase, UnionAll(HandlerErrors(e)), o)
  {
    assert ErrorsFrom(e, errors) == Union([], Added(e));
    CoveredByUnion(isBase, [], Added(e), o);
    AddedByHandlers(isBase, e, o);
  }

  /** Whatever `e` makes of the signal `i` is inferred. */
  ghost predicate SoundOn(isBase: Bases, e: Eventual, errors: Types, i: Signal) {
    forall o :: Can(isBase, e, i, o) ==> Covered(isBase, ErrorsFrom(e, errors), o)
  }

  /** Whatever the `.all` handler raises is a subtype of what some typed handler is inferred to raise. */
  ghost predicate AllAddsNothing(isBase: Bases, e: Eventual)
    requires e.Catch? && e.all.Some?
  {
    forall o :: Can(isBase, e.all.value, Started, o) ==> Covered(isBase, UnionAll(HandlerErrors(e)), o)
  }

  lemma {:induction false} AllHandlerRuns(isBase: Bases, e: Eventual, i: Signal, o: Signal)
    requires e.Catch? && e.all.Some? && i.Raised? && !AnyMatch(isBase, e.handlers, i)
    ensures Can(isBase, e, i, o) <==> Can(isBase, e.all.value, Started, o)
  {
  }

  lemma {:induction false} TypedHandlerRuns(isBase: Bases, e: Eventual, i: Signal, o: Signal) returns (k: nat)
    requires e.Catch? && i.Raised? && AnyMatch(isBase, e.handlers, i) && Can(isBase, e, i, o)
    ensures k < |e.handlers| && Can(isBase, e.handlers[k].body, Started, o)
  {
    match e
    case Catch(handlers, _) =>
      k :| IsFirstMatch(isBase, handlers, i, k) && Can(isBase, handlers[k].body, Started, o);
  }

  /** On one error: inference is right exactly if a typed handler takes it or `.all` adds nothing. */
  lemma {:induction false} AllHandlerIsSoundOn(isBase: Bases, e: Eventual, errors: Types, i: Signal)
    requires IsHierarchy(isBase) && e.Catch? && e.all.Some? && i.Raised?
    requires forall k :: 0 <= k < |e.handlers| ==> Disciplined(e.handlers[k].body)
    ensures SoundOn(isBase, e, errors, i) <==> AnyMatch(isBase, e.handlers, i) || AllAddsNothing(isBase, e)
  {
    if AnyMatch(isBase, e.handlers, i) {
      forall o | Can(isBase, e, i, o) ensures Covered(isBase, ErrorsFrom(e, errors), o) {
        var k := TypedHandlerRuns(isBase, e, i, o);
        TypedHandlerIsSound(isBase, e, k, o);
        AllHandlerAdds(isBase, e, errors, o);
      }
    } else {
      forall o ensures Can(isBase, e, i, o) <==> Can(isBase, e.all.value, Started, o) {
        AllHandlerRuns(isBase, e, i, o);
      }
      forall o ensures Covered(isBase, ErrorsFrom(e, errors), o) <==> Covered(isBase, UnionAll(HandlerErrors(e)), o) {
        AllHandlerAdds(isBase, e, errors, o);
      }
    }
  }

  /**
   With an `.all` handler after any typed ones, what is inferred is right exactly if typed
   handlers take every error that can come, or whatever the `.all` handler raises is a
   subtype of what some typed handler is inferred to raise.
   */
  lemma {:induction false} AllHandlerIsSoundIff(isBase: Bases, e: Eventual, errors: Types)
    requires IsHierarchy(isBase) && e.Catch? && e.all.Some?
    requires forall k :: 0 <= k < |e.handlers| ==> Disciplined(e.handlers[k].body)
    ensures (forall i :: Covered(isBase, errors, i) ==> SoundOn(isBase, e, errors, i))
            <==>
            || (forall i: Signal :: i.Raised? && Covered(isBase, errors, i) ==> AnyMatch(isBase, e.handlers, i))
            || AllAddsNothing(isBase, e)
  {
    forall i: Signal | i.Raised?
      ensures SoundOn(isBase, e, errors, i) <==> AnyMatch(isBase, e.handlers, i) || AllAddsNothing(isBase, e)
    {
      AllHandlerIsSoundOn(isBase, e, errors, i);
    }
    forall i: Signal | !i.Raised? ensures SoundOn(isBase, e, errors, i) {
      NotRaisedIsSound(isBase, e, errors, i);
    }
  }

  lemma {:induction false} NotRaisedIsSound(isBase: Bases, e: Eventual, errors: Types, i: Signal)
    requires e.Catch? && !i.Raised?
    ensures SoundOn(isBase, e, errors, i)
  {
  }

  /** The same from the types alone: it is enough that all errors inferred for `.all` are raised by typed handlers. */
  lemma {:induction false} AllHandlerIsSoundIfInferred(isBase: Bases, e: Eventual, errors: Types, i: Signal, o: Signal)
    requires IsHierarchy(isBase) && e.Catch? && e.all.Some?
    requires (forall k :: 0 <= k < |e.handlers| ==> Disciplined(e.handlers[k].body)) && Disciplined(e.all.value)
    requires forall t :: t in ErrorsFrom(e.all.value, []) ==>
               exists k :: 0 <= k < |e.handlers| && t in ErrorsFrom(e.handlers[k].body, [])
    requires Covered(isBase, errors, i) && Can(isBase, e, i, o)
    ensures Covered(isBase, ErrorsFrom(e, errors), o)
  {
    var inferred := ErrorsFrom(e.all.value, []);
    forall n | 0 <= n < |inferred| ensures inferred[n] in UnionAll(HandlerErrors(e)) {
      assert inferred[n] in inferred;
      var k :| 0 <= k < |e.handlers| && inferred[n] in ErrorsFrom(e.handlers[k].body, []);
      assert HandlerErrors(e)[k] == ErrorsFrom(e.handlers[k].body, []);
      UnionAllMembers(HandlerErrors(e), inferred[n]);
    }
    assert Disciplined(e);
    CatchIsSound(isBase, e, errors, i, o);
  }

  /**
   An `expected` whose error is a variant is inferred to raise `RuntimeError`, while at
   run time it raises the variant's own alternatives; the two agree exactly when every
   alternative is a `RuntimeError`.
   */
  lemma {:induction false} ExpectedIsSoundIff(isBase: Bases, errors: Types)
    requires IsHierarchy(isBase)
    ensures (forall o :: Can(isBase, Expected(errors), Started, o)
                         ==> Covered(isBase, ErrorsFrom(Expected(errors), []), o))
            <==> forall i :: 0 <= i < |errors| ==> errors[i] == RUNTIME_ERROR
  {
    var inferred := ErrorsFrom(Expected(errors), []);
    assert inferred == [RUNTIME_ERROR];
    forall i | 0 <= i < |errors|
      ensures Covered(isBase, inferred, Raised(errors[i], false)) <==> errors[i] == RUNTIME_ERROR
    {
      assert inferred[0] == RUNTIME_ERROR;
    }
    assert forall i :: 0 <= i < |errors| ==> Can(isBase, Expected(errors), Started, Raised(errors[i], false));
  }
}
