/**
 * The runner of src/run.js, and the store it drives.
 *
 * The runner answers an 'Effect' with the effect handler, a 'Commit' with what
 * `runCommit` returns (the store's `dispatch`, which returns undefined) and a
 * 'GetState' with the selector applied to the current state. The branches of
 * an 'All' run in index order, each to completion, before the parent is
 * resumed with the array of their results: the handlers are synchronous here.
 *
 * `Drive` is the specification: it returns the result, the final store state,
 * the log of handler calls and the number of top-level suspensions.
 */
module LiveRun {
  import opened JsValues
  import opened Ships
  import Primitives

  /** A call the runner makes: the effect handler, `dispatch`, or `getState`. */
  datatype Event = EffectCall(effect: Val) | CommitCall(commit: Val) | StateRead

  datatype Outcome<R> = Outcome(result: R, state: Val, log: seq<Event>, steps: nat)

  datatype Branches<R> = Branches(results: seq<R>, state: Val, log: seq<Event>)

  /**
   * The answer the runner gives command `c` in store state `state`. The legacy
   * runner of src/index.js passes `applySelector == false`: it answers a read
   * with the whole state.
   */
  function Answer(runEffect: Val -> Val, applySelector: bool, c: Command, state: Val): Val {
    match c
    case Effect(e) => runEffect(e)
    case Commit(_) => Undefined
    case GetState(selector) => if applySelector then selector(state) else state
  }

  /** The store state after command `c`: only a commit changes it. */
  function After(reduce: (Val, Val) -> Val, c: Command, state: Val): Val {
    if c.Commit? then reduce(state, c.commit) else state
  }

  function EventOf(c: Command): Event {
    match c
    case Effect(e) => EffectCall(e)
    case Commit(x) => CommitCall(x)
    case GetState(_) => StateRead
  }

  /** The run of `s` from store state `state`. */
  function Drive<R(!new)>(runEffect: Val -> Val, reduce: (Val, Val) -> Val, applySelector: bool,
                          state: Val, s: Ship<R>, ghost n: nat): (o: Outcome<R>)
    requires Bounded(s, n)
    decreases n, 0
  {
    match s
    case Done(v) => Outcome(v, state, [], 0)
    case Suspend(c, resume) =>
      var next := Drive(runEffect, reduce, applySelector, After(reduce, c, state),
                        resume(Answer(runEffect, applySelector, c, state)), n - 1);
      Outcome(next.result, next.state, [EventOf(c)] + next.log, next.steps + 1)
    case Fork(ships, join) =>
      var b := DriveBranches(runEffect, reduce, applySelector, state, ships, n - 1);
      var next := Drive(runEffect, reduce, applySelector, b.state, join(b.results), n - 1);
      Outcome(next.result, next.state, b.log + next.log, next.steps + 1)
  }

  /** The branches of an 'All', run one after the other from `state`. */
  function DriveBranches<R(!new)>(runEffect: Val -> Val, reduce: (Val, Val) -> Val,
                                  applySelector: bool, state: Val, ships: seq<Ship<R>>,
                                  ghost n: nat): (b: Branches<R>)
    requires forall i :: 0 <= i < |ships| ==> Bounded(ships[i], n)
    ensures |b.results| == |ships|
    decreases n, 1, |ships|
  {
    if ships == [] then Branches([], state, [])
    else
      var first := Drive(runEffect, reduce, applySelector, state, ships[0], n);
      var rest := DriveBranches(runEffect, reduce, applySelector, first.state, ships[1..], n);
      Branches([first.result] + rest.results, rest.state, first.log + rest.log)
  }

  /** The state reached by applying the reducer to every commit of `log`, in order. */
  function Replayed(reduce: (Val, Val) -> Val, state: Val, log: seq<Event>): Val
    decreases |log|
  {
    if log == [] then state
    else Replayed(reduce, if log[0].CommitCall? then reduce(state, log[0].commit) else state, log[1..])
  }

  lemma {:induction false} ReplayedAppend(reduce: (Val, Val) -> Val, state: Val, l1: seq<Event>, l2: seq<Event>)
    ensures Replayed(reduce, state, l1 + l2) == Replayed(reduce, Replayed(reduce, state, l1), l2)
    decreases |l1|
  {
    if l1 != [] {
      assert (l1 + l2)[1..] == l1[1..] + l2;
      ReplayedAppend(reduce, if l1[0].CommitCall? then reduce(state, l1[0].commit) else state, l1[1..], l2);
    } else {
      assert l1 + l2 == l2;
    }
  }

  /**
   * The store changes only through commits: the final state is the reducer
   * folded over the commits of the log, in the order they were dispatched.
   */
  lemma {:induction false} DriveStateIsReplay<R(!new)>(runEffect: Val -> Val, reduce: (Val, Val) -> Val,
                                                       applySelector: bool, state: Val, s: Ship<R>, n: nat)
    requires Bounded(s, n)
    ensures var o := Drive(runEffect, reduce, applySelector, state, s, n);
      o.state == Replayed(reduce, state, o.log)
    decreases n, 0
  {
    match s
    case Done(_) =>
    case Suspend(c, resume) =>
      var a := Answer(runEffect, applySelector, c, state);
      var next := Drive(runEffect, reduce, applySelector, After(reduce, c, state), resume(a), n - 1);
      DriveStateIsReplay(runEffect, reduce, applySelector, After(reduce, c, state), resume(a), n - 1);
      ReplayedAppend(reduce, state, [EventOf(c)], next.log);
    case Fork(ships, join) =>
      var b := DriveBranches(runEffect, reduce, applySelector, state, ships, n - 1);
      var next := Drive(runEffect, reduce, applySelector, b.state, join(b.results), n - 1);
      DriveBranchesStateIsReplay(runEffect, reduce, applySelector, state, ships, n - 1);
      DriveStateIsReplay(runEffect, reduce, applySelector, b.state, join(b.results), n - 1);
      ReplayedAppend(reduce, state, b.log, next.log);
  }

  lemma {:induction false} DriveBranchesStateIsReplay<R(!new)>(runEffect: Val -> Val, reduce: (Val, Val) -> Val,
                                                               applySelector: bool, state: Val,
                                                               ships: seq<Ship<R>>, n: nat)
    requires forall i :: 0 <= i < |ships| ==> Bounded(ships[i], n)
    ensures var b := DriveBranches(runEffect, reduce, applySelector, state, ships, n);
      b.state == Replayed(reduce, state, b.log)
    decreases n, 1, |ships|
  {
    if ships != [] {
      var first := Drive(runEffect, reduce, applySelector, state, ships[0], n);
      var rest := DriveBranches(runEffect, reduce, applySelector, first.state, ships[1..], n);
      DriveStateIsReplay(runEffect, reduce, applySelector, state, ships[0], n);
      DriveBranchesStateIsReplay(runEffect, reduce, applySelector, first.state, ships[1..], n);
      ReplayedAppend(reduce, state, first.log, rest.log);
    }
  }

  /** The result of a run is one the ship can reach: the runner is one choice of answers. */
  lemma {:induction false} DriveReaches<R(!new)>(runEffect: Val -> Val, reduce: (Val, Val) -> Val,
                                                 applySelector: bool, state: Val, s: Ship<R>, n: nat)
    requires Bounded(s, n)
    ensures Reaches(s, Drive(runEffect, reduce, applySelector, state, s, n).result, n)
    decreases n, 0
  {
    match s
    case Done(_) =>
    case Suspend(c, resume) =>
      var a := Answer(runEffect, applySelector, c, state);
      DriveReaches(runEffect, reduce, applySelector, After(reduce, c, state), resume(a), n - 1);
    case Fork(ships, join) =>
      var b := DriveBranches(runEffect, reduce, applySelector, state, ships, n - 1);
      DriveBranchesReach(runEffect, reduce, applySelector, state, ships, n - 1);
      DriveReaches(runEffect, reduce, applySelector, b.state, join(b.results), n - 1);
  }

  lemma {:induction false} DriveBranchesReach<R(!new)>(runEffect: Val -> Val, reduce: (Val, Val) -> Val,
                                                       applySelector: bool, state: Val,
                                                       ships: seq<Ship<R>>, n: nat)
    requires forall i :: 0 <= i < |ships| ==> Bounded(ships[i], n)
    ensures var b := DriveBranches(runEffect, reduce, applySelector, state, ships, n);
      forall i :: 0 <= i < |ships| ==> Reaches(ships[i], b.results[i], n)
    decreases n, 1, |ships|
  {
    if ships != [] {
      var first := Drive(runEffect, reduce, applySelector, state, ships[0], n);
      DriveReaches(runEffect, reduce, applySelector, state, ships[0], n);
      DriveBranchesReach(runEffect, reduce, applySelector, first.state, ships[1..], n);
      var b := DriveBranches(runEffect, reduce, applySelector, state, ships, n);
      forall i | 0 <= i < |ships| ensures Reaches(ships[i], b.results[i], n) {
        if i > 0 { assert ships[i] == ships[1..][i - 1]; }
      }
    }
  }

  /**
   * Running `const x = yield* s; return f(x)` is running `s`: the same calls,
   * the same state, and `f` of its result.
   */
  lemma {:induction false} DriveMapResult<R(!new)>(runEffect: Val -> Val, reduce: (Val, Val) -> Val,
                                                   applySelector: bool, state: Val, s: Ship<R>,
                                                   f: R -> R, n: nat)
    requires Bounded(s, n)
    ensures var o := Drive(runEffect, reduce, applySelector, state, s, n);
      Drive(runEffect, reduce, applySelector, state, MapResult(s, f, n), n)
        == Outcome(f(o.result), o.state, o.log, o.steps)
    decreases n
  {
    match s
    case Done(_) =>
    case Suspend(c, resume) =>
      var a := Answer(runEffect, applySelector, c, state);
      DriveMapResult(runEffect, reduce, applySelector, After(reduce, c, state), resume(a), f, n - 1);
    case Fork(ships, join) =>
      var b := DriveBranches(runEffect, reduce, applySelector, state, ships, n - 1);
      DriveMapResult(runEffect, reduce, applySelector, b.state, join(b.results), f, n - 1);
  }

  /** A finished ship runs without calling any handler. */
  lemma DriveDone<R(!new)>(runEffect: Val -> Val, reduce: (Val, Val) -> Val, applySelector: bool,
                           state: Val, v: R, n: nat)
    ensures Drive(runEffect, reduce, applySelector, state, Done(v), n) == Outcome(v, state, [], 0)
  {
  }

  /** `call(effect)` runs the effect handler once and returns its answer. */
  lemma CallRuns(runEffect: Val -> Val, reduce: (Val, Val) -> Val, applySelector: bool,
                 state: Val, effect: Val)
    ensures Drive(runEffect, reduce, applySelector, state, Primitives.Call(effect), 1)
      == Outcome(runEffect(effect), state, [EffectCall(effect)], 1)
  {
  }

  /** `dispatch(commit)` reduces the store once and returns undefined. */
  lemma DispatchRuns(runEffect: Val -> Val, reduce: (Val, Val) -> Val, applySelector: bool,
                     state: Val, commit: Val)
    ensures Drive(runEffect, reduce, applySelector, state, Primitives.Dispatch(commit), 1)
      == Outcome(Undefined, reduce(state, commit), [CommitCall(commit)], 1)
  {
  }

  /** `getState(selector)` returns the selected part of the current state. */
  lemma GetStateRuns(runEffect: Val -> Val, reduce: (Val, Val) -> Val, state: Val,
                     selector: Val -> Val)
    ensures Drive(runEffect, reduce, true, state, Primitives.GetState(selector), 1)
      == Outcome(selector(state), state, [StateRead], 1)
  {
  }

  /**
   * `allAny(...ships)` runs the ships in order and returns the array of their
   * results, one per ship.
   */
  lemma AllAnyRuns(runEffect: Val -> Val, reduce: (Val, Val) -> Val, applySelector: bool,
                   state: Val, ships: seq<Ship<Val>>, n: nat)
    requires forall i :: 0 <= i < |ships| ==> Bounded(ships[i], n)
    ensures Bounded(Primitives.AllAny(ships), n + 1)
    ensures var b := DriveBranches(runEffect, reduce, applySelector, state, ships, n);
      Drive(runEffect, reduce, applySelector, state, Primitives.AllAny(ships), n + 1)
        == Outcome(Arr(b.results), b.state, b.log, 1)
      && |b.results| == |ships|
  {
    Primitives.AllAnyBounded(ships, n);
  }

  /**
   * The store of src/__tests__/index.js: `dispatch` replaces the state by the
   * reducer applied to it and the commit, `getState` returns the state.
   */
  class Store {
    var state: Val
    const reduce: (Val, Val) -> Val

    constructor (reduce: (Val, Val) -> Val, initialState: Val)
      ensures this.reduce == reduce && state == initialState
    {
      this.reduce := reduce;
      state := initialState;
    }

    method Dispatch(commit: Val) returns (r: Val)
      modifies this
      ensures state == reduce(old(state), commit)
      ensures r == Undefined
    {
      state := reduce(state, commit);
      r := Undefined;
    }

    function GetState(): Val
      reads this
    {
      state
    }
  }

  /** `runCommand`: one command against the store. */
  method RunCommand(runEffect: Val -> Val, store: Store, applySelector: bool, c: Command)
    returns (answer: Val)
    modifies store
    ensures answer == Answer(runEffect, applySelector, c, old(store.state))
    ensures store.state == After(store.reduce, c, old(store.state))
  {
    match c
    case Effect(e) =>
      answer := runEffect(e);
    case Commit(x) =>
      answer := store.Dispatch(x);
    case GetState(selector) =>
      var state := store.GetState();
      answer := if applySelector then selector(state) else state;
  }

  /** `runWithAnswer`: drives `s` to its result against the store. */
  method RunWithAnswer<R(!new)>(runEffect: Val -> Val, store: Store, applySelector: bool,
                                s: Ship<R>, ghost n: nat)
    returns (result: R)
    requires Bounded(s, n)
    modifies store
    ensures var o := Drive(runEffect, store.reduce, applySelector, old(store.state), s, n);
      result == o.result && store.state == o.state
    decreases n, 0
  {
    match s
    case Done(v) =>
      result := v;
    case Suspend(c, resume) =>
      var answer := RunCommand(runEffect, store, applySelector, c);
      result := RunWithAnswer(runEffect, store, applySelector, resume(answer), n - 1);
    case Fork(ships, join) =>
      var results := RunBranches(runEffect, store, applySelector, ships, n - 1);
      result := RunWithAnswer(runEffect, store, applySelector, join(results), n - 1);
  }

  /** The branches of an 'All', each run to completion, in index order. */
  method RunBranches<R(!new)>(runEffect: Val -> Val, store: Store, applySelector: bool,
                              ships: seq<Ship<R>>, ghost n: nat)
    returns (results: seq<R>)
    requires forall i :: 0 <= i < |ships| ==> Bounded(ships[i], n)
    modifies store
    ensures var b := DriveBranches(runEffect, store.reduce, applySelector, old(store.state), ships, n);
      results == b.results && store.state == b.state
    decreases n, 1
  {
    ghost var whole := DriveBranches(runEffect, store.reduce, applySelector, store.state, ships, n);
    results := [];
    var i := 0;
    while i < |ships|
      invariant 0 <= i <= |ships|
      invariant var rest := DriveBranches(runEffect, store.reduce, applySelector, store.state, ships[i..], n);
        results + rest.results == whole.results && rest.state == whole.state
    {
      ghost var rest := DriveBranches(runEffect, store.reduce, applySelector, store.state, ships[i..], n);
      assert ships[i..][0] == ships[i] && ships[i..][1..] == ships[i + 1..];
      var r := RunWithAnswer(runEffect, store, applySelector, ships[i], n);
      results := results + [r];
      i := i + 1;
    }
  }

  /** `run`: drives a ship against a store, answering reads through the selectors. */
  method Run<R(!new)>(runEffect: Val -> Val, store: Store, s: Ship<R>, ghost n: nat)
    returns (result: R)
    requires Bounded(s, n)
    modifies store
    ensures var o := Drive(runEffect, store.reduce, true, old(store.state), s, n);
      result == o.result && store.state == o.state
  {
    result := RunWithAnswer(runEffect, store, true, s, n);
  }
}

/**
 * The runner of src/index.js (lines 24-69), an older revision of the same
 * loop: it hands commits to `runDispatch` and answers a read with the whole
 * state from `runGetState()`, without a selector.
 */
module LegacyRun {
  import opened JsValues
  import opened Ships
  import opened LiveRun
  import Primitives

  /** The runner of src/index.js against a store. */
  method RunLegacy<R(!new)>(runEffect: Val -> Val, store: Store, s: Ship<R>, ghost n: nat)
    returns (result: R)
    requires Bounded(s, n)
    modifies store
    ensures var o := Drive(runEffect, store.reduce, false, old(store.state), s, n);
      result == o.result && store.state == o.state
  {
    result := RunWithAnswer(runEffect, store, false, s, n);
  }

  /** Every read `s` can make, under any answers, selects the whole state. */
  ghost predicate PlainReads<R(!new)>(s: Ship<R>, n: nat)
    decreases n
  {
    match s
    case Done(_) => true
    case Suspend(c, resume) =>
      (c.GetState? ==> forall st :: c.selector(st) == st)
      && n > 0 && forall a :: PlainReads(resume(a), n - 1)
    case Fork(ships, join) =>
      n > 0
      && (forall i :: 0 <= i < |ships| ==> PlainReads(ships[i], n - 1))
      && (forall rs :: PlainReads(join(rs), n - 1))
  }

  /** On ships that only read the whole state, the two runners agree. */
  lemma {:induction false} LegacyAgreesOnPlainReads<R(!new)>(runEffect: Val -> Val, reduce: (Val, Val) -> Val,
                                                             state: Val, s: Ship<R>, n: nat)
    requires Bounded(s, n) && PlainReads(s, n)
    ensures Drive(runEffect, reduce, false, state, s, n) == Drive(runEffect, reduce, true, state, s, n)
    decreases n, 0
  {
    match s
    case Done(_) =>
    case Suspend(c, resume) =>
      var a := Answer(runEffect, true, c, state);
      assert Answer(runEffect, false, c, state) == a;
      LegacyAgreesOnPlainReads(runEffect, reduce, After(reduce, c, state), resume(a), n - 1);
    case Fork(ships, join) =>
      LegacyBranchesAgree(runEffect, reduce, state, ships, n - 1);
      var b := DriveBranches(runEffect, reduce, true, state, ships, n - 1);
      LegacyAgreesOnPlainReads(runEffect, reduce, b.state, join(b.results), n - 1);
  }

  lemma {:induction false} LegacyBranchesAgree<R(!new)>(runEffect: Val -> Val, reduce: (Val, Val) -> Val,
                                                        state: Val, ships: seq<Ship<R>>, n: nat)
    requires forall i :: 0 <= i < |ships| ==> Bounded(ships[i], n) && PlainReads(ships[i], n)
    ensures DriveBranches(runEffect, reduce, false, state, ships, n)
      == DriveBranches(runEffect, reduce, true, state, ships, n)
    decreases n, 1, |ships|
  {
    if ships != [] {
      LegacyAgreesOnPlainReads(runEffect, reduce, state, ships[0], n);
      var first := Drive(runEffect, reduce, true, state, ships[0], n);
      LegacyBranchesAgree(runEffect, reduce, first.state, ships[1..], n);
    }
  }

  /** The legacy runner ignores a selector: a read returns the whole state. */
  lemma LegacyReadIgnoresSelector(runEffect: Val -> Val, reduce: (Val, Val) -> Val, state: Val,
                                  selector: Val -> Val)
    ensures Drive(runEffect, reduce, false, state, Primitives.GetState(selector), 1)
      == Outcome(state, state, [StateRead], 1)
  {
  }
}
