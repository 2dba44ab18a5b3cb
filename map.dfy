/**
 * The lifting of src/map.js: `map(liftCommit, extractState, ship)` runs a
 * ship written against a part of the store inside a larger store. Effects go
 * through unchanged (as `call(effect)`), commits are lifted before they are
 * dispatched, and reads select from the part that `extractState` extracts.
 */
module Lift {
  import opened JsValues
  import opened Ships
  import opened LiveRun

  /** The command the lifted ship yields in place of `c`. */
  function MapCommand(liftCommit: Val -> Val, extractState: Val -> Val, c: Command): (r: Command)
    ensures r.Effect? <==> c.Effect?
    ensures r.Commit? <==> c.Commit?
    ensures c.Effect? ==> r.effect == c.effect
    ensures c.Commit? ==> r.commit == liftCommit(c.commit)
  {
    match c
    case Effect(e) => Effect(e)
    case Commit(x) => Commit(liftCommit(x))
    case GetState(selector) => GetState(st => selector(extractState(st)))
  }

  /** A lifted read selects with the ship's selector from the part that `extractState` extracts. */
  lemma LiftedSelector(liftCommit: Val -> Val, extractState: Val -> Val, c: Command, st: Val)
    requires c.GetState?
    ensures MapCommand(liftCommit, extractState, c).GetState?
    ensures MapCommand(liftCommit, extractState, c).selector(st) == c.selector(extractState(st))
  {
  }

  /**
   * What the inner ship is resumed with: the answer to the lifted command,
   * except after a commit, which returns undefined.
   */
  function InnerAnswer(c: Command, answer: Val): Val {
    if c.Commit? then Undefined else answer
  }

  /** `mapWithAnswer`, with `liftEffect` the `call` that `map` passes. */
  function MapWithAnswer<R(!new)>(liftCommit: Val -> Val, extractState: Val -> Val, s: Ship<R>,
                                  ghost n: nat): (r: Ship<R>)
    requires Bounded(s, n)
    ensures Bounded(r, n)
    ensures r.Done? <==> s.Done?
    ensures r.Done? ==> r.value == s.value
    decreases n, 0
  {
    match s
    case Done(v) => Done(v)
    case Suspend(c, resume) =>
      Suspend(MapCommand(liftCommit, extractState, c), a => MapCommandThen(liftCommit, extractState, c, resume, a, n - 1))
    case Fork(ships, join) =>
      Fork(MapBranches(liftCommit, extractState, ships, n - 1),
           rs => MapWithAnswer(liftCommit, extractState, join(rs), n - 1))
  }

  /** The lifted ship after the lifted command was answered with `a`. */
  function MapCommandThen<R(!new)>(liftCommit: Val -> Val, extractState: Val -> Val, c: Command,
                                   resume: Val -> Ship<R>, a: Val, ghost n: nat): (r: Ship<R>)
    requires forall b :: Bounded(resume(b), n)
    ensures Bounded(r, n)
    decreases n, 1
  {
    MapWithAnswer(liftCommit, extractState, resume(InnerAnswer(c, a)), n)
  }

  /** The branches of an 'All', each lifted on its own. */
  function MapBranches<R(!new)>(liftCommit: Val -> Val, extractState: Val -> Val, ships: seq<Ship<R>>,
                                ghost n: nat): (r: seq<Ship<R>>)
    requires forall i :: 0 <= i < |ships| ==> Bounded(ships[i], n)
    ensures |r| == |ships|
    ensures forall i :: 0 <= i < |ships| ==>
      r[i] == MapWithAnswer(liftCommit, extractState, ships[i], n) && Bounded(r[i], n)
    decreases n, 1
  {
    seq(|ships|, i requires 0 <= i < |ships| => MapWithAnswer(liftCommit, extractState, ships[i], n))
  }

  /** `map(liftCommit, extractState, ship)`. */
  function Map<R(!new)>(liftCommit: Val -> Val, extractState: Val -> Val, s: Ship<R>, ghost n: nat): (r: Ship<R>)
    requires Bounded(s, n)
    ensures Bounded(r, n)
  {
    MapWithAnswer(liftCommit, extractState, s, n)
  }

  /**
   * `r` behaves as the lifting of `s` under every answer: a result is the same
   * result, a command is the lifted command whose every answer resumes the
   * lifting of the continuation (with undefined after a commit), and an 'All'
   * has as many branches, each the lifting of the branch, and a join that is
   * the lifting of the join for every array of results.
   */
  ghost predicate Lifted<R(!new)>(liftCommit: Val -> Val, extractState: Val -> Val, r: Ship<R>, s: Ship<R>, n: nat)
    decreases n
  {
    match s
    case Done(v) => r == Done(v)
    case Suspend(c, resume) =>
      n > 0 && r.Suspend? && r.command == MapCommand(liftCommit, extractState, c)
      && forall a :: Lifted(liftCommit, extractState, r.resume(a), resume(InnerAnswer(c, a)), n - 1)
    case Fork(ships, join) =>
      n > 0 && r.Fork? && |r.ships| == |ships|
      && (forall i :: 0 <= i < |ships| ==> Lifted(liftCommit, extractState, r.ships[i], ships[i], n - 1))
      && (forall rs :: Lifted(liftCommit, extractState, r.join(rs), join(rs), n - 1))
  }

  /**
   * `map` keeps the shape of the ship whatever the answers are, with no
   * store, reducer or handler involved: the same number and order of
   * suspensions, each command lifted, each 'All' as wide.
   */
  lemma {:induction false} MapLifted<R(!new)>(liftCommit: Val -> Val, extractState: Val -> Val, s: Ship<R>, n: nat)
    requires Bounded(s, n)
    ensures Lifted(liftCommit, extractState, MapWithAnswer(liftCommit, extractState, s, n), s, n)
    decreases n
  {
    var r := MapWithAnswer(liftCommit, extractState, s, n);
    match s
    case Done(_) =>
    case Suspend(c, resume) =>
      forall a ensures Lifted(liftCommit, extractState, r.resume(a), resume(InnerAnswer(c, a)), n - 1) {
        assert r.resume(a) == MapCommandThen(liftCommit, extractState, c, resume, a, n - 1);
        MapLifted(liftCommit, extractState, resume(InnerAnswer(c, a)), n - 1);
      }
    case Fork(ships, join) =>
      forall i | 0 <= i < |ships| ensures Lifted(liftCommit, extractState, r.ships[i], ships[i], n - 1) {
        MapLifted(liftCommit, extractState, ships[i], n - 1);
      }
      forall rs ensures Lifted(liftCommit, extractState, r.join(rs), join(rs), n - 1) {
        assert r.join(rs) == MapWithAnswer(liftCommit, extractState, join(rs), n - 1);
        MapLifted(liftCommit, extractState, join(rs), n - 1);
      }
  }

  /**
   * The reducers agree through the lifting: reducing a lifted commit in the
   * large store and then extracting is reducing the commit in the extracted part.
   */
  ghost predicate Commutes(liftCommit: Val -> Val, extractState: Val -> Val,
                           reduceInner: (Val, Val) -> Val, reduceOuter: (Val, Val) -> Val)
  {
    forall state, commit :: extractState(reduceOuter(state, liftCommit(commit))) == reduceInner(extractState(state), commit)
  }

  function LiftEvent(liftCommit: Val -> Val, e: Event): Event {
    if e.CommitCall? then CommitCall(liftCommit(e.commit)) else e
  }

  /** The log of the lifted run: every commit lifted. */
  function LiftLog(liftCommit: Val -> Val, log: seq<Event>): (r: seq<Event>)
    ensures |r| == |log|
    ensures forall i :: 0 <= i < |log| ==> r[i] == LiftEvent(liftCommit, log[i])
  {
    if log == [] then [] else [LiftEvent(liftCommit, log[0])] + LiftLog(liftCommit, log[1..])
  }

  lemma LiftLogCons(liftCommit: Val -> Val, e: Event, log: seq<Event>)
    ensures LiftLog(liftCommit, [e] + log) == [LiftEvent(liftCommit, e)] + LiftLog(liftCommit, log)
  {
    assert ([e] + log)[1..] == log;
  }

  lemma {:induction false} LiftLogAppend(liftCommit: Val -> Val, l1: seq<Event>, l2: seq<Event>)
    ensures LiftLog(liftCommit, l1 + l2) == LiftLog(liftCommit, l1) + LiftLog(liftCommit, l2)
    decreases |l1|
  {
    if l1 == [] {
      assert l1 + l2 == l2;
    } else {
      assert (l1 + l2)[1..] == l1[1..] + l2;
      LiftLogAppend(liftCommit, l1[1..], l2);
    }
  }

  /** What `MapDrive` states about one ship. */
  ghost predicate MapAgrees<R(!new)>(runEffect: Val -> Val, liftCommit: Val -> Val, extractState: Val -> Val,
                                     reduceInner: (Val, Val) -> Val, reduceOuter: (Val, Val) -> Val,
                                     state: Val, s: Ship<R>, n: nat)
    requires Bounded(s, n)
  {
    var o := Drive(runEffect, reduceOuter, true, state, MapWithAnswer(liftCommit, extractState, s, n), n);
    var o1 := Drive(runEffect, reduceInner, true, extractState(state), s, n);
    o.result == o1.result && extractState(o.state) == o1.state
    && o.log == LiftLog(liftCommit, o1.log) && o.steps == o1.steps
  }

  /**
   * Running the lifted ship against the large store is running the ship
   * against the extracted part: the same result, the same effects and reads,
   * each commit lifted, and the extracted final state is the final state.
   */
  lemma {:induction false} MapDrive<R(!new)>(runEffect: Val -> Val, liftCommit: Val -> Val, extractState: Val -> Val,
                                             reduceInner: (Val, Val) -> Val, reduceOuter: (Val, Val) -> Val,
                                             state: Val, s: Ship<R>, n: nat)
    requires Bounded(s, n) && Commutes(liftCommit, extractState, reduceInner, reduceOuter)
    ensures MapAgrees(runEffect, liftCommit, extractState, reduceInner, reduceOuter, state, s, n)
    decreases n, 2
  {
    match s
    case Done(_) =>
    case Suspend(c, resume) =>
      MapDriveSuspend(runEffect, liftCommit, extractState, reduceInner, reduceOuter, state, c, resume, n);
    case Fork(ships, join) =>
      MapDriveFork(runEffect, liftCommit, extractState, reduceInner, reduceOuter, state, ships, join, n);
  }

  lemma {:induction false} MapDriveSuspend<R(!new)>(runEffect: Val -> Val, liftCommit: Val -> Val, extractState: Val -> Val,
                                                    reduceInner: (Val, Val) -> Val, reduceOuter: (Val, Val) -> Val,
                                                    state: Val, c: Command, resume: Val -> Ship<R>, n: nat)
    requires Bounded(Suspend(c, resume), n) && Commutes(liftCommit, extractState, reduceInner, reduceOuter)
    ensures MapAgrees(runEffect, liftCommit, extractState, reduceInner, reduceOuter, state, Suspend(c, resume), n)
    decreases n, 1
  {
    var c2 := MapCommand(liftCommit, extractState, c);
    var a := Answer(runEffect, true, c2, state);
    CommandLifted(runEffect, liftCommit, extractState, reduceInner, reduceOuter, state, c);
    MapDrive(runEffect, liftCommit, extractState, reduceInner, reduceOuter,
             After(reduceOuter, c2, state), resume(InnerAnswer(c, a)), n - 1);
    MapDriveCommand(runEffect, liftCommit, extractState, reduceInner, reduceOuter, state, c, resume, n,
                    InnerAnswer(c, a), After(reduceOuter, c2, state), extractState(After(reduceOuter, c2, state)));
  }

  lemma {:induction false} MapDriveFork<R(!new)>(runEffect: Val -> Val, liftCommit: Val -> Val, extractState: Val -> Val,
                                                 reduceInner: (Val, Val) -> Val, reduceOuter: (Val, Val) -> Val,
                                                 state: Val, ships: seq<Ship<R>>, join: seq<R> -> Ship<R>, n: nat)
    requires Bounded(Fork(ships, join), n) && Commutes(liftCommit, extractState, reduceInner, reduceOuter)
    ensures MapAgrees(runEffect, liftCommit, extractState, reduceInner, reduceOuter, state, Fork(ships, join), n)
    decreases n, 1
  {
    var b1 := DriveBranches(runEffect, reduceInner, true, extractState(state), ships, n - 1);
    var mapped := MapBranches(liftCommit, extractState, ships, n - 1);
    var b := DriveBranches(runEffect, reduceOuter, true, state, mapped, n - 1);
    MapDriveBranches(runEffect, liftCommit, extractState, reduceInner, reduceOuter, state, ships, mapped, n - 1);
    MapDrive(runEffect, liftCommit, extractState, reduceInner, reduceOuter, b.state, join(b1.results), n - 1);
    MapDriveAll(runEffect, liftCommit, extractState, reduceInner, reduceOuter, state, ships, join, n);
  }

  /**
   * One lifted command against the large store: the inner ship gets the
   * answer it would get against the extracted part, and that part changes as
   * the inner reducer changes it.
   */
  lemma CommandLifted(runEffect: Val -> Val, liftCommit: Val -> Val, extractState: Val -> Val,
                      reduceInner: (Val, Val) -> Val, reduceOuter: (Val, Val) -> Val, state: Val, c: Command)
    requires Commutes(liftCommit, extractState, reduceInner, reduceOuter)
    ensures var c2 := MapCommand(liftCommit, extractState, c);
      extractState(After(reduceOuter, c2, state)) == After(reduceInner, c, extractState(state))
      && InnerAnswer(c, Answer(runEffect, true, c2, state)) == Answer(runEffect, true, c, extractState(state))
  {
  }

  lemma MapDriveCommand<R(!new)>(runEffect: Val -> Val, liftCommit: Val -> Val, extractState: Val -> Val,
                                 reduceInner: (Val, Val) -> Val, reduceOuter: (Val, Val) -> Val,
                                 state: Val, c: Command, resume: Val -> Ship<R>, n: nat, a1: Val, next: Val, inner: Val)
    requires n > 0 && forall a :: Bounded(resume(a), n - 1)
    requires a1 == InnerAnswer(c, Answer(runEffect, true, MapCommand(liftCommit, extractState, c), state))
    requires next == After(reduceOuter, MapCommand(liftCommit, extractState, c), state)
    requires inner == extractState(next) && inner == After(reduceInner, c, extractState(state))
    requires a1 == Answer(runEffect, true, c, extractState(state))
    requires MapAgrees(runEffect, liftCommit, extractState, reduceInner, reduceOuter, next, resume(a1), n - 1)
    ensures MapAgrees(runEffect, liftCommit, extractState, reduceInner, reduceOuter, state, Suspend(c, resume), n)
  {
    var c2 := MapCommand(liftCommit, extractState, c);
    var o := Drive(runEffect, reduceOuter, true, next, MapWithAnswer(liftCommit, extractState, resume(a1), n - 1), n - 1);
    var o1 := Drive(runEffect, reduceInner, true, inner, resume(a1), n - 1);
    MapSuspendDrive(runEffect, liftCommit, extractState, reduceOuter, state, c, resume, n);
    InnerSuspendDrive(runEffect, reduceInner, extractState(state), c, resume, n);
    EventLifted(liftCommit, extractState, c);
    AgreesCons(liftCommit, extractState, EventOf(c), EventOf(c2), o, o1,
               Drive(runEffect, reduceOuter, true, state, MapWithAnswer(liftCommit, extractState, Suspend(c, resume), n), n),
               Drive(runEffect, reduceInner, true, extractState(state), Suspend(c, resume), n));
  }

  /** The call a lifted command makes is the lifting of the call the command makes. */
  lemma EventLifted(liftCommit: Val -> Val, extractState: Val -> Val, c: Command)
    ensures EventOf(MapCommand(liftCommit, extractState, c)) == LiftEvent(liftCommit, EventOf(c))
  {
  }

  /** One more step in front of two runs that agree keeps them in agreement. */
  lemma AgreesCons<R>(liftCommit: Val -> Val, extractState: Val -> Val, e: Event, e2: Event,
                      o: Outcome<R>, o1: Outcome<R>, big: Outcome<R>, small: Outcome<R>)
    requires o.result == o1.result && extractState(o.state) == o1.state
      && o.log == LiftLog(liftCommit, o1.log) && o.steps == o1.steps
    requires e2 == LiftEvent(liftCommit, e)
    requires big == Outcome(o.result, o.state, [e2] + o.log, o.steps + 1)
    requires small == Outcome(o1.result, o1.state, [e] + o1.log, o1.steps + 1)
    ensures big.result == small.result && extractState(big.state) == small.state
      && big.log == LiftLog(liftCommit, small.log) && big.steps == small.steps
  {
    LiftLogCons(liftCommit, e, o1.log);
  }

  /** How a runner drives a suspended ship. */
  lemma InnerSuspendDrive<R(!new)>(runEffect: Val -> Val, reduce: (Val, Val) -> Val, state: Val, c: Command,
                                   resume: Val -> Ship<R>, n: nat)
    requires n > 0 && forall a :: Bounded(resume(a), n - 1)
    ensures var o := Drive(runEffect, reduce, true, After(reduce, c, state), resume(Answer(runEffect, true, c, state)), n - 1);
      Drive(runEffect, reduce, true, state, Suspend(c, resume), n) == Outcome(o.result, o.state, [EventOf(c)] + o.log, o.steps + 1)
  {
  }

  /** How a runner drives the lifting of a command. */
  lemma MapSuspendDrive<R(!new)>(runEffect: Val -> Val, liftCommit: Val -> Val, extractState: Val -> Val,
                                 reduceOuter: (Val, Val) -> Val, state: Val, c: Command,
                                 resume: Val -> Ship<R>, n: nat)
    requires n > 0 && forall a :: Bounded(resume(a), n - 1)
    ensures var c2 := MapCommand(liftCommit, extractState, c);
      var a := Answer(runEffect, true, c2, state);
      var o := Drive(runEffect, reduceOuter, true, After(reduceOuter, c2, state),
                     MapWithAnswer(liftCommit, extractState, resume(InnerAnswer(c, a)), n - 1), n - 1);
      Drive(runEffect, reduceOuter, true, state, MapWithAnswer(liftCommit, extractState, Suspend(c, resume), n), n)
        == Outcome(o.result, o.state, [EventOf(c2)] + o.log, o.steps + 1)
  {
    var c2 := MapCommand(liftCommit, extractState, c);
    var a := Answer(runEffect, true, c2, state);
    var m := MapWithAnswer(liftCommit, extractState, Suspend(c, resume), n);
    assert m == Suspend(c2, m.resume);
    assert m.resume(a) == MapCommandThen(liftCommit, extractState, c, resume, a, n - 1);
    InnerSuspendDrive(runEffect, reduceOuter, state, c2, m.resume, n);
  }

  /** How a runner drives the lifting of an 'All'. */
  lemma MapForkDrive<R(!new)>(runEffect: Val -> Val, liftCommit: Val -> Val, extractState: Val -> Val,
                              reduceOuter: (Val, Val) -> Val, state: Val, ships: seq<Ship<R>>,
                              join: seq<R> -> Ship<R>, n: nat)
    requires n > 0 && forall rs :: Bounded(join(rs), n - 1)
    requires forall i :: 0 <= i < |ships| ==> Bounded(ships[i], n - 1)
    ensures var b := DriveBranches(runEffect, reduceOuter, true, state, MapBranches(liftCommit, extractState, ships, n - 1), n - 1);
      var o := Drive(runEffect, reduceOuter, true, b.state, MapWithAnswer(liftCommit, extractState, join(b.results), n - 1), n - 1);
      Drive(runEffect, reduceOuter, true, state, MapWithAnswer(liftCommit, extractState, Fork(ships, join), n), n)
        == Outcome(o.result, o.state, b.log + o.log, o.steps + 1)
  {
  }

  lemma MapDriveAll<R(!new)>(runEffect: Val -> Val, liftCommit: Val -> Val, extractState: Val -> Val,
                             reduceInner: (Val, Val) -> Val, reduceOuter: (Val, Val) -> Val,
                             state: Val, ships: seq<Ship<R>>, join: seq<R> -> Ship<R>, n: nat)
    requires n > 0 && forall rs :: Bounded(join(rs), n - 1)
    requires forall i :: 0 <= i < |ships| ==> Bounded(ships[i], n - 1)
    requires var b1 := DriveBranches(runEffect, reduceInner, true, extractState(state), ships, n - 1);
      var b := DriveBranches(runEffect, reduceOuter, true, state, MapBranches(liftCommit, extractState, ships, n - 1), n - 1);
      b.results == b1.results && extractState(b.state) == b1.state && b.log == LiftLog(liftCommit, b1.log)
      && MapAgrees(runEffect, liftCommit, extractState, reduceInner, reduceOuter, b.state, join(b1.results), n - 1)
    ensures MapAgrees(runEffect, liftCommit, extractState, reduceInner, reduceOuter, state, Fork(ships, join), n)
  {
    var b1 := DriveBranches(runEffect, reduceInner, true, extractState(state), ships, n - 1);
    var b := DriveBranches(runEffect, reduceOuter, true, state, MapBranches(liftCommit, extractState, ships, n - 1), n - 1);
    var o1 := Drive(runEffect, reduceInner, true, b1.state, join(b1.results), n - 1);
    MapForkDrive(runEffect, liftCommit, extractState, reduceOuter, state, ships, join, n);
    LiftLogAppend(liftCommit, b1.log, o1.log);
  }

  lemma {:induction false} MapDriveBranches<R(!new)>(runEffect: Val -> Val, liftCommit: Val -> Val, extractState: Val -> Val,
                                                     reduceInner: (Val, Val) -> Val, reduceOuter: (Val, Val) -> Val,
                                                     state: Val, ships: seq<Ship<R>>, mapped: seq<Ship<R>>, n: nat)
    requires forall i :: 0 <= i < |ships| ==> Bounded(ships[i], n)
    requires Commutes(liftCommit, extractState, reduceInner, reduceOuter)
    requires |mapped| == |ships| && forall i :: 0 <= i < |ships| ==> mapped[i] == MapWithAnswer(liftCommit, extractState, ships[i], n)
    requires forall i :: 0 <= i < |mapped| ==> Bounded(mapped[i], n)
    ensures var b1 := DriveBranches(runEffect, reduceInner, true, extractState(state), ships, n);
      var b := DriveBranches(runEffect, reduceOuter, true, state, mapped, n);
      b.results == b1.results && extractState(b.state) == b1.state && b.log == LiftLog(liftCommit, b1.log)
    decreases n, 3, |ships|
  {
    if ships != [] {
      MapDrive(runEffect, liftCommit, extractState, reduceInner, reduceOuter, state, ships[0], n);
      assert MapAgrees(runEffect, liftCommit, extractState, reduceInner, reduceOuter, state, ships[0], n);
      var first := Drive(runEffect, reduceOuter, true, state, mapped[0], n);
      var first1 := Drive(runEffect, reduceInner, true, extractState(state), ships[0], n);
      MapDriveBranches(runEffect, liftCommit, extractState, reduceInner, reduceOuter, first.state, ships[1..], mapped[1..], n);
      var rest1 := DriveBranches(runEffect, reduceInner, true, first1.state, ships[1..], n);
      LiftLogAppend(liftCommit, first1.log, rest1.log);
    }
  }

  /** Lifting every commit with a function that changes none leaves the log as it is. */
  lemma {:induction false} LiftLogIdentity(liftCommit: Val -> Val, log: seq<Event>)
    requires forall x :: liftCommit(x) == x
    ensures LiftLog(liftCommit, log) == log
    decreases |log|
  {
    if log != [] {
      LiftLogIdentity(liftCommit, log[1..]);
      assert [log[0]] + log[1..] == log;
    }
  }

  /** Lifting with the identity changes nothing about a run: it runs as the ship itself. */
  lemma MapIdentity<R(!new)>(runEffect: Val -> Val, reduce: (Val, Val) -> Val, state: Val, s: Ship<R>, n: nat)
    requires Bounded(s, n)
    ensures var o := Drive(runEffect, reduce, true, state, Map(x => x, x => x, s, n), n);
      var o1 := Drive(runEffect, reduce, true, state, s, n);
      o.result == o1.result && o.state == o1.state && o.log == o1.log && o.steps == o1.steps
  {
    var id: Val -> Val := x => x;
    MapDrive(runEffect, id, id, reduce, reduce, state, s, n);
    LiftLogIdentity(id, Drive(runEffect, reduce, true, state, s, n).log);
  }
}
