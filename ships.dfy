/**
 * Ships: the effect-system values of the library (src/ship.js).
 *
 * A ship is a generator that yields commands and finishes with a result. Here a
 * suspended ship is a command together with the continuation that receives the
 * answer, so resuming a generator with an answer `a` is applying `resume(a)`.
 * A ship either
 *  - has finished with a result (`Done`),
 *  - yields a command and waits for its answer (`Suspend`), or
 *  - yields the parallel composition `{type: 'All', ships}` and waits for the
 *    array of the branch results (`Fork`; the source's tag for it is 'All').
 */
module Ships {
  import opened JsValues

  /** The commands a ship may yield, with the tags 'Effect', 'Commit' and 'GetState'. */
  datatype Command =
    | Effect(effect: Val)
    | Commit(commit: Val)
    | GetState(selector: Val -> Val)

  datatype Ship<!R> =
    | Done(value: R)
    | Suspend(command: Command, resume: Val -> Ship<R>)
    | Fork(ships: seq<Ship<R>>, join: seq<R> -> Ship<R>)

  /** What a suspended `Ship<Val>` has yielded: a command or an 'All' of branches. */
  datatype Yield = YieldCommand(command: Command) | YieldAll(ships: seq<Ship<Val>>)

  function YieldOf(s: Ship<Val>): (y: Yield)
    requires !s.Done?
    ensures s.Suspend? <==> y.YieldCommand?
  {
    match s
    case Suspend(c, _) => YieldCommand(c)
    case Fork(ships, _) => YieldAll(ships)
  }

  /**
   * `s` suspends at most `n` times in a row, whatever the answers: every
   * continuation and every branch is bounded by `n - 1`. Every interpreter
   * and transformer of ships takes such a bound as a ghost parameter.
   */
  ghost predicate Bounded<R(!new)>(s: Ship<R>, n: nat)
    decreases n
  {
    match s
    case Done(_) => true
    case Suspend(_, resume) => n > 0 && forall a :: Bounded(resume(a), n - 1)
    case Fork(ships, join) =>
      n > 0
      && (forall i :: 0 <= i < |ships| ==> Bounded(ships[i], n - 1))
      && (forall rs :: Bounded(join(rs), n - 1))
  }

  /** A larger bound is still a bound. */
  lemma {:induction false} BoundedMono<R(!new)>(s: Ship<R>, n: nat, m: nat)
    requires Bounded(s, n) && n <= m
    ensures Bounded(s, m)
    decreases n
  {
    match s
    case Done(_) =>
    case Suspend(_, resume) =>
      forall a ensures Bounded(resume(a), m - 1) {
        BoundedMono(resume(a), n - 1, m - 1);
      }
    case Fork(ships, join) =>
      forall i | 0 <= i < |ships| ensures Bounded(ships[i], m - 1) {
        BoundedMono(ships[i], n - 1, m - 1);
      }
      forall rs ensures Bounded(join(rs), m - 1) {
        BoundedMono(join(rs), n - 1, m - 1);
      }
  }

  /**
   * `x` is a result `s` can finish with under SOME answers: any answer to a
   * command, any results of the branches of an 'All'.
   */
  ghost predicate Reaches<R(!new)>(s: Ship<R>, x: R, n: nat)
    decreases n
  {
    match s
    case Done(v) => v == x
    case Suspend(_, resume) => n > 0 && exists a :: Reaches(resume(a), x, n - 1)
    case Fork(ships, join) =>
      n > 0 && exists rs: seq<R> ::
        |rs| == |ships|
        && (forall i :: 0 <= i < |ships| ==> Reaches(ships[i], rs[i], n - 1))
        && Reaches(join(rs), x, n - 1)
  }

  /**
   * The ship `const x = yield* s; return f(x);`: it yields what `s` yields,
   * receives the same answers, and finishes with `f` of the result of `s`.
   * The library builds snapshots and traces this way, after the inner ship returns.
   */
  function MapResult<R(!new)>(s: Ship<R>, f: R -> R, ghost n: nat): (r: Ship<R>)
    requires Bounded(s, n)
    ensures Bounded(r, n)
    ensures r.Done? <==> s.Done?
    decreases n
  {
    match s
    case Done(v) => Done(f(v))
    case Suspend(c, resume) => Suspend(c, a => MapResult(resume(a), f, n - 1))
    case Fork(ships, join) => Fork(ships, rs => MapResult(join(rs), f, n - 1))
  }

  /** Every result of `MapResult(s, f)` is `f` of a result of `s`. */
  lemma {:induction false} ReachesMapResult<R(!new)>(s: Ship<R>, f: R -> R, n: nat, y: R)
    requires Bounded(s, n)
    requires Reaches(MapResult(s, f, n), y, n)
    ensures exists x :: Reaches(s, x, n) && y == f(x)
    decreases n
  {
    match s
    case Done(v) =>
      assert Reaches(s, v, n);
    case Suspend(c, resume) =>
      var a :| Reaches(MapResult(resume(a), f, n - 1), y, n - 1);
      ReachesMapResult(resume(a), f, n - 1, y);
      var x :| Reaches(resume(a), x, n - 1) && y == f(x);
      assert Reaches(s, x, n);
    case Fork(ships, join) =>
      var rs: seq<R> :| |rs| == |ships|
        && (forall i :: 0 <= i < |ships| ==> Reaches(ships[i], rs[i], n - 1))
        && Reaches(MapResult(join(rs), f, n - 1), y, n - 1);
      ReachesMapResult(join(rs), f, n - 1, y);
      var x :| Reaches(join(rs), x, n - 1) && y == f(x);
      assert Reaches(s, x, n);
  }

  /** `s` yields exactly once: it is suspended and every resumption has finished. */
  ghost predicate YieldsOnce<R(!new)>(s: Ship<R>) {
    match s
    case Done(_) => false
    case Suspend(_, resume) => forall a :: resume(a).Done?
    case Fork(_, join) => forall rs :: join(rs).Done?
  }
}

/** The primitive ships of src/ship.js: `call`, `dispatch`, `getState`, `all…`. */
module Primitives {
  import opened JsValues
  import opened Ships

  /** `call(effect)`: yields the effect once and returns its answer. */
  function Call(effect: Val): (s: Ship<Val>)
    ensures YieldsOnce(s) && Bounded(s, 1)
    ensures s.Suspend? && s.command == Effect(effect)
    ensures forall a :: s.resume(a) == Done(a)
  {
    Suspend(Effect(effect), a => Done(a))
  }

  /** `dispatch(commit)`: yields the commit once and returns undefined. */
  function Dispatch(commit: Val): (s: Ship<Val>)
    ensures YieldsOnce(s) && Bounded(s, 1)
    ensures s.Suspend? && s.command == Commit(commit)
    ensures forall a :: s.resume(a) == Done(Undefined)
  {
    Suspend(Commit(commit), _ => Done(Undefined))
  }

  /** `getState(selector)`: yields one state read and returns its answer. */
  function GetState(selector: Val -> Val): (s: Ship<Val>)
    ensures YieldsOnce(s) && Bounded(s, 1)
    ensures s.Suspend? && s.command == Command.GetState(selector)
    ensures forall a :: s.resume(a) == Done(a)
  {
    Suspend(Command.GetState(selector), a => Done(a))
  }

  /**
   * `allAny(...ships)`: yields one 'All' of the ships, in order, and returns
   * the array of their results.
   */
  function AllAny(ships: seq<Ship<Val>>): (s: Ship<Val>)
    ensures YieldsOnce(s) && s.Fork? && s.ships == ships
    ensures forall rs :: s.join(rs) == Done(Arr(rs))
  {
    Fork(ships, rs => Done(Arr(rs)))
  }

  /** An 'All' of ships bounded by `n` is bounded by `n + 1`. */
  lemma AllAnyBounded(ships: seq<Ship<Val>>, n: nat)
    requires forall i :: 0 <= i < |ships| ==> Bounded(ships[i], n)
    ensures Bounded(AllAny(ships), n + 1)
  {
  }

  /** `all(ships)`: the array form of `allAny`. */
  function All(ships: seq<Ship<Val>>): (s: Ship<Val>)
    ensures YieldsOnce(s) && s.Fork? && s.ships == ships
    ensures forall rs :: s.join(rs) == Done(Arr(rs))
  {
    AllAny(ships)
  }

  /** `all2` … `all7`: `allAny` of two to seven ships, typed as tuples in the source. */
  function All2(s1: Ship<Val>, s2: Ship<Val>): (s: Ship<Val>)
    ensures YieldsOnce(s) && s.Fork? && s.ships == [s1, s2]
    ensures forall rs :: s.join(rs) == Done(Arr(rs))
  {
    AllAny([s1, s2])
  }

  function All3(s1: Ship<Val>, s2: Ship<Val>, s3: Ship<Val>): (s: Ship<Val>)
    ensures YieldsOnce(s) && s.Fork? && s.ships == [s1, s2, s3]
    ensures forall rs :: s.join(rs) == Done(Arr(rs))
  {
    AllAny([s1, s2, s3])
  }

  function All4(s1: Ship<Val>, s2: Ship<Val>, s3: Ship<Val>, s4: Ship<Val>): (s: Ship<Val>)
    ensures YieldsOnce(s) && s.Fork? && s.ships == [s1, s2, s3, s4]
    ensures forall rs :: s.join(rs) == Done(Arr(rs))
  {
    AllAny([s1, s2, s3, s4])
  }

  function All5(s1: Ship<Val>, s2: Ship<Val>, s3: Ship<Val>, s4: Ship<Val>, s5: Ship<Val>): (s: Ship<Val>)
    ensures YieldsOnce(s) && s.Fork? && s.ships == [s1, s2, s3, s4, s5]
    ensures forall rs :: s.join(rs) == Done(Arr(rs))
  {
    AllAny([s1, s2, s3, s4, s5])
  }

  function All6(s1: Ship<Val>, s2: Ship<Val>, s3: Ship<Val>, s4: Ship<Val>, s5: Ship<Val>,
                s6: Ship<Val>): (s: Ship<Val>)
    ensures YieldsOnce(s) && s.Fork? && s.ships == [s1, s2, s3, s4, s5, s6]
    ensures forall rs :: s.join(rs) == Done(Arr(rs))
  {
    AllAny([s1, s2, s3, s4, s5, s6])
  }

  function All7(s1: Ship<Val>, s2: Ship<Val>, s3: Ship<Val>, s4: Ship<Val>, s5: Ship<Val>,
                s6: Ship<Val>, s7: Ship<Val>): (s: Ship<Val>)
    ensures YieldsOnce(s) && s.Fork? && s.ships == [s1, s2, s3, s4, s5, s6, s7]
    ensures forall rs :: s.join(rs) == Done(Arr(rs))
  {
    AllAny([s1, s2, s3, s4, s5, s6, s7])
  }
}
