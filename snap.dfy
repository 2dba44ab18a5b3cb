/**
 * The recorder of src/snap.js. `snap(ship)` is a ship that yields exactly the
 * commands of `ship`, passes their answers through, and finishes with the
 * result of `ship` together with a snapshot: one item per top-level command
 * or 'All', and a final 'Return' item when the result is not undefined.
 */
module Recorder {
  import opened JsValues
  import opened Ships
  import opened LiveRun

  /**
   * A snapshot item. The first five shapes are recorded by the recorder; the
   * error item `{error: {expected, got}}` is written by the replay of
   * src/simulate.js into its output. An effect item without a result stands for
   * an object without a `result` key.
   */
  datatype Item =
    | Return(value: Val)
    | EffectItem(effect: Val, result: Option<Val>)
    | CommitItem(commit: Val)
    | GetStateItem(state: Val)
    | AllItem(snapshots: seq<Snapshot>)
    | ErrorItem(expected: Val, got: Got)

  /** The snapshot of one branch of an 'All'. */
  datatype Snapshot = Snapshot(items: seq<Item>)

  /** What the replay found where an item did not fit: a bare command, or a whole yield. */
  datatype Got = GotCommand(command: Command) | GotYield(value: Yield)

  /** The result of a recorded ship, with its snapshot. */
  datatype Recording = Recording(result: Val, snapshot: seq<Item>)

  /** What `snapCommand` returns: the answer for the recorded ship, and the item. */
  datatype CommandSnap = CommandSnap(result: Val, snapshotItem: Item)

  /** The `type` tag of an item; an error item has none. */
  function ItemType(item: Item): Val {
    match item
    case Return(_) => Str("Return")
    case EffectItem(_, _) => Str("Effect")
    case CommitItem(_) => Str("Commit")
    case GetStateItem(_) => Str("GetState")
    case AllItem(_) => Str("All")
    case ErrorItem(_, _) => Undefined
  }

  /** The snapshot of a finished ship: empty for undefined, else one 'Return' item. */
  function ReturnItems(v: Val): (items: seq<Item>)
    ensures |items| <= 1
    ensures items == [] <==> v == Undefined
    ensures items != [] ==> items[0] == Return(v)
  {
    if v == Undefined then [] else [Return(v)]
  }

  /**
   * `snapCommand`: the item for command `c` answered with `answer`, and the
   * answer passed on. A commit passes on undefined; an effect records its
   * answer only when it is not undefined.
   */
  function SnapCommand(c: Command, answer: Val): (r: CommandSnap)
    ensures ItemType(r.snapshotItem) == CommandType(c)
    ensures r.result == (if c.Commit? then Undefined else answer)
    ensures c.Effect? ==> r.snapshotItem == EffectItem(c.effect, if answer == Undefined then None else Some(answer))
    ensures c.Commit? ==> r.snapshotItem == CommitItem(c.commit)
    ensures c.GetState? ==> r.snapshotItem == GetStateItem(answer)
  {
    match c
    case Effect(e) => CommandSnap(answer, EffectItem(e, if answer == Undefined then None else Some(answer)))
    case Commit(x) => CommandSnap(Undefined, CommitItem(x))
    case GetState(_) => CommandSnap(answer, GetStateItem(answer))
  }

  /** The `type` tag of a command. */
  function CommandType(c: Command): Val {
    match c
    case Effect(_) => Str("Effect")
    case Commit(_) => Str("Commit")
    case GetState(_) => Str("GetState")
  }

  /** The results of recorded branches, in order. */
  function Results(recs: seq<Recording>): (rs: seq<Val>)
    ensures |rs| == |recs| && forall i :: 0 <= i < |recs| ==> rs[i] == recs[i].result
  {
    if recs == [] then [] else [recs[0].result] + Results(recs[1..])
  }

  /** The snapshots of recorded branches, in order. */
  function Snapshots(recs: seq<Recording>): (subs: seq<Snapshot>)
    ensures |subs| == |recs| && forall i :: 0 <= i < |recs| ==> subs[i] == Snapshot(recs[i].snapshot)
  {
    if recs == [] then [] else [Snapshot(recs[0].snapshot)] + Snapshots(recs[1..])
  }

  /** `{result, snapshot: [item, ...snapshot]}`: a recording with one more item in front. */
  function Prepend(item: Item): Recording -> Recording {
    (rec: Recording) => Recording(rec.result, [item] + rec.snapshot)
  }

  /** `snapWithAnswer`: the recorder of `s`. */
  function SnapWithAnswer(s: Ship<Val>, ghost n: nat): (r: Ship<Recording>)
    requires Bounded(s, n)
    ensures Bounded(r, n)
    ensures r.Done? <==> s.Done?
    decreases n, 0
  {
    match s
    case Done(v) => Done(Recording(v, ReturnItems(v)))
    case Suspend(c, resume) => Suspend(c, a => SnapCommandThen(c, resume, a, n - 1))
    case Fork(ships, join) =>
      Fork(SnapBranches(ships, n - 1), recs => SnapAllThen(join, recs, n - 1))
  }

  /** The branches of an 'All', each recorded on its own. */
  function SnapBranches(ships: seq<Ship<Val>>, ghost n: nat): (r: seq<Ship<Recording>>)
    requires forall i :: 0 <= i < |ships| ==> Bounded(ships[i], n)
    ensures |r| == |ships|
    ensures forall i :: 0 <= i < |ships| ==> r[i] == SnapWithAnswer(ships[i], n) && Bounded(r[i], n)
    decreases n, 1
  {
    seq(|ships|, i requires 0 <= i < |ships| => SnapWithAnswer(ships[i], n))
  }

  /**
   * The recorder after command `c` was answered with `a`: the rest of the ship
   * is recorded and the command's item goes in front of its snapshot.
   */
  function SnapCommandThen(c: Command, resume: Val -> Ship<Val>, a: Val, ghost n: nat): (r: Ship<Recording>)
    requires forall b :: Bounded(resume(b), n)
    ensures Bounded(r, n)
    decreases n, 1
  {
    var step := SnapCommand(c, a);
    MapResult(SnapWithAnswer(resume(step.result), n), Prepend(step.snapshotItem), n)
  }

  /**
   * The recorder after the branches of an 'All' finished with `recs`: the
   * parent gets their results, and one 'All' item holding their snapshots goes
   * in front of the rest.
   */
  function SnapAllThen(join: seq<Val> -> Ship<Val>, recs: seq<Recording>, ghost n: nat): (r: Ship<Recording>)
    requires forall rs :: Bounded(join(rs), n)
    ensures Bounded(r, n)
    decreases n, 1
  {
    MapResult(SnapWithAnswer(join(Results(recs)), n), Prepend(AllItem(Snapshots(recs))), n)
  }

  /** `snap(ship)`. */
  function Snap(s: Ship<Val>, ghost n: nat): (r: Ship<Recording>)
    requires Bounded(s, n)
    ensures Bounded(r, n)
  {
    SnapWithAnswer(s, n)
  }

  /** The handler calls a snapshot stands for, branches in index order. */
  function Flatten(items: seq<Item>): seq<Event>
    decreases items
  {
    if items == [] then [] else ItemEvents(items[0]) + Flatten(items[1..])
  }

  function ItemEvents(item: Item): seq<Event>
    decreases item
  {
    match item
    case Return(_) => []
    case EffectItem(e, _) => [EffectCall(e)]
    case CommitItem(x) => [CommitCall(x)]
    case GetStateItem(_) => [StateRead]
    case AllItem(subs) => FlattenAll(subs)
    case ErrorItem(_, _) => []
  }

  function FlattenAll(subs: seq<Snapshot>): seq<Event>
    decreases subs
  {
    if subs == [] then [] else Flatten(subs[0].items) + FlattenAll(subs[1..])
  }

  lemma FlattenCons(item: Item, rest: seq<Item>)
    ensures Flatten([item] + rest) == ItemEvents(item) + Flatten(rest)
  {
    assert ([item] + rest)[1..] == rest;
  }

  /**
   * Recording does not change a run: a runner driving `snap(s)` makes the same
   * handler calls in the same order, reaches the same state and the same
   * result. The snapshot has one item per top-level suspension plus the
   * 'Return' item, and lists exactly the handler calls of the run.
   */
  lemma {:induction false} SnapDrive(runEffect: Val -> Val, reduce: (Val, Val) -> Val, applySelector: bool,
                                     state: Val, s: Ship<Val>, n: nat)
    requires Bounded(s, n)
    ensures SnapAgrees(runEffect, reduce, applySelector, state, s, n)
    decreases n, 2
  {
    match s
    case Done(v) =>
      assert Flatten(ReturnItems(v)) == [] by {
        if v != Undefined { FlattenCons(Return(v), []); }
      }
    case Suspend(c, resume) =>
      var a := Answer(runEffect, applySelector, c, state);
      SnapDrive(runEffect, reduce, applySelector, After(reduce, c, state), resume(a), n - 1);
      SnapDriveCommand(runEffect, reduce, applySelector, state, c, resume, n);
    case Fork(ships, join) =>
      SnapDriveFork(runEffect, reduce, applySelector, state, ships, join, n);
  }

  lemma {:induction false} SnapDriveFork(runEffect: Val -> Val, reduce: (Val, Val) -> Val, applySelector: bool,
                                         state: Val, ships: seq<Ship<Val>>, join: seq<Val> -> Ship<Val>, n: nat)
    requires Bounded(Fork(ships, join), n)
    ensures SnapAgrees(runEffect, reduce, applySelector, state, Fork(ships, join), n)
    decreases n, 1
  {
    var snapped := SnapBranches(ships, n - 1);
    var b0 := DriveBranches(runEffect, reduce, applySelector, state, ships, n - 1);
    SnapDriveBranches(runEffect, reduce, applySelector, state, ships, snapped, n - 1);
    assert BranchesAgree(runEffect, reduce, applySelector, state, ships, n - 1);
    SnapDrive(runEffect, reduce, applySelector, b0.state, join(b0.results), n - 1);
    SnapDriveAll(runEffect, reduce, applySelector, state, ships, join, n);
  }

  /** What `SnapDrive` states about one ship. */
  ghost predicate SnapAgrees(runEffect: Val -> Val, reduce: (Val, Val) -> Val, applySelector: bool,
                             state: Val, s: Ship<Val>, n: nat)
    requires Bounded(s, n)
  {
    Agree(Drive(runEffect, reduce, applySelector, state, SnapWithAnswer(s, n), n),
          Drive(runEffect, reduce, applySelector, state, s, n))
  }

  /** A recorded run `o` agrees with the plain run `o0`. */
  ghost predicate Agree(o: Outcome<Recording>, o0: Outcome<Val>) {
    o.result.result == o0.result && o.state == o0.state && o.log == o0.log && o.steps == o0.steps
    && |o.result.snapshot| == o0.steps + |ReturnItems(o0.result)|
    && Flatten(o.result.snapshot) == o0.log
  }

  lemma SnapDriveCommand(runEffect: Val -> Val, reduce: (Val, Val) -> Val, applySelector: bool,
                         state: Val, c: Command, resume: Val -> Ship<Val>, n: nat)
    requires n > 0 && forall b :: Bounded(resume(b), n - 1)
    requires SnapAgrees(runEffect, reduce, applySelector, After(reduce, c, state),
                        resume(Answer(runEffect, applySelector, c, state)), n - 1)
    ensures SnapAgrees(runEffect, reduce, applySelector, state, Suspend(c, resume), n)
  {
    var a := Answer(runEffect, applySelector, c, state);
    var step := SnapCommand(c, a);
    var inner := SnapWithAnswer(resume(a), n - 1);
    DriveMapResult(runEffect, reduce, applySelector, After(reduce, c, state), inner, Prepend(step.snapshotItem), n - 1);
    var o1 := Drive(runEffect, reduce, applySelector, After(reduce, c, state), inner, n - 1);
    FlattenCons(step.snapshotItem, o1.result.snapshot);
  }

  lemma SnapDriveAll(runEffect: Val -> Val, reduce: (Val, Val) -> Val, applySelector: bool,
                     state: Val, ships: seq<Ship<Val>>, join: seq<Val> -> Ship<Val>, n: nat)
    requires n > 0 && forall rs :: Bounded(join(rs), n - 1)
    requires forall i :: 0 <= i < |ships| ==> Bounded(ships[i], n - 1)
    requires BranchesAgree(runEffect, reduce, applySelector, state, ships, n - 1)
    requires var b0 := DriveBranches(runEffect, reduce, applySelector, state, ships, n - 1);
      SnapAgrees(runEffect, reduce, applySelector, b0.state, join(b0.results), n - 1)
    ensures SnapAgrees(runEffect, reduce, applySelector, state, Fork(ships, join), n)
  {
    var b0 := DriveBranches(runEffect, reduce, applySelector, state, ships, n - 1);
    var o1 := Drive(runEffect, reduce, applySelector, b0.state, SnapWithAnswer(join(b0.results), n - 1), n - 1);
    var item := SnapForkOutcome(runEffect, reduce, applySelector, state, ships, join, n);
    FlattenCons(item, o1.result.snapshot);
    AgreesAfterAll(Drive(runEffect, reduce, applySelector, state, SnapWithAnswer(Fork(ships, join), n), n),
                   Drive(runEffect, reduce, applySelector, state, Fork(ships, join), n),
                   o1, Drive(runEffect, reduce, applySelector, b0.state, join(b0.results), n - 1), item, b0.log);
  }

  /** The recorded branches of an 'All' run as the plain ones do (what `SnapDriveBranches` states). */
  ghost predicate BranchesAgree(runEffect: Val -> Val, reduce: (Val, Val) -> Val, applySelector: bool,
                                state: Val, ships: seq<Ship<Val>>, n: nat)
    requires forall i :: 0 <= i < |ships| ==> Bounded(ships[i], n)
  {
    var b1 := DriveBranches(runEffect, reduce, applySelector, state, SnapBranches(ships, n), n);
    var b0 := DriveBranches(runEffect, reduce, applySelector, state, ships, n);
    Results(b1.results) == b0.results && b1.state == b0.state && b1.log == b0.log
    && FlattenAll(Snapshots(b1.results)) == b0.log
  }

  /** The run of a recorded 'All', when the recorded branches run as the plain ones do. */
  lemma SnapForkOutcome(runEffect: Val -> Val, reduce: (Val, Val) -> Val, applySelector: bool,
                        state: Val, ships: seq<Ship<Val>>, join: seq<Val> -> Ship<Val>, n: nat)
    returns (item: Item)
    requires n > 0 && forall rs :: Bounded(join(rs), n - 1)
    requires forall i :: 0 <= i < |ships| ==> Bounded(ships[i], n - 1)
    requires BranchesAgree(runEffect, reduce, applySelector, state, ships, n - 1)
    ensures var b0 := DriveBranches(runEffect, reduce, applySelector, state, ships, n - 1);
      var o1 := Drive(runEffect, reduce, applySelector, b0.state, SnapWithAnswer(join(b0.results), n - 1), n - 1);
      ItemEvents(item) == b0.log
      && Drive(runEffect, reduce, applySelector, state, SnapWithAnswer(Fork(ships, join), n), n)
         == Outcome(Recording(o1.result.result, [item] + o1.result.snapshot), o1.state, b0.log + o1.log, o1.steps + 1)
  {
    var b1 := DriveBranches(runEffect, reduce, applySelector, state, SnapBranches(ships, n - 1), n - 1);
    var b0 := DriveBranches(runEffect, reduce, applySelector, state, ships, n - 1);
    item := AllItem(Snapshots(b1.results));
    var inner := SnapWithAnswer(join(b0.results), n - 1);
    SnapForkDrive(runEffect, reduce, applySelector, state, ships, join, n);
    assert SnapAllThen(join, b1.results, n - 1) == MapResult(inner, Prepend(item), n - 1);
    DriveMapResult(runEffect, reduce, applySelector, b0.state, inner, Prepend(item), n - 1);
    assert ItemEvents(item) == b0.log;
  }

  /** The bookkeeping of `SnapDriveAll`: an 'All' item in front of an agreeing rest. */
  lemma AgreesAfterAll(o: Outcome<Recording>, o0: Outcome<Val>, o1: Outcome<Recording>, next0: Outcome<Val>,
                       item: Item, log: seq<Event>)
    requires o == Outcome(Recording(o1.result.result, [item] + o1.result.snapshot), o1.state, log + o1.log, o1.steps + 1)
    requires o0 == Outcome(next0.result, next0.state, log + next0.log, next0.steps + 1)
    requires Flatten([item] + o1.result.snapshot) == ItemEvents(item) + Flatten(o1.result.snapshot)
    requires ItemEvents(item) == log
    requires Agree(o1, next0)
    ensures Agree(o, o0)
  {
  }

  /** How a runner drives the recorder of an 'All'. */
  lemma SnapForkDrive(runEffect: Val -> Val, reduce: (Val, Val) -> Val, applySelector: bool,
                      state: Val, ships: seq<Ship<Val>>, join: seq<Val> -> Ship<Val>, n: nat)
    requires n > 0 && forall rs :: Bounded(join(rs), n - 1)
    requires forall i :: 0 <= i < |ships| ==> Bounded(ships[i], n - 1)
    ensures var b1 := DriveBranches(runEffect, reduce, applySelector, state, SnapBranches(ships, n - 1), n - 1);
      var next := Drive(runEffect, reduce, applySelector, b1.state, SnapAllThen(join, b1.results, n - 1), n - 1);
      Drive(runEffect, reduce, applySelector, state, SnapWithAnswer(Fork(ships, join), n), n)
        == Outcome(next.result, next.state, b1.log + next.log, next.steps + 1)
  {
  }

  lemma {:induction false} SnapDriveBranches(runEffect: Val -> Val, reduce: (Val, Val) -> Val, applySelector: bool,
                                             state: Val, ships: seq<Ship<Val>>, snapped: seq<Ship<Recording>>,
                                             n: nat)
    requires forall i :: 0 <= i < |ships| ==> Bounded(ships[i], n)
    requires |snapped| == |ships| && forall i :: 0 <= i < |ships| ==> snapped[i] == SnapWithAnswer(ships[i], n)
    requires forall i :: 0 <= i < |snapped| ==> Bounded(snapped[i], n)
    ensures var b1 := DriveBranches(runEffect, reduce, applySelector, state, snapped, n);
      var b0 := DriveBranches(runEffect, reduce, applySelector, state, ships, n);
      Results(b1.results) == b0.results && b1.state == b0.state && b1.log == b0.log
      && FlattenAll(Snapshots(b1.results)) == b0.log
    decreases n, 3, |ships|
  {
    if ships != [] {
      SnapDrive(runEffect, reduce, applySelector, state, ships[0], n);
      assert SnapAgrees(runEffect, reduce, applySelector, state, ships[0], n);
      var first := Drive(runEffect, reduce, applySelector, state, ships[0], n);
      SnapDriveBranches(runEffect, reduce, applySelector, first.state, ships[1..], snapped[1..], n);
      var b1 := DriveBranches(runEffect, reduce, applySelector, state, snapped, n);
      var rest1 := DriveBranches(runEffect, reduce, applySelector, first.state, snapped[1..], n);
      assert b1.results == [b1.results[0]] + rest1.results;
      assert Snapshots(b1.results)[1..] == Snapshots(rest1.results);
    }
  }
}
