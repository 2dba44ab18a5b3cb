/**
 * The replay of src/simulate.js. `simulate(ship, snapshot)` runs `ship`
 * without handlers: each command is answered from the next item of the
 * snapshot when the item has the command's type, and the output snapshot
 * describes what the ship did. The replay stops at the first item that does
 * not fit, writing an error item there, and always returns.
 *
 * The source keeps an effect's result in the output only when it is truthy,
 * while the recorder keeps it whenever it is not undefined, so a recorded
 * `0`, `false`, `""` or `null` does not survive a replay. `ResultCheck`
 * selects between the test as written and the test that matches the recorder.
 */
module Simulation {
  import opened JsValues
  import opened Ships
  import opened LiveRun
  import opened Recorder

  /** `{result: ?{value}, snapshot}`: the result is `None` when the replay stopped early. */
  datatype Replay = Replay(result: Option<Val>, snapshot: seq<Item>)

  /** What `simulateCommand` returns: the answer, if the item fits, and the output item. */
  datatype CommandReplay = CommandReplay(result: Option<Val>, snapshotItem: Item)

  /** The accumulator of the reduce over the branches of an 'All'. */
  datatype BranchesReplay = BranchesReplay(results: Option<seq<Val>>, snapshots: seq<Snapshot>)

  /** Which effect results the output snapshot keeps. */
  datatype ResultCheck =
    | KeepTruthy    // `snapshotItem.result ? … : …`, as written
    | KeepDefined   // `result === undefined ? … : …`, the recorder's test

  predicate Keeps(check: ResultCheck, v: Val) {
    match check
    case KeepTruthy => Truthy(v)
    case KeepDefined => v != Undefined
  }

  /** The `result` property of an effect item; a missing one reads as undefined. */
  function ResultOf(result: Option<Val>): Val {
    match result
    case None => Undefined
    case Some(v) => v
  }

  /** `snapshotItemError`: the item `{error: {expected, got}}`. */
  function SnapshotItemError(expected: Val, got: Got): (item: Item)
    ensures ItemType(item) == Undefined && ItemEvents(item) == []
  {
    ErrorItem(expected, got)
  }

  /** The effect item of the output: the ship's effect, and the result if the check keeps it. */
  function OutputEffect(check: ResultCheck, effect: Val, result: Val): (item: Item)
    ensures item.EffectItem? && item.effect == effect
    ensures item.result.Some? <==> Keeps(check, result)
    ensures item.result.Some? ==> item.result.value == result
  {
    if Keeps(check, result) then EffectItem(effect, Some(result)) else EffectItem(effect, None)
  }

  /**
   * `simulateCommand`: the answer to command `c` from `item` when it has the
   * command's type, else no answer and an error item naming both.
   */
  function SimulateCommand(check: ResultCheck, c: Command, item: Item): (r: CommandReplay)
    ensures r.result.Some? <==> ItemType(item) == CommandType(c)
    ensures r.result.None? ==> r.snapshotItem == ErrorItem(ItemType(item), GotCommand(c))
    ensures r.result.Some? ==> ItemEvents(r.snapshotItem) == [EventOf(c)]
    ensures r.result.Some? && c.Effect? ==> r.snapshotItem == OutputEffect(check, c.effect, ResultOf(item.result))
    ensures r.result.Some? && c.Commit? ==> r.snapshotItem == CommitItem(c.commit)
    ensures r.result.Some? && c.Effect? ==> r.result.value == ResultOf(item.result)
    ensures r.result.Some? && c.Commit? ==> r.result.value == Undefined
    ensures r.result.Some? && c.GetState? ==> r.result.value == item.state && r.snapshotItem == item
  {
    match c
    case Effect(e) =>
      if item.EffectItem? then
        CommandReplay(Some(ResultOf(item.result)), OutputEffect(check, e, ResultOf(item.result)))
      else CommandReplay(None, SnapshotItemError(ItemType(item), GotCommand(c)))
    case Commit(x) =>
      if item.CommitItem? then CommandReplay(Some(Undefined), CommitItem(x))
      else CommandReplay(None, SnapshotItemError(ItemType(item), GotCommand(c)))
    case GetState(_) =>
      if item.GetStateItem? then CommandReplay(Some(item.state), item)
      else CommandReplay(None, SnapshotItemError(ItemType(item), GotCommand(c)))
  }

  function Last<T>(s: seq<T>): T
    requires s != []
  {
    s[|s| - 1]
  }

  /**
   * `simulateWithAnswer`: the replay of `s` against `snapshot`. The output has
   * at most one item more than the input (the 'Return' item), and a replay
   * that stopped early ends with the item that says why: an error item, or an
   * 'All' item whose branches did not all finish.
   */
  function SimulateWithAnswer(check: ResultCheck, s: Ship<Val>, snapshot: seq<Item>): (r: Replay)
    ensures |r.snapshot| <= |snapshot| + 1
    ensures r.result.None? ==> r.snapshot != [] && (Last(r.snapshot).ErrorItem? || Last(r.snapshot).AllItem?)
    decreases snapshot
  {
    if s.Done? then Replay(Some(s.value), ReturnItems(s.value))
    else if snapshot == [] then
      Replay(None, [SnapshotItemError(Str("terminated"), GotYield(YieldOf(s)))])
    else
      match s
      case Suspend(c, resume) =>
        var step := SimulateCommand(check, c, snapshot[0]);
        if step.result.Some? then
          var next := SimulateWithAnswer(check, resume(step.result.value), snapshot[1..]);
          Replay(next.result, [step.snapshotItem] + next.snapshot)
        else Replay(None, [step.snapshotItem])
      case Fork(ships, join) =>
        if snapshot[0].AllItem? then
          var b := SimulateBranches(check, ships, snapshot[0].snapshots, 0, BranchesReplay(Some([]), []));
          if b.results.Some? then
            var next := SimulateWithAnswer(check, join(b.results.value), snapshot[1..]);
            Replay(next.result, [AllItem(b.snapshots)] + next.snapshot)
          else Replay(None, [AllItem(b.snapshots)])
        else Replay(None, [SnapshotItemError(ItemType(snapshot[0]), GotYield(YieldOf(s)))])
  }

  /**
   * The reduce over the branches of an 'All', from branch `i` on: a branch
   * without a sub-snapshot is skipped and a branch that stops early is kept,
   * and either one makes the results `None`.
   */
  function SimulateBranches(check: ResultCheck, ships: seq<Ship<Val>>, subs: seq<Snapshot>, i: nat,
                            acc: BranchesReplay): (r: BranchesReplay)
    requires i <= |ships|
    ensures r.results.Some? ==> acc.results.Some? && |r.results.value| == |acc.results.value| + |ships| - i
    ensures |acc.snapshots| <= |r.snapshots| <= |acc.snapshots| + |ships| - i
    decreases subs, |ships| - i
  {
    if i == |ships| then acc
    else if i < |subs| then
      var out := SimulateWithAnswer(check, ships[i], subs[i].items);
      if out.result.Some? then
        SimulateBranches(check, ships, subs, i + 1,
          BranchesReplay(if acc.results.Some? then Some(acc.results.value + [out.result.value]) else None,
                         acc.snapshots + [Snapshot(out.snapshot)]))
      else SimulateBranches(check, ships, subs, i + 1, BranchesReplay(None, acc.snapshots + [Snapshot(out.snapshot)]))
    else SimulateBranches(check, ships, subs, i + 1, BranchesReplay(None, acc.snapshots))
  }

  /** `simulate(ship, snapshot)`, as written: the output snapshot of the replay. */
  function Simulate(s: Ship<Val>, snapshot: seq<Item>): (out: seq<Item>)
    ensures |out| <= |snapshot| + 1
  {
    SimulateWithAnswer(KeepTruthy, s, snapshot).snapshot
  }

  /** `simulate` with the recorder's test for keeping an effect result. */
  function SimulateCorrected(s: Ship<Val>, snapshot: seq<Item>): (out: seq<Item>)
    ensures |out| <= |snapshot| + 1
  {
    SimulateWithAnswer(KeepDefined, s, snapshot).snapshot
  }
}

/** Properties of the replay on its own. */
module SimulateProps {
  import opened JsValues
  import opened Ships
  import opened Recorder
  import opened Simulation

  /** A finished ship ignores the rest of the snapshot: the replay does not check that it is used up. */
  lemma SimulateDone(check: ResultCheck, v: Val, snapshot: seq<Item>)
    ensures SimulateWithAnswer(check, Done(v), snapshot) == Replay(Some(v), ReturnItems(v))
  {
  }

  /** A ship that is still running when the snapshot is used up stops with a 'terminated' error. */
  lemma SimulateExhausted(check: ResultCheck, s: Ship<Val>)
    requires !s.Done?
    ensures SimulateWithAnswer(check, s, [])
      == Replay(None, [ErrorItem(Str("terminated"), GotYield(YieldOf(s)))])
  {
  }

  /**
   * A command meets an item of another type: the replay stops with one error
   * item naming the item's type and the command, and reads nothing further.
   */
  lemma SimulateMismatch(check: ResultCheck, c: Command, resume: Val -> Ship<Val>, item: Item, rest: seq<Item>)
    requires ItemType(item) != CommandType(c)
    ensures SimulateWithAnswer(check, Suspend(c, resume), [item] + rest)
      == Replay(None, [ErrorItem(ItemType(item), GotCommand(c))])
  {
  }

  /**
   * Only the type of an effect item is compared: the ship gets the recorded
   * result, and the output shows the effect the ship asked for now, so a
   * snapshot test shows a changed effect as a difference.
   */
  lemma SimulateAnswersRecordedResult(check: ResultCheck, e: Val, resume: Val -> Ship<Val>,
                                      recorded: Val, result: Option<Val>, rest: seq<Item>)
    ensures var next := SimulateWithAnswer(check, resume(ResultOf(result)), rest);
      SimulateWithAnswer(check, Suspend(Effect(e), resume), [EffectItem(recorded, result)] + rest)
        == Replay(next.result, [OutputEffect(check, e, ResultOf(result))] + next.snapshot)
  {
    assert ([EffectItem(recorded, result)] + rest)[1..] == rest;
  }

  /**
   * A ship that yields an 'All' against an item of another type: the replay
   * stops with one error item naming the item's type and the 'All' it got.
   */
  lemma SimulateForkMismatch(check: ResultCheck, ships: seq<Ship<Val>>, join: seq<Val> -> Ship<Val>,
                             item: Item, rest: seq<Item>)
    requires !item.AllItem?
    ensures SimulateWithAnswer(check, Fork(ships, join), [item] + rest)
      == Replay(None, [ErrorItem(ItemType(item), GotYield(YieldAll(ships)))])
  {
  }

  /**
   * The output snapshots of the branches from `i` on: one per branch that has
   * a sub-snapshot, whether or not it replays to its end, in branch order.
   * Branches past the last sub-snapshot contribute nothing.
   */
  function BranchOutputs(check: ResultCheck, ships: seq<Ship<Val>>, subs: seq<Snapshot>, i: nat): (outs: seq<Snapshot>)
    ensures |outs| == if i < |ships| && i < |subs| then (if |ships| < |subs| then |ships| else |subs|) - i else 0
  {
    var m := if |ships| < |subs| then |ships| else |subs|;
    if m <= i then []
    else seq(m - i, j requires 0 <= j < m - i => Snapshot(SimulateWithAnswer(check, ships[i + j], subs[i + j].items).snapshot))
  }

  /** The first branch with a sub-snapshot in front of the outputs of the rest. */
  lemma BranchOutputsCons(check: ResultCheck, ships: seq<Ship<Val>>, subs: seq<Snapshot>, i: nat)
    requires i < |ships| && i < |subs|
    ensures BranchOutputs(check, ships, subs, i)
      == [Snapshot(SimulateWithAnswer(check, ships[i], subs[i].items).snapshot)] + BranchOutputs(check, ships, subs, i + 1)
  {
    var outs := BranchOutputs(check, ships, subs, i);
    var rest := BranchOutputs(check, ships, subs, i + 1);
    assert |outs| == |rest| + 1;
    forall j | 0 <= j < |rest| ensures outs[j + 1] == rest[j] {
      assert i + (j + 1) == (i + 1) + j;
    }
  }

  lemma Regroup<T>(front: seq<T>, s: seq<T>, i: nat)
    requires i < |s|
    ensures front + [s[i]] + s[i + 1..] == front + s[i..]
  {
    assert s[i..] == [s[i]] + s[i + 1..];
  }

  /** One branch with a sub-snapshot: its output is appended and its result, if any, kept. */
  lemma BranchesStep(check: ResultCheck, ships: seq<Ship<Val>>, subs: seq<Snapshot>, i: nat, acc: BranchesReplay,
                     o: Replay)
    requires i < |ships| && i < |subs| && o == SimulateWithAnswer(check, ships[i], subs[i].items)
    ensures SimulateBranches(check, ships, subs, i, acc)
      == SimulateBranches(check, ships, subs, i + 1,
           BranchesReplay(if o.result.Some? && acc.results.Some? then Some(acc.results.value + [o.result.value]) else None,
                          acc.snapshots + [Snapshot(o.snapshot)]))
  {
  }

  lemma SnapshotsRegroup(front: seq<Snapshot>, x: Snapshot, rest: seq<Snapshot>)
    ensures front + [x] + rest == front + ([x] + rest)
  {
  }

  /** The 'All' item of the output holds exactly the branch outputs that `BranchOutputs` lists. */
  lemma {:induction false} BranchesSnapshots(check: ResultCheck, ships: seq<Ship<Val>>, subs: seq<Snapshot>,
                                             i: nat, acc: BranchesReplay)
    requires i <= |ships|
    ensures SimulateBranches(check, ships, subs, i, acc).snapshots == acc.snapshots + BranchOutputs(check, ships, subs, i)
    decreases |ships| - i
  {
    if i == |ships| {
      assert acc.snapshots + [] == acc.snapshots;
    } else if i < |subs| {
      var o := SimulateWithAnswer(check, ships[i], subs[i].items);
      var out := Snapshot(o.snapshot);
      var acc' := BranchesReplay(if o.result.Some? && acc.results.Some? then Some(acc.results.value + [o.result.value]) else None,
                                 acc.snapshots + [out]);
      BranchesStep(check, ships, subs, i, acc, o);
      BranchesSnapshots(check, ships, subs, i + 1, acc');
      BranchOutputsCons(check, ships, subs, i);
      SnapshotsRegroup(acc.snapshots, out, BranchOutputs(check, ships, subs, i + 1));
    } else {
      BranchesSnapshots(check, ships, subs, i + 1, BranchesReplay(None, acc.snapshots));
    }
  }

  /** An 'All' against an 'All' item whose branches all replay: the parent goes on after the 'All' item. */
  lemma SimulateForkResumes(check: ResultCheck, ships: seq<Ship<Val>>, join: seq<Val> -> Ship<Val>,
                            subs: seq<Snapshot>, rest: seq<Item>, b: BranchesReplay)
    requires b == SimulateBranches(check, ships, subs, 0, BranchesReplay(Some([]), [])) && b.results.Some?
    ensures var next := SimulateWithAnswer(check, join(b.results.value), rest);
      SimulateWithAnswer(check, Fork(ships, join), [AllItem(subs)] + rest)
        == Replay(next.result, [AllItem(b.snapshots)] + next.snapshot)
  {
    assert ([AllItem(subs)] + rest)[1..] == rest;
  }

  /**
   * An 'All' against an 'All' item: every branch with a sub-snapshot is
   * replayed and its output kept, finished or not. When some branch has no
   * sub-snapshot or stops early, the replay stops with that one partial 'All'
   * item; otherwise the parent goes on with the results after it.
   */
  lemma SimulateFork(check: ResultCheck, ships: seq<Ship<Val>>, join: seq<Val> -> Ship<Val>,
                     subs: seq<Snapshot>, rest: seq<Item>)
    ensures var b := SimulateBranches(check, ships, subs, 0, BranchesReplay(Some([]), []));
      var item := AllItem(BranchOutputs(check, ships, subs, 0));
      && (b.results.None? ==>
            SimulateWithAnswer(check, Fork(ships, join), [AllItem(subs)] + rest) == Replay(None, [item]))
      && (b.results.Some? ==>
            var next := SimulateWithAnswer(check, join(b.results.value), rest);
            SimulateWithAnswer(check, Fork(ships, join), [AllItem(subs)] + rest)
              == Replay(next.result, [item] + next.snapshot))
  {
    BranchesSnapshots(check, ships, subs, 0, BranchesReplay(Some([]), []));
    assert ([AllItem(subs)] + rest)[1..] == rest;
    assert [] + BranchOutputs(check, ships, subs, 0) == BranchOutputs(check, ships, subs, 0);
  }

  /** Branch `j` has its sub-snapshot and replays to its end. */
  predicate BranchReplays(check: ResultCheck, ships: seq<Ship<Val>>, subs: seq<Snapshot>, j: int) {
    0 <= j < |ships| && j < |subs| && SimulateWithAnswer(check, ships[j], subs[j].items).result.Some?
  }

  /**
   * The parent of an 'All' is resumed exactly when every branch has its
   * sub-snapshot and every branch replays to its end.
   */
  lemma {:induction false} BranchesFinishIff(check: ResultCheck, ships: seq<Ship<Val>>, subs: seq<Snapshot>,
                                             i: nat, acc: BranchesReplay)
    requires i <= |ships|
    ensures SimulateBranches(check, ships, subs, i, acc).results.Some?
      <==> acc.results.Some? && forall j :: i <= j < |ships| ==> BranchReplays(check, ships, subs, j)
    decreases |ships| - i
  {
    if i < |ships| {
      if i < |subs| {
        var out := SimulateWithAnswer(check, ships[i], subs[i].items);
        if out.result.Some? {
          var acc' := BranchesReplay(if acc.results.Some? then Some(acc.results.value + [out.result.value]) else None,
                                     acc.snapshots + [Snapshot(out.snapshot)]);
          BranchesFinishIff(check, ships, subs, i + 1, acc');
          assert BranchReplays(check, ships, subs, i);
        } else {
          BranchesFinishIff(check, ships, subs, i + 1, BranchesReplay(None, acc.snapshots + [Snapshot(out.snapshot)]));
          assert !BranchReplays(check, ships, subs, i);
        }
      } else {
        BranchesFinishIff(check, ships, subs, i + 1, BranchesReplay(None, acc.snapshots));
        assert !BranchReplays(check, ships, subs, i);
      }
    }
  }

  /**
   * When every branch has a sub-snapshot and replays to its end, the parent
   * gets their results in order and the 'All' item their output snapshots.
   */
  lemma {:induction false} ReplayBranches(check: ResultCheck, ships: seq<Ship<Val>>, subs: seq<Snapshot>, i: nat,
                                          accResults: seq<Val>, accSnapshots: seq<Snapshot>,
                                          results: seq<Val>, outputs: seq<Snapshot>)
    requires i <= |ships| <= |subs| && |results| == |ships| && |outputs| == |ships|
    requires forall j :: i <= j < |ships| ==>
      SimulateWithAnswer(check, ships[j], subs[j].items) == Replay(Some(results[j]), outputs[j].items)
    ensures SimulateBranches(check, ships, subs, i, BranchesReplay(Some(accResults), accSnapshots))
      == BranchesReplay(Some(accResults + results[i..]), accSnapshots + outputs[i..])
    decreases |ships| - i
  {
    if i == |ships| {
      assert results[i..] == [] && outputs[i..] == [];
      assert accResults + results[i..] == accResults && accSnapshots + outputs[i..] == accSnapshots;
    } else {
      var out := SimulateWithAnswer(check, ships[i], subs[i].items);
      assert Snapshot(out.snapshot) == outputs[i];
      BranchesStep(check, ships, subs, i, BranchesReplay(Some(accResults), accSnapshots), out);
      ReplayBranches(check, ships, subs, i + 1, accResults + [results[i]], accSnapshots + [outputs[i]],
                     results, outputs);
      Regroup(accResults, results, i);
      Regroup(accSnapshots, outputs, i);
    }
  }
}
