/**
 * Replaying a recording: whatever answers a recorded ship received, replaying
 * the snapshot against the same ship finishes with the recorded result and
 * returns the snapshot itself, up to the effect results the replay's check
 * drops. With the recorder's own check nothing is dropped.
 */
module RoundTrip {
  import opened JsValues
  import opened Ships
  import opened LiveRun
  import opened Recorder
  import opened Simulation
  import opened SimulateProps
  import Primitives

  /** A snapshot with every effect result filtered through the replay's check. */
  function Normalize(check: ResultCheck, items: seq<Item>): (r: seq<Item>)
    ensures |r| == |items|
    decreases items
  {
    if items == [] then [] else [NormalizeItem(check, items[0])] + Normalize(check, items[1..])
  }

  function NormalizeItem(check: ResultCheck, item: Item): Item
    decreases item
  {
    match item
    case EffectItem(e, result) => OutputEffect(check, e, ResultOf(result))
    case AllItem(subs) => AllItem(NormalizeAll(check, subs))
    case _ => item
  }

  function NormalizeAll(check: ResultCheck, subs: seq<Snapshot>): (r: seq<Snapshot>)
    ensures |r| == |subs|
    decreases subs
  {
    if subs == [] then [] else [Snapshot(Normalize(check, subs[0].items))] + NormalizeAll(check, subs[1..])
  }

  lemma {:induction false} NormalizeAllAt(check: ResultCheck, subs: seq<Snapshot>, i: nat)
    requires i < |subs|
    ensures NormalizeAll(check, subs)[i] == Snapshot(Normalize(check, subs[i].items))
    decreases i
  {
    if i > 0 {
      NormalizeAllAt(check, subs[1..], i - 1);
    }
  }

  lemma NormalizeCons(check: ResultCheck, item: Item, rest: seq<Item>)
    ensures Normalize(check, [item] + rest) == [NormalizeItem(check, item)] + Normalize(check, rest)
  {
    assert ([item] + rest)[1..] == rest;
  }

  /**
   * Per command: replaying the item the recorder wrote for a command gives
   * the ship the answer the recorder passed on, and writes the item back up
   * to the check. With the recorder's check the item comes back unchanged.
   */
  lemma SimulateCommandOfSnap(check: ResultCheck, c: Command, answer: Val)
    ensures var step := SnapCommand(c, answer);
      SimulateCommand(check, c, step.snapshotItem)
        == CommandReplay(Some(step.result), NormalizeItem(check, step.snapshotItem))
    ensures NormalizeItem(KeepDefined, SnapCommand(c, answer).snapshotItem) == SnapCommand(c, answer).snapshotItem
  {
  }

  /** Replaying the snapshot of `rec` against `s` gives back `rec`, normalized by the check. */
  ghost predicate Replays(check: ResultCheck, s: Ship<Val>, rec: Recording) {
    SimulateWithAnswer(check, s, rec.snapshot) == Replay(Some(rec.result), Normalize(check, rec.snapshot))
    && Normalize(KeepDefined, rec.snapshot) == rec.snapshot
  }

  /**
   * The round trip. Whatever result `rec` the recorder of `s` can finish
   * with, replaying its snapshot against `s` finishes with the recorded
   * result and outputs the snapshot normalized by the check; a recorded
   * snapshot is already normal for the recorder's check.
   */
  lemma {:induction false} RoundTrip(check: ResultCheck, s: Ship<Val>, n: nat, rec: Recording)
    requires Bounded(s, n) && Reaches(SnapWithAnswer(s, n), rec, n)
    ensures Replays(check, s, rec)
    decreases n, 1
  {
    match s
    case Done(v) =>
      if v != Undefined {
        NormalizeCons(check, Return(v), []);
        NormalizeCons(KeepDefined, Return(v), []);
      }
    case Suspend(c, resume) => RoundTripSuspend(check, c, resume, n, rec);
    case Fork(ships, join) => RoundTripFork(check, ships, join, n, rec);
  }

  lemma {:induction false} RoundTripSuspend(check: ResultCheck, c: Command, resume: Val -> Ship<Val>, n: nat,
                                            rec: Recording)
    requires Bounded(Suspend(c, resume), n) && Reaches(SnapWithAnswer(Suspend(c, resume), n), rec, n)
    ensures Replays(check, Suspend(c, resume), rec)
    decreases n, 0
  {
    var a :| Reaches(SnapCommandThen(c, resume, a, n - 1), rec, n - 1);
    var step := SnapCommand(c, a);
    var inner := SnapWithAnswer(resume(step.result), n - 1);
    ReachesMapResult(inner, Prepend(step.snapshotItem), n - 1, rec);
    var x :| Reaches(inner, x, n - 1) && rec == Prepend(step.snapshotItem)(x);
    RoundTrip(check, resume(step.result), n - 1, x);
    RoundTripCommand(check, c, resume, a, n, x);
  }

  lemma {:induction false} RoundTripFork(check: ResultCheck, ships: seq<Ship<Val>>, join: seq<Val> -> Ship<Val>,
                                         n: nat, rec: Recording)
    requires Bounded(Fork(ships, join), n) && Reaches(SnapWithAnswer(Fork(ships, join), n), rec, n)
    ensures Replays(check, Fork(ships, join), rec)
    decreases n, 0
  {
    var recs, x := ForkRecording(ships, join, n, rec);
    RoundTrip(check, join(Results(recs)), n - 1, x);
    RoundTripEach(check, ships, n - 1, recs);
    RoundTripAll(check, ships, join, recs, x);
  }

  /** The round trip of every branch of an 'All'. */
  lemma {:induction false} RoundTripEach(check: ResultCheck, ships: seq<Ship<Val>>, n: nat, recs: seq<Recording>)
    requires |recs| == |ships|
    requires forall i :: 0 <= i < |ships| ==> Bounded(ships[i], n)
    requires forall i :: 0 <= i < |ships| ==> Reaches(SnapWithAnswer(ships[i], n), recs[i], n)
    ensures forall i :: 0 <= i < |ships| ==> Replays(check, ships[i], recs[i])
    decreases n, 2
  {
    forall i | 0 <= i < |ships| ensures Replays(check, ships[i], recs[i]) {
      RoundTrip(check, ships[i], n, recs[i]);
    }
  }

  /**
   * What a recording of an 'All' is made of: one recording per branch, and
   * the recording of the parent resumed with their results, behind an 'All'
   * item holding the branch snapshots.
   */
  lemma ForkRecording(ships: seq<Ship<Val>>, join: seq<Val> -> Ship<Val>, n: nat, rec: Recording)
    returns (recs: seq<Recording>, x: Recording)
    requires Bounded(Fork(ships, join), n) && Reaches(SnapWithAnswer(Fork(ships, join), n), rec, n)
    ensures |recs| == |ships|
    ensures forall i :: 0 <= i < |ships| ==> Reaches(SnapWithAnswer(ships[i], n - 1), recs[i], n - 1)
    ensures Reaches(SnapWithAnswer(join(Results(recs)), n - 1), x, n - 1)
    ensures rec == Prepend(AllItem(Snapshots(recs)))(x)
  {
    recs := ForkBranchRecordings(ships, join, n, rec);
    var item := AllItem(Snapshots(recs));
    var inner := SnapWithAnswer(join(Results(recs)), n - 1);
    ReachesMapResult(inner, Prepend(item), n - 1, rec);
    x :| Reaches(inner, x, n - 1) && rec == Prepend(item)(x);
  }

  /** The branch recordings a recording of an 'All' was built from. */
  lemma ForkBranchRecordings(ships: seq<Ship<Val>>, join: seq<Val> -> Ship<Val>, n: nat, rec: Recording)
    returns (recs: seq<Recording>)
    requires Bounded(Fork(ships, join), n) && Reaches(SnapWithAnswer(Fork(ships, join), n), rec, n)
    ensures |recs| == |ships|
    ensures forall i :: 0 <= i < |ships| ==> Reaches(SnapWithAnswer(ships[i], n - 1), recs[i], n - 1)
    ensures Reaches(SnapAllThen(join, recs, n - 1), rec, n - 1)
  {
    var snapped := SnapBranches(ships, n - 1);
    assert SnapWithAnswer(Fork(ships, join), n) == Fork(snapped, rs => SnapAllThen(join, rs, n - 1));
    recs :| |recs| == |snapped|
      && (forall i :: 0 <= i < |snapped| ==> Reaches(snapped[i], recs[i], n - 1))
      && Reaches(SnapAllThen(join, recs, n - 1), rec, n - 1);
  }

  /** The step of the round trip past one command. */
  lemma RoundTripCommand(check: ResultCheck, c: Command, resume: Val -> Ship<Val>, a: Val, n: nat, x: Recording)
    requires Replays(check, resume(SnapCommand(c, a).result), x)
    ensures Replays(check, Suspend(c, resume), Prepend(SnapCommand(c, a).snapshotItem)(x))
  {
    var step := SnapCommand(c, a);
    var rec := Prepend(step.snapshotItem)(x);
    SimulateCommandOfSnap(check, c, a);
    assert rec.snapshot[1..] == x.snapshot;
    NormalizeCons(check, step.snapshotItem, x.snapshot);
    NormalizeCons(KeepDefined, step.snapshotItem, x.snapshot);
  }

  /** The step of the round trip past one 'All'. */
  lemma RoundTripAll(check: ResultCheck, ships: seq<Ship<Val>>, join: seq<Val> -> Ship<Val>,
                     recs: seq<Recording>, x: Recording)
    requires |recs| == |ships|
    requires forall i :: 0 <= i < |ships| ==> Replays(check, ships[i], recs[i])
    requires Replays(check, join(Results(recs)), x)
    ensures Replays(check, Fork(ships, join), Prepend(AllItem(Snapshots(recs)))(x))
  {
    ReplayRecordedBranches(check, ships, recs);
    RoundTripJoin(check, ships, join, Snapshots(recs), Results(recs), x);
  }

  /** An 'All' whose branches replay to `results` and their normalized snapshots replays as its parent does after it. */
  lemma RoundTripJoin(check: ResultCheck, ships: seq<Ship<Val>>, join: seq<Val> -> Ship<Val>,
                      subs: seq<Snapshot>, results: seq<Val>, x: Recording)
    requires SimulateBranches(check, ships, subs, 0, BranchesReplay(Some([]), []))
      == BranchesReplay(Some(results), NormalizeAll(check, subs))
    requires NormalizeAll(KeepDefined, subs) == subs
    requires Replays(check, join(results), x)
    ensures Replays(check, Fork(ships, join), Prepend(AllItem(subs))(x))
  {
    var item := AllItem(subs);
    var rec := Prepend(item)(x);
    assert rec.snapshot == [item] + x.snapshot;
    SimulateForkResumes(check, ships, join, subs, x.snapshot,
                        SimulateBranches(check, ships, subs, 0, BranchesReplay(Some([]), [])));
    NormalizeCons(check, item, x.snapshot);
    NormalizeCons(KeepDefined, item, x.snapshot);
  }

  /** The branches of a recorded 'All' replay to their results and their normalized snapshots. */
  lemma ReplayRecordedBranches(check: ResultCheck, ships: seq<Ship<Val>>, recs: seq<Recording>)
    requires |recs| == |ships|
    requires forall i :: 0 <= i < |ships| ==> Replays(check, ships[i], recs[i])
    ensures SimulateBranches(check, ships, Snapshots(recs), 0, BranchesReplay(Some([]), []))
      == BranchesReplay(Some(Results(recs)), NormalizeAll(check, Snapshots(recs)))
    ensures NormalizeAll(KeepDefined, Snapshots(recs)) == Snapshots(recs)
  {
    var subs := Snapshots(recs);
    var outputs := NormalizeAll(check, subs);
    forall j | 0 <= j < |ships|
      ensures SimulateWithAnswer(check, ships[j], subs[j].items) == Replay(Some(Results(recs)[j]), outputs[j].items)
    {
      NormalizeAllAt(check, subs, j);
      assert Replays(check, ships[j], recs[j]);
    }
    ReplayBranches(check, ships, subs, 0, [], [], Results(recs), outputs);
    assert [] + Results(recs)[0..] == Results(recs) && [] + outputs[0..] == outputs;
    forall j | 0 <= j < |subs| ensures NormalizeAll(KeepDefined, subs)[j] == subs[j] {
      NormalizeAllAt(KeepDefined, subs, j);
      assert Replays(check, ships[j], recs[j]);
    }
  }

  /** `simulate(ship, snap-recording)`, as written: the recording with the falsy results dropped. */
  lemma RoundTripAsWritten(s: Ship<Val>, n: nat, rec: Recording)
    requires Bounded(s, n) && Reaches(SnapWithAnswer(s, n), rec, n)
    ensures Simulate(s, rec.snapshot) == Normalize(KeepTruthy, rec.snapshot)
  {
    RoundTrip(KeepTruthy, s, n, rec);
  }

  /** With the recorder's check, replaying a recording gives the recording back. */
  lemma RoundTripCorrected(s: Ship<Val>, n: nat, rec: Recording)
    requires Bounded(s, n) && Reaches(SnapWithAnswer(s, n), rec, n)
    ensures SimulateWithAnswer(KeepDefined, s, rec.snapshot) == Replay(Some(rec.result), rec.snapshot)
    ensures SimulateCorrected(s, rec.snapshot) == rec.snapshot
  {
    RoundTrip(KeepDefined, s, n, rec);
  }

  /**
   * A live run recorded through `snap` can be replayed: the replay finishes
   * with the result of the run of the ship itself.
   */
  lemma ReplayOfRun(runEffect: Val -> Val, reduce: (Val, Val) -> Val, applySelector: bool,
                    state: Val, s: Ship<Val>, n: nat)
    requires Bounded(s, n)
    ensures var rec := Drive(runEffect, reduce, applySelector, state, Snap(s, n), n).result;
      SimulateCorrected(s, rec.snapshot) == rec.snapshot
      && SimulateWithAnswer(KeepTruthy, s, rec.snapshot).result
           == Some(Drive(runEffect, reduce, applySelector, state, s, n).result)
  {
    var rec := Drive(runEffect, reduce, applySelector, state, Snap(s, n), n).result;
    DriveReaches(runEffect, reduce, applySelector, state, Snap(s, n), n);
    SnapDrive(runEffect, reduce, applySelector, state, s, n);
    assert SnapAgrees(runEffect, reduce, applySelector, state, s, n);
    RoundTrip(KeepTruthy, s, n, rec);
    RoundTripCorrected(s, n, rec);
  }

  /**
   * As written, the round trip loses a falsy result: a `call` answered with
   * `0` is recorded with its result, and the replay writes the item without it.
   */
  lemma FalsyResultIsDropped(e: Val, reduce: (Val, Val) -> Val, state: Val)
    ensures var rec := Drive(_ => Num(0), reduce, true, state, Snap(Primitives.Call(e), 1), 1).result;
      rec.snapshot == [EffectItem(e, Some(Num(0))), Return(Num(0))]
      && Simulate(Primitives.Call(e), rec.snapshot) == [EffectItem(e, None), Return(Num(0))]
      && Simulate(Primitives.Call(e), rec.snapshot) != rec.snapshot
  {
    var s := Primitives.Call(e);
    var rec := Drive(_ => Num(0), reduce, true, state, Snap(s, 1), 1).result;
    SnapDrive(_ => Num(0), reduce, true, state, s, 1);
    DriveReaches(_ => Num(0), reduce, true, state, Snap(s, 1), 1);
    RoundTrip(KeepTruthy, s, 1, rec);
    assert rec.snapshot == [EffectItem(e, Some(Num(0))), Return(Num(0))] by {
      var step := SnapCommand(Effect(e), Num(0));
      DriveMapResult(_ => Num(0), reduce, true, state, SnapWithAnswer(Done(Num(0)), 0), Prepend(step.snapshotItem), 0);
    }
    NormalizeCons(KeepTruthy, EffectItem(e, Some(Num(0))), [Return(Num(0))]);
    NormalizeCons(KeepTruthy, Return(Num(0)), []);
  }
}
