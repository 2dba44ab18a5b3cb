/**
 * The controllers, stores and recorded snapshots the library's tests use
 * (src/__tests__/index.js and the eye controller of the http-request
 * example), with JSON parsing of the HTTP bodies a parameter `parse`.
 */
module Fixtures {
  import opened JsValues
  import opened Ships
  import Primitives
  import opened LiveRun
  import opened Recorder
  import opened Simulation
  import Lift

  /**
   * `{...state, key: v}` on an object state, the only kind the reducers here
   * receive; any other state is treated as the empty object.
   */
  function Spread(state: Val, key: string, v: Val): (r: Val)
    ensures Get(r, key) == v
    ensures forall k :: k != key ==> Get(r, k) == Get(state, k)
  {
    Obj((if state.Obj? then state.fields else map[])[key := v])
  }

  const LoadStart: Val := Tagged("LoadStart", map[])

  function LoadSuccess(color: Val): Val {
    Tagged("LoadSuccess", map["color" := color])
  }

  /** `eyeReduce` (src/__tests__/index.js:63-79). */
  function EyeReduce(state: Val, commit: Val): (r: Val)
    ensures Get(commit, "type") == Str("LoadStart") ==>
      Get(r, "isLoading") == Bool(true) && Get(r, "color") == Get(state, "color")
    ensures Get(commit, "type") == Str("LoadSuccess") ==>
      Get(r, "isLoading") == Bool(false) && Get(r, "color") == Get(commit, "color")
    ensures Get(commit, "type") != Str("LoadStart") && Get(commit, "type") != Str("LoadSuccess") ==> r == state
  {
    if Get(commit, "type") == Str("LoadStart") then Spread(state, "isLoading", Bool(true))
    else if Get(commit, "type") == Str("LoadSuccess") then
      Spread(Spread(state, "color", Get(commit, "color")), "isLoading", Bool(false))
    else state
  }

  const InitialEyeState: Val := Obj(map["color" := Null, "isLoading" := Bool(false)])

  /** The lifted commit `{type: 'Eye', commit}`. */
  function EyeCommit(commit: Val): Val {
    Tagged("Eye", map["commit" := commit])
  }

  function EyeOf(state: Val): Val {
    Get(state, "eye")
  }

  /** `reduce` (src/__tests__/index.js:109-119): eye commits reduce the `eye` part. */
  function Reduce(state: Val, commit: Val): (r: Val)
    ensures Get(commit, "type") == Str("Eye") ==> EyeOf(r) == EyeReduce(EyeOf(state), Get(commit, "commit"))
    ensures Get(commit, "type") != Str("Eye") ==> r == state
  {
    if Get(commit, "type") == Str("Eye") then Spread(state, "eye", EyeReduce(EyeOf(state), Get(commit, "commit")))
    else state
  }

  const InitialState: Val := Obj(map["eye" := InitialEyeState])

  function Url(id: string): string {
    "http://swapi.co/api/people/" + id + "/"
  }

  function HttpEffect(url: string): Val {
    Tagged("HttpRequest", map["url" := Str(url)])
  }

  /** `httpRequest(url)`: a `call` of the effect `{type: 'HttpRequest', url}`. */
  function HttpRequest(url: string): Ship<Val> {
    Primitives.Call(HttpEffect(url))
  }

  /** The body the fixture's `runEffect` answers every request with. */
  const R2D2Body: Val := Str("{\"eye_color\":\"red\",\"name\":\"R2-D2\"}")
  const VaderBody: Val := Str("{\"eye_color\":\"yellow\",\"name\":\"Darth Vader\"}")

  /** `runEffect` (src/__tests__/index.js:34-44). */
  function FixtureEffect(effect: Val): Val {
    if Get(effect, "type") == Str("HttpRequest") then R2D2Body else Undefined
  }

  function SelectColor(state: Val): Val {
    Get(state, "color")
  }

  /** The first element of an array; `undefined` for anything else. */
  function First(v: Val): Val {
    if v.Arr? && |v.elems| > 0 then v.elems[0] else Undefined
  }

  /** `eyeControl` (src/__tests__/index.js:83-94). */
  function EyeControl(parse: Val -> Val): Ship<Val> {
    Suspend(Command.GetState(SelectColor), color => EyeLoad(parse, color))
  }

  function EyeLoad(parse: Val -> Val, color: Val): Ship<Val> {
    if Truthy(color) then Done(Undefined) else Suspend(Commit(LoadStart), _ => EyeRequests(parse))
  }

  /** `yield* Ship.all2(httpRequest(…3…), httpRequest(…4…))`, then the rest. */
  function EyeRequests(parse: Val -> Val): Ship<Val> {
    Fork([HttpRequest(Url("3")), HttpRequest(Url("4"))], rs => EyeLoaded(parse, Arr(rs)))
  }

  function EyeLoaded(parse: Val -> Val, pair: Val): Ship<Val> {
    Suspend(Commit(LoadSuccess(Get(parse(First(pair)), "eye_color"))), _ => Done(Undefined))
  }

  lemma EyeLoadedBounded(parse: Val -> Val, pair: Val)
    ensures Bounded(EyeLoaded(parse, pair), 1)
  {
  }

  lemma EyeRequestsBounded(parse: Val -> Val)
    ensures Bounded(EyeRequests(parse), 2)
  {
    forall pair ensures Bounded(EyeLoaded(parse, pair), 1) {
      EyeLoadedBounded(parse, pair);
    }
    assert Bounded(HttpRequest(Url("3")), 1) && Bounded(HttpRequest(Url("4")), 1);
  }

  lemma EyeLoadBounded(parse: Val -> Val, color: Val)
    ensures Bounded(EyeLoad(parse, color), 3)
  {
    EyeRequestsBounded(parse);
  }

  lemma EyeControlBounded(parse: Val -> Val)
    ensures Bounded(EyeControl(parse), 4)
  {
    forall color ensures Bounded(EyeLoad(parse, color), 3) {
      EyeLoadBounded(parse, color);
    }
  }

  /** `control` (src/__tests__/index.js:123-129): the eye controller lifted into the whole store. */
  function Control(parse: Val -> Val): (s: Ship<Val>)
    ensures Bounded(s, 4)
  {
    EyeControlBounded(parse);
    Lift.Map(EyeCommit, EyeOf, EyeControl(parse), 4)
  }

  /**
   * The "with eye" replay (src/__tests__/index.js:158-162): a read that
   * finds a colour ends the controller, and the snapshot comes back as is.
   */
  lemma ReplayWithEye(parse: Val -> Val)
    ensures Simulate(Control(parse), [GetStateItem(Str("red"))]) == [GetStateItem(Str("red"))]
  {
    var inner := EyeControl(parse);
    EyeControlBounded(parse);
    var s := Control(parse);
    assert inner.resume(Str("red")) == Done(Undefined);
    assert s.resume(Str("red")) == Lift.MapCommandThen(EyeCommit, EyeOf, inner.command, inner.resume, Str("red"), 3);
  }

  /** An effect item of the "without eye" fixture. */
  function EffectSnapshot(id: string, body: Val): Item {
    EffectItem(HttpEffect(Url(id)), Some(body))
  }

  /** The "without eye" snapshot (src/__tests__/index.js:131-156), read with no recorded state. */
  const WithoutEyeSnapshot: seq<Item> :=
    [GetStateItem(Undefined)] + ([CommitItem(EyeCommit(LoadStart))] + RequestsSnapshot)

  /** Its items from the 'All' on. */
  const RequestsSnapshot: seq<Item> := [
    AllItem([Snapshot([EffectSnapshot("3", R2D2Body)]), Snapshot([EffectSnapshot("4", VaderBody)])]),
    CommitItem(EyeCommit(LoadSuccess(Str("red"))))
  ]

  /** The same snapshot with the `Return` item each request's ship ends with. */
  const WithoutEyeReplayed: seq<Item> :=
    [GetStateItem(Undefined)] + ([CommitItem(EyeCommit(LoadStart))] + RequestsReplayed)

  const RequestsReplayed: seq<Item> := [
    AllItem([Snapshot([EffectSnapshot("3", R2D2Body), Return(R2D2Body)]),
             Snapshot([EffectSnapshot("4", VaderBody), Return(VaderBody)])]),
    CommitItem(EyeCommit(LoadSuccess(Str("red"))))
  ]

  /** A lifted request, replayed against its recorded item, answers the body and returns it. */
  lemma ReplayRequest(id: string, body: Val)
    requires body.Str? && body.s != ""
    ensures SimulateWithAnswer(KeepTruthy, Lift.MapWithAnswer(EyeCommit, EyeOf, HttpRequest(Url(id)), 1),
                               [EffectSnapshot(id, body)])
         == Replay(Some(body), [EffectSnapshot(id, body), Return(body)])
  {
    var m := Lift.MapWithAnswer(EyeCommit, EyeOf, HttpRequest(Url(id)), 1);
    assert m.resume(body) == Done(body);
  }

  /** The last commit, with the colour parsed from the first body. */
  lemma ReplayLoaded(parse: Val -> Val, pair: Val)
    ensures Bounded(EyeLoaded(parse, pair), 1)
    ensures var item := CommitItem(EyeCommit(LoadSuccess(Get(parse(First(pair)), "eye_color"))));
      SimulateWithAnswer(KeepTruthy, Lift.MapWithAnswer(EyeCommit, EyeOf, EyeLoaded(parse, pair), 1), [item])
      == Replay(Some(Undefined), [item])
  {
    EyeLoadedBounded(parse, pair);
    var m := Lift.MapWithAnswer(EyeCommit, EyeOf, EyeLoaded(parse, pair), 1);
    assert m.resume(Undefined) == Done(Undefined);
  }

  /** The two requests of the 'All', replayed against their sub-snapshots. */
  lemma ReplayRequests(parse: Val -> Val)
    ensures Bounded(EyeRequests(parse), 2)
    ensures var subs := [Snapshot([EffectSnapshot("3", R2D2Body)]), Snapshot([EffectSnapshot("4", VaderBody)])];
      SimulateBranches(KeepTruthy, Lift.MapWithAnswer(EyeCommit, EyeOf, EyeRequests(parse), 2).ships, subs, 0,
                       BranchesReplay(Some([]), []))
      == BranchesReplay(Some([R2D2Body, VaderBody]),
                        [Snapshot([EffectSnapshot("3", R2D2Body), Return(R2D2Body)]),
                         Snapshot([EffectSnapshot("4", VaderBody), Return(VaderBody)])])
  {
    EyeRequestsBounded(parse);
    var ships := Lift.MapWithAnswer(EyeCommit, EyeOf, EyeRequests(parse), 2).ships;
    assert ships == Lift.MapBranches(EyeCommit, EyeOf, [HttpRequest(Url("3")), HttpRequest(Url("4"))], 1);
    var subs := [Snapshot([EffectSnapshot("3", R2D2Body)]), Snapshot([EffectSnapshot("4", VaderBody)])];
    ReplayRequest("3", R2D2Body);
    ReplayRequest("4", VaderBody);
    var first := Snapshot([EffectSnapshot("3", R2D2Body), Return(R2D2Body)]);
    var second := Snapshot([EffectSnapshot("4", VaderBody), Return(VaderBody)]);
    assert SimulateWithAnswer(KeepTruthy, ships[0], subs[0].items) == Replay(Some(R2D2Body), first.items);
    assert SimulateWithAnswer(KeepTruthy, ships[1], subs[1].items) == Replay(Some(VaderBody), second.items);
    assert SimulateBranches(KeepTruthy, ships, subs, 2, BranchesReplay(Some([R2D2Body, VaderBody]), [first, second]))
        == BranchesReplay(Some([R2D2Body, VaderBody]), [first, second]);
    assert [R2D2Body] + [VaderBody] == [R2D2Body, VaderBody] && [first] + [Snapshot(second.items)] == [first, second];
    assert [] + [R2D2Body] == [R2D2Body] && [] + [Snapshot(first.items)] == [first];
    assert SimulateBranches(KeepTruthy, ships, subs, 1, BranchesReplay(Some([R2D2Body]), [first]))
        == BranchesReplay(Some([R2D2Body, VaderBody]), [first, second]);
  }

  /** From the 'All' on: the requests, then the commit of the parsed colour. */
  lemma ReplayFromRequests(parse: Val -> Val)
    requires Get(parse(R2D2Body), "eye_color") == Str("red")
    ensures Bounded(EyeRequests(parse), 2)
    ensures SimulateWithAnswer(KeepTruthy, Lift.MapWithAnswer(EyeCommit, EyeOf, EyeRequests(parse), 2), RequestsSnapshot)
         == Replay(Some(Undefined), RequestsReplayed)
  {
    ReplayRequests(parse);
    var m := Lift.MapWithAnswer(EyeCommit, EyeOf, EyeRequests(parse), 2);
    var pair := Arr([R2D2Body, VaderBody]);
    ReplayLoaded(parse, pair);
    assert m.join([R2D2Body, VaderBody]) == Lift.MapWithAnswer(EyeCommit, EyeOf, EyeLoaded(parse, pair), 1);
    assert RequestsSnapshot[1..] == [CommitItem(EyeCommit(LoadSuccess(Str("red"))))];
  }

  /** From the commit of `LoadStart` on, whatever the replay of the rest gives. */
  lemma ReplayFromLoadStart(parse: Val -> Val, rest: seq<Item>, out: Replay)
    requires Bounded(EyeRequests(parse), 2)
    requires SimulateWithAnswer(KeepTruthy, Lift.MapWithAnswer(EyeCommit, EyeOf, EyeRequests(parse), 2), rest) == out
    ensures Bounded(EyeLoad(parse, Undefined), 3)
    ensures SimulateWithAnswer(KeepTruthy, Lift.MapWithAnswer(EyeCommit, EyeOf, EyeLoad(parse, Undefined), 3),
                               [CommitItem(EyeCommit(LoadStart))] + rest)
         == Replay(out.result, [CommitItem(EyeCommit(LoadStart))] + out.snapshot)
  {
    EyeLoadBounded(parse, Undefined);
    var inner := EyeLoad(parse, Undefined);
    var m := Lift.MapWithAnswer(EyeCommit, EyeOf, inner, 3);
    assert inner.resume(Undefined) == EyeRequests(parse);
    assert m.resume(Undefined) == Lift.MapCommandThen(EyeCommit, EyeOf, inner.command, inner.resume, Undefined, 2);
    assert ([CommitItem(EyeCommit(LoadStart))] + rest)[1..] == rest;
  }

  /** From the read on, whatever the replay after `LoadStart` gives. */
  lemma ReplayFromRead(parse: Val -> Val, rest: seq<Item>, out: Replay)
    requires Bounded(EyeLoad(parse, Undefined), 3)
    requires SimulateWithAnswer(KeepTruthy, Lift.MapWithAnswer(EyeCommit, EyeOf, EyeLoad(parse, Undefined), 3), rest) == out
    ensures Simulate(Control(parse), [GetStateItem(Undefined)] + rest) == [GetStateItem(Undefined)] + out.snapshot
  {
    var inner := EyeControl(parse);
    EyeControlBounded(parse);
    var s := Control(parse);
    assert inner.resume(Undefined) == EyeLoad(parse, Undefined);
    assert s.resume(Undefined) == Lift.MapCommandThen(EyeCommit, EyeOf, inner.command, inner.resume, Undefined, 3);
    assert ([GetStateItem(Undefined)] + rest)[1..] == rest;
  }

  /**
   * The "without eye" replay (src/__tests__/index.js:131-156): with no colour
   * in the recorded read, the lifted controller commits, requests, and
   * commits the colour of the first body; every item comes back, and each
   * request's sub-snapshot gains the `Return` of its body, so the output is
   * not the fixture itself.
   */
  lemma ReplayWithoutEye(parse: Val -> Val)
    requires Get(parse(R2D2Body), "eye_color") == Str("red")
    ensures Simulate(Control(parse), WithoutEyeSnapshot) == WithoutEyeReplayed
    ensures WithoutEyeReplayed != WithoutEyeSnapshot
  {
    ReplayFromRequests(parse);
    EyeLoadBounded(parse, Undefined);
    var out := Replay(Some(Undefined), RequestsReplayed);
    ReplayFromLoadStart(parse, RequestsSnapshot, out);
    ReplayFromRead(parse, [CommitItem(EyeCommit(LoadStart))] + RequestsSnapshot,
                   Replay(Some(Undefined), [CommitItem(EyeCommit(LoadStart))] + RequestsReplayed));
    assert WithoutEyeReplayed[2] != WithoutEyeSnapshot[2] by {
      assert |WithoutEyeReplayed[2].snapshots[0].items| != |WithoutEyeSnapshot[2].snapshots[0].items|;
    }
  }

  /** The eye state after a load of the colour `red`. */
  const LoadedEyeState: Val := Obj(map["color" := Str("red"), "isLoading" := Bool(false)])

  /** Every event of the "without eye" run, in order. */
  const WithoutEyeLog: seq<Event> := [StateRead] + ([CommitCall(LoadStart)] + RequestsLog)

  /** The events from the 'All' on: both requests, then the commit of the colour. */
  const RequestsLog: seq<Event> := [
    EffectCall(HttpEffect(Url("3"))),
    EffectCall(HttpEffect(Url("4"))),
    CommitCall(LoadSuccess(Str("red")))
  ]

  lemma RunLoaded(parse: Val -> Val, pair: Val, state: Val)
    ensures Bounded(EyeLoaded(parse, pair), 1)
    ensures var color := Get(parse(First(pair)), "eye_color");
      Drive(FixtureEffect, EyeReduce, true, state, EyeLoaded(parse, pair), 1)
      == Outcome(Undefined, EyeReduce(state, LoadSuccess(color)), [CommitCall(LoadSuccess(color))], 1)
  {
    EyeLoadedBounded(parse, pair);
  }

  lemma RunRequests(parse: Val -> Val, state: Val)
    requires Get(parse(R2D2Body), "eye_color") == Str("red")
    ensures Bounded(EyeRequests(parse), 2)
    ensures Drive(FixtureEffect, EyeReduce, true, state, EyeRequests(parse), 2)
         == Outcome(Undefined, EyeReduce(state, LoadSuccess(Str("red"))), RequestsLog, 2)
  {
    EyeRequestsBounded(parse);
    var ships := [HttpRequest(Url("3")), HttpRequest(Url("4"))];
    CallRuns(FixtureEffect, EyeReduce, true, state, HttpEffect(Url("3")));
    CallRuns(FixtureEffect, EyeReduce, true, state, HttpEffect(Url("4")));
    assert ships[1..] == [HttpRequest(Url("4"))];
    var b := DriveBranches(FixtureEffect, EyeReduce, true, state, ships, 1);
    assert b == Branches([R2D2Body, R2D2Body], state, [EffectCall(HttpEffect(Url("3"))), EffectCall(HttpEffect(Url("4")))]);
    RunLoaded(parse, Arr([R2D2Body, R2D2Body]), state);
    assert EyeRequests(parse).join(b.results) == EyeLoaded(parse, Arr([R2D2Body, R2D2Body]));
  }

  lemma RunFromLoadStart(parse: Val -> Val, state: Val)
    requires Get(parse(R2D2Body), "eye_color") == Str("red")
    ensures Bounded(EyeLoad(parse, Null), 3)
    ensures Drive(FixtureEffect, EyeReduce, true, state, EyeLoad(parse, Null), 3)
         == Outcome(Undefined, EyeReduce(EyeReduce(state, LoadStart), LoadSuccess(Str("red"))), [CommitCall(LoadStart)] + RequestsLog, 3)
  {
    EyeLoadBounded(parse, Null);
    var c := EyeLoad(parse, Null).command;
    var mid := EyeReduce(state, LoadStart);
    assert Answer(FixtureEffect, true, c, state) == Undefined;
    assert After(EyeReduce, c, state) == mid;
    assert EyeLoad(parse, Null).resume(Undefined) == EyeRequests(parse);
    RunRequests(parse, mid);
  }

  lemma LoadedFromInitial()
    ensures EyeReduce(EyeReduce(InitialEyeState, LoadStart), LoadSuccess(Str("red"))) == LoadedEyeState
  {
    var loaded := EyeReduce(EyeReduce(InitialEyeState, LoadStart), LoadSuccess(Str("red")));
    assert loaded.fields == LoadedEyeState.fields;
  }

  /** From any state without a colour: the read, then the load. */
  lemma RunFromRead(parse: Val -> Val, state: Val)
    requires Get(parse(R2D2Body), "eye_color") == Str("red")
    requires SelectColor(state) == Null
    ensures Bounded(EyeControl(parse), 4)
    ensures Drive(FixtureEffect, EyeReduce, true, state, EyeControl(parse), 4)
         == Outcome(Undefined, EyeReduce(EyeReduce(state, LoadStart), LoadSuccess(Str("red"))), WithoutEyeLog, 4)
  {
    EyeControlBounded(parse);
    var c := EyeControl(parse).command;
    assert Answer(FixtureEffect, true, c, state) == Null;
    assert After(EyeReduce, c, state) == state;
    assert EyeControl(parse).resume(Null) == EyeLoad(parse, Null);
    RunFromLoadStart(parse, state);
    var next := Drive(FixtureEffect, EyeReduce, true, state, EyeLoad(parse, Null), 3);
    assert Drive(FixtureEffect, EyeReduce, true, state, EyeControl(parse), 4)
        == Outcome(next.result, next.state, [StateRead] + next.log, next.steps + 1);

  }

  /**
   * The "without eye" run (src/__tests__/index.js:166-170): from the initial
   * eye state the controller reads no colour, loads, and leaves the colour
   * of the first body in the store, no longer loading.
   */
  lemma RunWithoutEye(parse: Val -> Val)
    requires Get(parse(R2D2Body), "eye_color") == Str("red")
    ensures Bounded(EyeControl(parse), 4)
    ensures Drive(FixtureEffect, EyeReduce, true, InitialEyeState, EyeControl(parse), 4)
         == Outcome(Undefined, LoadedEyeState, WithoutEyeLog, 4)
  {
    assert SelectColor(InitialEyeState) == Null;
    RunFromRead(parse, InitialEyeState);
    LoadedFromInitial();
  }

  /** A second run (src/__tests__/index.js:172-177) finds the colour and changes nothing. */
  lemma RunLoadedAgain(parse: Val -> Val)
    ensures Bounded(EyeControl(parse), 4)
    ensures Drive(FixtureEffect, EyeReduce, true, LoadedEyeState, EyeControl(parse), 4)
         == Outcome(Undefined, LoadedEyeState, [StateRead], 1)
  {
    EyeControlBounded(parse);
    EyeLoadBounded(parse, Str("red"));
    assert EyeControl(parse).resume(Str("red")) == Done(Undefined);
  }

  /** The "twice" test: two runs against one store leave the loaded state. */
  method RunTwice(parse: Val -> Val) returns (state: Val)
    requires Get(parse(R2D2Body), "eye_color") == Str("red")
    ensures state == LoadedEyeState
  {
    var store := new Store(EyeReduce, InitialEyeState);
    EyeControlBounded(parse);
    RunWithoutEye(parse);
    RunLoadedAgain(parse);
    var _ := Run(FixtureEffect, store, EyeControl(parse), 4);
    var _ := Run(FixtureEffect, store, EyeControl(parse), 4);
    state := store.GetState();
  }

  /**
   * `control(action)` of the http-request example's eye controller
   * (examples/http-request/src/eye/controller.js:10-22): a 'Load' commits the
   * start, requests one body and commits its colour; any other action does nothing.
   */
  function LoadEye(parse: Val -> Val, action: Val): Ship<Val> {
    if Get(action, "type") == Str("Load") then
      Suspend(Commit(LoadStart), _ => Suspend(Effect(HttpEffect(Url("3"))), body => LoadedEye(parse, body)))
    else Done(Undefined)
  }

  function LoadedEye(parse: Val -> Val, body: Val): Ship<Val> {
    Suspend(Commit(LoadSuccess(Get(parse(body), "eye_color"))), _ => Done(Undefined))
  }

  /** The snapshot recorded for a 'Load' with the given body. */
  function LoadEyeSnapshot(body: Val): seq<Item> {
    [CommitItem(LoadStart), EffectItem(HttpEffect(Url("3")), Some(body)), CommitItem(LoadSuccess(Str("red")))]
  }

  /**
   * The example's controller test (examples/http-request/src/eye/__tests__/controller.js:7-12):
   * for any non-empty recorded body whose parsed colour is red, the replay
   * of a 'Load' gives back the recorded snapshot.
   */
  lemma ReplayLoadEye(parse: Val -> Val, body: Val)
    requires body.Str? && body.s != ""
    requires Get(parse(body), "eye_color") == Str("red")
    ensures Simulate(LoadEye(parse, Tagged("Load", map[])), LoadEyeSnapshot(body)) == LoadEyeSnapshot(body)
  {
    var snapshot := LoadEyeSnapshot(body);
    var s := LoadEye(parse, Tagged("Load", map[]));
    var afterStart := s.resume(Undefined);
    assert afterStart.resume(body) == LoadedEye(parse, body);
    assert SimulateWithAnswer(KeepTruthy, LoadedEye(parse, body), snapshot[2..]) == Replay(Some(Undefined), snapshot[2..]);
    assert SimulateWithAnswer(KeepTruthy, afterStart, snapshot[1..]) == Replay(Some(Undefined), snapshot[1..]);
  }

  /** An action other than 'Load' replays against the empty snapshot. */
  lemma ReplayOtherAction(parse: Val -> Val, action: Val)
    requires Get(action, "type") != Str("Load")
    ensures Simulate(LoadEye(parse, action), []) == []
  {
  }
}
