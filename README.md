# redux-ship, modelled in Dafny

redux-ship describes the side effects of a Redux application as *ships*: generators
that yield commands and finish with a result. A controller yields:
- an `Effect` (say, an HTTP request);
- a `Commit` of an action to the store (`dispatch` in the oldest vocabulary);
- a `GetState` read with a selector;
- an `All` of sub-ships that run in parallel.

Several interpreters walk a ship:
- the **runner** answers each command by calling an effect handler, the store's
  `dispatch` or its `getState`;
- the **recorder** (`snap`) re-issues every command and returns the result with a
  *snapshot* of what happened;
- the **replayer** (`simulate`) answers every command from a snapshot, without
  handlers, and rebuilds the snapshot it walked through;
- the **lift** (`map`) runs a ship written against one part of the store inside
  a larger store.

The repository also holds two older variants:
- the tree-shaped `trace`/`simulate` pair of `src/index.js`, with its runner;
- the lock-step checker of `src/simulator.js`.

This project models all of these and proves the properties the library relies on:
- a replay of a recording gives the recording back;
- recording and lifting do not change a run;
- the final store state is the reducer folded over the commits;
- the replay is total and stays within a length bound;
- the lock-step checker's error cases.

Files, one module or two each:
- `values.dfy`: `JsValues`. JavaScript values, with `undefined` and truthiness.
- `ships.dfy`: `Ships`, `Primitives`. The ship datatype, the depth bound, and the primitives of `src/ship.js`.
- `run.dfy`: `LiveRun`, `LegacyRun`. The runner of `src/run.js` as a `Drive` specification, the `Store` class, and the imperative `Run` methods. Also the runner of `src/index.js`.
- `snap.dfy`: `Recorder`. The recorder `src/snap.js`, and the proof that recording does not change a run.
- `simulate.dfy`: `Simulation`, `SimulateProps`. The replayer `src/simulate.js`.
- `roundtrip.dfy`: `RoundTrip`. Replay after record.
- `map.dfy`: `Lift`. The lift `src/map.js`, and the proof that lifting does not change a run.
- `trace.dfy`: `TraceShips`, `Tracing`, `TraceReplay`. The `Trace` recorder and replayer of `src/index.js`.
- `lockstep.dfy`: `LockStep`. The lock-step checker `src/simulator.js`.
- `fixtures.dfy`: `Fixtures`. The controllers, reducers and expectations of `src/__tests__/index.js`, and the eye controller test of the http-request example.

### Representation
- **Ships.** A ship is `Done(value)`, `Suspend(command, resume)` or `Fork(ships, join)`. The source's tag for `Fork` is `'All'`. Resuming a generator with an answer `a` is applying `resume(a)`.
- **Depth bound.** Dafny cannot order `resume(a)` below the ship, so every interpreter takes a ghost depth bound `n`. `Bounded(s, n)` says that `s` suspends at most `n` times in a row, whatever the answers.
- **Branch order.** The handlers are synchronous, and the branches of an 'All' run to completion in index order. The source runs them with `Promise.all`; the result order is the same.
- **One vocabulary.** The files come from different revisions:
  - `src/ship.js` exports `dispatch` and a `getState` without a selector;
  - `src/snap.js` records `Dispatch`;
  - `src/run.js`, `src/simulate.js` and `src/map.js` use `Commit` and `GetState` with a selector.

  The model uses one `Command = Effect | Commit | GetState(selector)` throughout, so `dispatch` is the `Commit` case. `snap` records the value the read answered, which is the selected value.

## Model

| member | source | states |
|---|---|---|
| Primitives.Call | src/ship.js:24-35 | `call(effect)` yields once with the effect command and returns whatever answer it is resumed with |
| Primitives.Dispatch | src/ship.js:37-47 | `dispatch(commit)` yields once with the commit and returns undefined whatever the answer |
| Primitives.GetState | src/ship.js:49-57 | `getState` yields one read once and returns the answer unchanged |
| Primitives.AllAny | src/ship.js:59-67 | `allAny(...ships)` yields one 'All' carrying the ships in argument order and returns the array of the branch results |
| Primitives.All | src/ship.js:69-73 | `all(ships)` yields one 'All' of the same ships and returns the array of their results, as `allAny` (which defines it) |
| Primitives.All2 | src/ship.js:76-80 | `all2` yields one 'All' of its two ships in argument order and returns the array of their results, as `allAny` (which defines it) |
| Primitives.All3 | src/ship.js:82-87 | `all3` yields one 'All' of its three ships in argument order and returns the array of their results, as `allAny` (which defines it) |
| Primitives.All4 | src/ship.js:89-95 | `all4` yields one 'All' of its four ships in argument order and returns the array of their results, as `allAny` (which defines it) |
| Primitives.All5 | src/ship.js:97-104 | `all5` yields one 'All' of its five ships in argument order and returns the array of their results, as `allAny` (which defines it) |
| Primitives.All6 | src/ship.js:106-114 | `all6` yields one 'All' of its six ships in argument order and returns the array of their results, as `allAny` (which defines it) |
| Primitives.All7 | src/ship.js:116-125 | `all7` yields one 'All' of its seven ships in argument order and returns the array of their results, as `allAny` (which defines it) |
| Ships.ReachesMapResult | src/snap.js:84-92 | every result of `const x = yield* s; return f(x)` is `f` of a result `s` can finish with |
| LiveRun.Drive | src/run.js:24-49 | the run of a ship from a store state: its result, the final state, the handler calls in the order they are issued, and the number of steps. A command is answered and the ship resumed with the answer. The branches of an 'All' run one after the other, in index order, and the parent resumes with their results in that order. Its laws are DriveDone, CallRuns, DispatchRuns, GetStateRuns, AllAnyRuns, DriveStateIsReplay and DriveReaches |
| LiveRun.Answer | src/run.js:4-22 | the answer to one command: an effect gets `runEffect(effect)` and a commit gets undefined. A read gets `selector(state)`, or the whole state in the runner of src/index.js:24-42. Through Drive: CallRuns, DispatchRuns, GetStateRuns and LegacyReadIgnoresSelector |
| LiveRun.DriveBranches | src/run.js:40-45 | an 'All' gets exactly one result per branch |
| LiveRun.DriveDone | src/run.js:31-34 | a finished ship resolves to its value without calling any handler and leaves the state alone |
| LiveRun.CallRuns | src/run.js:12-13 | an Effect is answered with `runEffect(effect)`, one handler call, state unchanged |
| LiveRun.DispatchRuns | src/run.js:14-15 | a Commit calls the commit sink once with the payload, reduces the state, and is answered with undefined |
| LiveRun.GetStateRuns | src/run.js:16-17 | a read is answered with `selector(getState())` and changes nothing |
| LiveRun.AllAnyRuns | src/run.js:40-45 | an 'All' runs every branch with the same handlers and resumes the parent with the results in branch order |
| LiveRun.DriveStateIsReplay | src/run.js:51-60 | the final store state is the reducer folded over the commits of the run, in issue order |
| LiveRun.DriveBranchesStateIsReplay | src/run.js:40-45 | the same for the branches of an 'All', run in index order |
| LiveRun.DriveReaches | src/run.js:24-49 | the result of a run is a result the ship can reach under some answers |
| LiveRun.DriveBranchesReach | src/run.js:40-45 | each branch result is reachable by the branch of the same index |
| LiveRun.Store.constructor | src/__tests__/index.js:4-12 | the store starts in the initial state with the given reducer |
| LiveRun.Store.Dispatch | src/__tests__/index.js:13-15 | `dispatch` replaces the state by `reduce(state, commit)` and returns undefined |
| LiveRun.RunCommand | src/run.js:4-22 | one command: the answer the specification gives it, and the store state after it |
| LiveRun.RunWithAnswer | src/run.js:24-49 | driving a ship against the store gives the result and final state of `Drive` |
| LiveRun.RunBranches | src/run.js:40-45 | the loop over the branches gives their results in index order and the state after the last one |
| LiveRun.Run | src/run.js:51-60 | `run(runEffect, store, ship)` uses `store.dispatch` and `store.getState` and ends as `Drive` says |
| LegacyRun.RunLegacy | src/index.js:24-69 | the older runner ends as `Drive` with reads answered by the whole state |
| LegacyRun.LegacyReadIgnoresSelector | src/index.js:36-37 | the older runner answers a read with `runGetState()`, whatever the selector |
| LegacyRun.LegacyAgreesOnPlainReads | src/index.js:44-69 | on ships that only read the whole state, the older runner and `run` give the same result, state, calls and step count |
| LegacyRun.LegacyBranchesAgree | src/index.js:60-65 | the same for the branches of an 'All' |
| Recorder.ReturnItems | src/snap.js:72-81 | a finished ship's snapshot is empty exactly when its value is undefined, else one 'Return' of the value |
| Recorder.SnapCommand | src/snap.js:25-66 | an effect item keeps the result only when it is not undefined; a commit item records the payload and passes on undefined; a read item records the answer and passes it on |
| Recorder.Results | src/snap.js:98-100 | the parent gets the branch results, one per branch, in order |
| Recorder.Snapshots | src/snap.js:106 | the 'All' item holds the branch snapshots, one per branch, in order |
| Recorder.SnapWithAnswer | src/snap.js:68-115 | the recorder suspends exactly when the ship does and keeps its depth bound |
| Recorder.SnapBranches | src/snap.js:95-97 | every branch of an 'All' is recorded on its own, in order |
| Recorder.Snap | src/snap.js:118-123 | `snap(ship)` is the recorder started with no answer, and it is bounded like the ship. Its run is in SnapDrive and its replay in RoundTrip |
| Recorder.SnapDrive | src/snap.js:83-111 | running `snap(s)` makes the same handler calls in the same order, reaches the same state and result, has one item per top-level suspension plus at most one 'Return', and its snapshot flattens to the calls of the run |
| Recorder.SnapDriveCommand | src/snap.js:83-93 | the step of `SnapDrive` past one command |
| Recorder.SnapDriveAll | src/snap.js:94-111 | the step of `SnapDrive` past one 'All' |
| Recorder.SnapForkOutcome | src/snap.js:94-111 | a recorded 'All' runs as its branches, then the parent, behind one 'All' item whose calls are those of the branches |
| Recorder.SnapForkDrive | src/snap.js:95-97 | how a runner drives the recorder of an 'All' |
| Recorder.SnapDriveBranches | src/snap.js:95-97 | recorded branches give the plain branches' results, state and calls, and their snapshots flatten to those calls |
| Simulation.SnapshotItemError | src/simulate.js:5-9 | the error item has no type and stands for no handler call |
| Simulation.SimulateCommand | src/simulate.js:11-60 | a command is answered exactly when the item has its type: an effect gets the recorded result and emits the ship's effect with that result kept only if the check keeps it; a commit gets undefined and emits the ship's payload; a read gets the recorded state and re-emits the item; otherwise an error item naming the item's type and the command |
| Simulation.SimulateWithAnswer | src/simulate.js:62-162 | the replay is total, its output has at most one item more than the snapshot, and a replay that stopped ends with an error item or a partial 'All' item (the contents of each case: SimulateDone, SimulateExhausted, SimulateMismatch, SimulateFork, SimulateForkMismatch) |
| Simulation.SimulateBranches | src/simulate.js:107-129 | the branch fold gives results only if the accumulator had them, one per branch, and at most one sub-snapshot per branch (which ones: BranchesSnapshots) |
| Simulation.Simulate | src/simulate.js:164-169 | `simulate` returns at most one item more than it is given |
| Simulation.SimulateCorrected | src/simulate.js:164-169 | the same bound with the recorder's test for keeping a result |
| SimulateProps.SimulateDone | src/simulate.js:67-76 | a finished ship gives `{value}` and `[]` or `[Return]`, whatever remains of the snapshot |
| SimulateProps.SimulateExhausted | src/simulate.js:77-86 | a ship still running at the end of the snapshot stops with the one `terminated` error item |
| SimulateProps.SimulateMismatch | src/simulate.js:89-103 | a command meeting an item of another type stops the replay with one error item and reads nothing further |
| SimulateProps.SimulateAnswersRecordedResult | src/simulate.js:16-29 | an effect gets the recorded result, and the output carries the ship's effect with the result kept only if truthy |
| Simulation.OutputEffect | src/simulate.js:20-27 | the output effect item carries the ship's effect, and the recorded result exactly when the check keeps it |
| SimulateProps.SimulateForkMismatch | src/simulate.js:151-157 | an 'All' meeting an item of another type stops the replay with one error item naming that type and the 'All' |
| SimulateProps.BranchOutputsCons | src/simulate.js:107-121 | the branch outputs from `i` on are branch `i`'s output in front of those from `i + 1` on, when branch `i` has a sub-snapshot |
| SimulateProps.BranchesSnapshots | src/simulate.js:107-129 | the branch fold appends exactly one output per branch that has a sub-snapshot, finished or not, in branch order, and nothing for a branch without one |
| SimulateProps.SimulateFork | src/simulate.js:105-149 | an 'All' against an 'All' item emits one 'All' item of those branch outputs; if some branch lacks a sub-snapshot or stops early the replay stops there with no result, otherwise the parent goes on with the results |
| SimulateProps.BranchesFinishIff | src/simulate.js:106-131 | the parent of an 'All' is resumed if and only if every branch has a sub-snapshot and replays to its end |
| SimulateProps.ReplayBranches | src/simulate.js:107-142 | when every branch replays against its sub-snapshot, the parent gets their results in order and the 'All' item their output snapshots; sub-snapshots beyond the last branch are ignored |
| RoundTrip.SimulateCommandOfSnap | src/simulate.js:15-48 | replaying the item the recorder wrote for a command gives the answer the recorder passed on, and the item back |
| RoundTrip.RoundTrip | src/simulate.js:62-162 | for every recording the recorder of `s` can return, replaying its snapshot against `s` finishes with the recorded result and outputs the snapshot with falsy results dropped by the check |
| RoundTrip.RoundTripSuspend | src/simulate.js:88-104 | the round trip of a ship that yields a command |
| RoundTrip.RoundTripFork | src/simulate.js:105-150 | the round trip of a ship that yields an 'All' |
| RoundTrip.RoundTripEach | src/simulate.js:107-129 | the round trip of every branch of an 'All' |
| RoundTrip.ForkRecording | src/snap.js:94-111 | a recording of an 'All' is an 'All' item of branch recordings in front of a recording of the parent, resumed with their results |
| RoundTrip.RoundTripCommand | src/simulate.js:88-99 | the round trip step past one command |
| RoundTrip.RoundTripAll | src/simulate.js:105-142 | the round trip step past one 'All' |
| RoundTrip.ReplayRecordedBranches | src/simulate.js:107-129 | recorded branches replay to their results and their normalized snapshots |
| RoundTrip.RoundTripAsWritten | src/simulate.js:164-169 | `simulate(s, snapshot)` of a recording is the recording with the falsy effect results dropped |
| RoundTrip.RoundTripCorrected | src/simulate.js:164-169 | with the recorder's test, replaying a recording gives back the recorded result and the snapshot itself |
| RoundTrip.ReplayOfRun | src/simulate.js:164-169 | a live run recorded through `snap` replays to the result of the run, and with the recorder's test to its own snapshot |
| RoundTrip.FalsyResultIsDropped | src/simulate.js:20-27 | an effect answered `0` is recorded with its result, and `simulate` writes the item back without it |
| Lift.MapCommand | src/map.js:5-23 | an effect goes through unchanged, a commit stays a commit with payload `liftCommit(payload)`, and a read stays a read |
| Lift.LiftedSelector | src/map.js:16-20 | a lifted read, on any state `st`, selects with the ship's selector from `extractState(st)` |
| Lift.MapWithAnswer | src/map.js:25-50 | the lifted ship finishes exactly when the source ship does, with the same value (its shape under every answer: MapLifted) |
| Lift.MapLifted | src/map.js:25-50 | under every answer, with no store involved, the lifted ship makes the same suspensions in the same order: each command lifted and resuming the lifting of the continuation, each 'All' as wide with lifted branches and join, each result the same |
| Lift.MapBranches | src/map.js:42-44 | every branch of an 'All' is lifted with the same functions, in order |
| Lift.Map | src/map.js:52-58 | `map(liftCommit, extractState, ship)` is the lifting started with no answer, with `call` as the effect lift, and it is bounded like the ship. Its shape under every answer is in MapLifted and its run in MapDrive |
| Lift.LiftLog | src/map.js:36-39 | the lifted run's log: one entry per entry of the log, each with its commit lifted by `liftCommit` |
| Lift.CommandLifted | src/map.js:11-19 | when lifting commutes with the reducers, a lifted command leaves the extracted state where the original leaves the inner state, and gives the inner ship the same answer |
| Lift.MapDrive | src/map.js:25-50 | running a lifted ship in the outer store gives the same result, the inner state under `extractState`, the same calls in the same order with commits lifted, and the same number of suspensions |
| Lift.MapDriveSuspend | src/map.js:37-40 | the step of `MapDrive` past one command |
| Lift.MapDriveFork | src/map.js:41-46 | the step of `MapDrive` past one 'All' |
| Lift.MapDriveCommand | src/map.js:37-40 | the bookkeeping of one lifted command |
| Lift.MapSuspendDrive | src/map.js:37-40 | how a runner drives a lifted command: one lifted call, then the lifted rest |
| Lift.MapForkDrive | src/map.js:41-45 | how a runner drives a lifted 'All': the lifted branches, then the lifted parent |
| Lift.MapDriveAll | src/map.js:41-45 | the lifted 'All' agrees once its branches and parent agree |
| Lift.MapDriveBranches | src/map.js:42-44 | lifted branches give the same results, the extracted state and the lifted calls |
| Lift.LiftLogIdentity | src/map.js:36-39 | lifting every commit of a log with a function that changes none leaves the log as it is |
| Lift.MapIdentity | src/map.js:52-58 | `map` with the identity lifts runs as the ship itself: the same result, state, calls and step count |
| Tracing.ResumeAnswer | src/index.js:410-413 | after a 'Next' the traced ship is resumed with no answer, otherwise with the answer |
| Tracing.StepNode | src/index.js:380-434 | the node recorded for a request has the request's type and the rest of the trace as `next` |
| Tracing.Results | src/index.js:400 | the parent gets the branch results, one per branch, in order |
| Tracing.Traces | src/index.js:406 | the 'All' node holds the branch traces, one per branch, in order |
| Tracing.TraceWithAnswer | src/index.js:368-438 | a finished ship gives a 'Done' node with its result, undefined included; a request is re-yielded unchanged; an 'All' keeps its number of branches |
| Tracing.TraceBranches | src/index.js:396-399 | every branch is traced on its own, in order |
| Tracing.TraceShip | src/index.js:440-443 | `trace(ship)` is the tracer started with no answer, and it is bounded like the ship. Every trace it returns ends with its result (TraceEndsWithResult) and replays to itself (TraceRoundTrip) |
| Tracing.TraceAskStep | src/index.js:381-434 | a trace of a request is one node in front of a trace of the rest resumed with the answer |
| Tracing.TraceAllStep | src/index.js:395-409 | a trace of an 'All' is an 'All' node of the branch traces in front of a trace of the parent resumed with the branch results |
| Tracing.TraceEndsWithResult | src/index.js:370-379 | every trace ends in a 'Done' node carrying the returned result |
| Tracing.TraceEndsAsk | src/index.js:381-434 | the same for a ship that yields a request |
| Tracing.TraceEndsAll | src/index.js:395-409 | the same for a ship that yields an 'All' |
| TraceReplay.TraceToVal | src/index.js:484-489 | a trace handed to the parent as a value is an object with the trace's type |
| TraceReplay.JoinAnswer | src/index.js:484-489 | the parent's answer: one value per branch, the output traces as written or the branch results |
| TraceReplay.SimulationError | src/index.js:445-454 | the mismatch result is a 'Done' node whose result carries `actual`, `expected` and `message: 'Simulation error'` |
| TraceReplay.SimulateWithAnswer | src/index.js:456-519 | a finished ship gives 'Done' with its result whatever the trace; a mismatch gives the simulation error; a fitting node is re-emitted with the recorded answer; an 'All' node gets one sub-trace per branch |
| TraceReplay.SimulateBranches | src/index.js:484-486 | one output trace per branch |
| TraceReplay.Simulate | src/index.js:521-525 | `simulate(ship, trace)` as written: the replay that resumes the parent of an 'All' with the output traces. It gives back every trace without an 'All' (TraceRoundTripWithoutAll), but not the one-branch `all` (AllAnswersTracesAsWritten) |
| TraceReplay.SimulateCorrected | src/index.js:521-525 | the same replay, resuming the parent of an 'All' with the branch results as `trace` does at src/index.js:400. It gives back every trace the tracer can return (TraceRoundTrip) |
| TraceReplay.SimulateAnswersFromTrace | src/index.js:469-515 | Call answers `trace.result`, GetState answers `trace.state`, Next answers nothing, and the node is re-emitted with that answer |
| TraceReplay.SimulateBranchesAt | src/index.js:484-486 | output trace `j` is the replay of branch `j` against sub-trace `j` |
| TraceReplay.SimulateBranchesOk | src/index.js:484-486 | branches that each replay to their own trace give back the sub-traces |
| TraceReplay.SimulateBranchesErrIff | src/index.js:484-486 | the branches' replay throws exactly when some branch does: its replay against its sub-trace throws, or it has no sub-trace and has not finished |
| TraceReplay.TraceRoundTrip | src/index.js:456-519 | with the parent resumed with the branch results, replaying any trace the traced ship can return gives that trace back |
| TraceReplay.TraceRoundTripAsk | src/index.js:469-515 | the round trip of a ship that yields a request |
| TraceReplay.TraceRoundTripStep | src/index.js:469-515 | the round trip step past one request |
| TraceReplay.TraceRoundTripAll | src/index.js:481-494 | the round trip of a ship that yields an 'All' |
| TraceReplay.TraceRoundTripBranches | src/index.js:484-486 | the round trip of every branch |
| TraceReplay.TraceRoundTripJoin | src/index.js:481-492 | the round trip step past one 'All' |
| TraceReplay.AsWrittenAgreesWithoutAll | src/index.js:456-519 | on traces without an 'All' node, the replay as written and the corrected one agree |
| TraceReplay.TraceRoundTripWithoutAll | src/index.js:521-525 | `simulate` as written gives back every trace that has no 'All' node |
| TraceReplay.AllAnswersTracesAsWritten | src/index.js:484-489 | a one-branch 'All' traces to `All(Done([1]), [Done(1)])`, yet `simulate` as written resumes the parent with the branch trace and does not give that trace back; the corrected replay does |
| TraceReplay.MissingSubTraceThrows | src/index.js:484-486 | a branch that has not finished and has no sub-trace makes the replay throw the TypeError |
| LockStep.Run | src/simulator.js:19-58 | both done gives the ship's result; one side done gives the matching "not terminated" error; a kind mismatch gives "Expected <simulator kind> but got <ship kind>" |
| LockStep.RunBranches | src/simulator.js:43-50 | an 'All' succeeds with one result per simulator |
| LockStep.Wait | src/simulator.js:60-66 | `wait(args, result)` is a script of one 'Wait' step with that result |
| LockStep.CallStep | src/simulator.js:68-74 | `call(args, result)` is a script of one 'Call' step with that result |
| LockStep.AllStep | src/simulator.js:76-81 | `all(simulators)` is a script of one 'All' step over them |
| LockStep.RunDone | src/simulator.js:19-27 | a finished ship succeeds if and only if the simulator is finished too, with the ship's result |
| LockStep.RunAnswersScripted | src/simulator.js:33-42 | a matching 'Wait' or 'Call' step answers the ship with the scripted result and moves both on by one step |
| LockStep.RunBranchesResults | src/simulator.js:43-50 | a successful 'All' needs at least as many ships as simulators and answers with `run(ships[i], simulators[i])` for each `i`, in order |
| LockStep.RunBranchesOkIff | src/simulator.js:43-50 | an 'All' succeeds exactly when every simulator has a ship and each ship runs against its simulator without error |
| LockStep.RunErrorsKnown | src/simulator.js:19-58 | every error is one of the checker's own messages |
| LockStep.RunBranchesErrorsKnown | src/simulator.js:43-50 | the same for the branches of an 'All' |
| LockStep.RunExtraStep | src/simulator.js:22-26 | lock step: one step more than the ship takes is an error |
| LockStep.RunMissingStep | src/simulator.js:28-30 | lock step: one step fewer is an error too |
| LockStep.WaitAnswers | src/simulator.js:60-74 | `wait` and `call` answer a ship's step with their result |
| Fixtures.Spread | src/__tests__/index.js:66-75 | `{...state, key: v}` sets `key` and keeps every other property |
| Fixtures.EyeReduce | src/__tests__/index.js:63-79 | 'LoadStart' sets `isLoading`, 'LoadSuccess' sets the colour and clears `isLoading`, other commits change nothing |
| Fixtures.Reduce | src/__tests__/index.js:109-119 | an 'Eye' commit reduces the `eye` part with `eyeReduce`, other commits change nothing |
| Fixtures.FixtureEffect | src/__tests__/index.js:34-44 | the test's handler: an 'HttpRequest' effect, whatever its url, gets the R2-D2 JSON body, and any other effect gets undefined |
| Fixtures.EyeControl | src/__tests__/index.js:83-94 | the eye controller. It reads the colour and stops if it is truthy. Otherwise it commits LoadStart, runs two requests in one 'All', and commits LoadSuccess with the `eye_color` parsed from the first body. Its runs and replays are RunWithoutEye, RunLoadedAgain, ReplayWithEye and ReplayWithoutEye |
| Fixtures.Control | src/__tests__/index.js:123-129 | the lifted eye controller suspends at most four times in a row |
| Fixtures.ReplayWithEye | src/__tests__/index.js:158-162 | replaying the lifted controller against a read of 'red' gives that snapshot back |
| Fixtures.ReplayRequest | src/__tests__/index.js:27-32 | a lifted request replayed against its effect item answers the body and returns it |
| Fixtures.ReplayLoaded | src/__tests__/index.js:91-92 | the commit of the parsed colour replays against its own item |
| Fixtures.ReplayRequests | src/__tests__/index.js:87-90 | the two requests of the 'All' replay to both bodies, each sub-snapshot gaining a 'Return' |
| Fixtures.ReplayFromRequests | src/__tests__/index.js:87-92 | from the 'All' on, the replay commits the colour of the first body |
| Fixtures.ReplayFromLoadStart | src/__tests__/index.js:86-92 | the 'LoadStart' commit comes back lifted in front of the rest |
| Fixtures.ReplayFromRead | src/__tests__/index.js:84-93 | a read with no colour is re-emitted in front of the load |
| Fixtures.ReplayWithoutEye | src/__tests__/index.js:131-157 | replaying the "without eye" snapshot gives every item back, with each request's sub-snapshot ending in a 'Return', and so differs from the fixture |
| Fixtures.RunLoaded | src/__tests__/index.js:91-92 | the last step commits the parsed colour of the first body |
| Fixtures.RunRequests | src/__tests__/index.js:87-92 | the requests call the effect handler twice, in order, then commit 'red' |
| Fixtures.RunFromLoadStart | src/__tests__/index.js:85-92 | without a colour, the controller commits 'LoadStart', requests both bodies and commits 'red' |
| Fixtures.LoadedFromInitial | src/__tests__/index.js:51-79 | the two commits take the initial eye state to colour 'red', not loading |
| Fixtures.RunFromRead | src/__tests__/index.js:83-94 | from any state without a colour: one read, then the load |
| Fixtures.RunWithoutEye | src/__tests__/index.js:166-171 | a run from the initial eye state ends with colour 'red', not loading, after the read, the commit, two requests and the commit |
| Fixtures.RunLoadedAgain | src/__tests__/index.js:173-178 | a second run only reads the colour and changes nothing |
| Fixtures.RunTwice | src/__tests__/index.js:173-178 | two runs against one store leave colour 'red', not loading |
| Fixtures.LoadEye | examples/http-request/src/eye/controller.js:10-22 | the example's controller. A 'Load' commits LoadStart, requests one body, and commits LoadSuccess with its parsed `eye_color`. Any other action yields nothing. Its replays are ReplayLoadEye and ReplayOtherAction |
| Fixtures.ReplayLoadEye | examples/http-request/src/eye/__tests__/controller.js:6-14 | a 'Load' replayed against its recorded snapshot gives it back, for any non-empty body whose colour parses to 'red' |
| Fixtures.ReplayOtherAction | examples/http-request/src/eye/controller.js:19-21 | any other action yields nothing and replays against the empty snapshot |

## Left out

- Promises and async scheduling (`Promise.resolve`, `.then`, `Promise.all`): the handlers are synchronous and the branches of an 'All' run one after another in index order. Overlapping branches and microtask interleaving cannot be stated in this sequential model. The results come back in the same order.
- Generator mechanics: object identity, `next` after `done`, and the `default:` branches for unknown kinds. Kinds are a closed datatype here, so those branches cannot be reached.
- Depth bound: every interpreter requires `Bounded(s, n)`, a bound on how many times in a row the ship suspends whatever the answers. Ships that can suspend without bound are not covered.
- Numbers are modelled as integers. `JSON.parse` and `JSON.stringify` of the fixtures are a parameter `parse` and two constant bodies. Only the colour the parse yields matters.
- `map`'s `liftEffect` is always `call`: `src/map.js:57` fixes it to that.
- `src/map.js:3` imports a `commit` that `src/ship.js` does not export. `Primitives.Dispatch` stands for both.
- The redux middleware of `src/index.js:71-90` and the store wiring: they are adapters to a library that is not part of this model.
- `mapWithAnswer` of `src/index.js:192-232`: it is not valid JavaScript, and it switches on kinds that file's primitives never yield.
- `snapshotWithAnswer` of `src/index.js:241-344`: an older duplicate of `src/snap.js` over the Call/Next vocabulary, which the recorder model covers.
- Jest `toMatchSnapshot` in `src/__tests__/index.js:170` and `:177`: the stored snapshots are not part of this model. The final store state is proved instead (`Fixtures.RunWithoutEye`, `Fixtures.RunTwice`).
- `src/__tests__/index.js` imports `../index`, but it calls the API of `src/ship.js`, `src/snap.js`, `src/simulate.js` and `src/map.js` (`getState` with a selector, `commit`, `map`, `simulate` over snapshots). The fixtures are modelled against those modules.
- The "without eye" fixture (`src/__tests__/index.js:131-156`) has no 'Return' item in its sub-snapshots, yet each request returns its body. The model's replay of it therefore differs from the fixture, and `Fixtures.ReplayWithoutEye` proves that difference rather than the test's equality.
- `examples/http-request/src/effect.js` is not part of this model: its `httpRequest` is taken to be `call` of an `HttpRequest` effect.
- `examples/basic/src/controller.test.js:60` uses `Dispatch` items, which belong to the older vocabulary, so it is not modelled.
- The React views, store entry points and effect runners under `examples/`, `dist/`, `decls/`, `rollup.config.js` and `test/index.js` are left out: these are consumers, build configuration and smoke tests, not the library.
- LiveRun.Drive, LiveRun.RunCommand, LiveRun.Run: the effect handler is a total, deterministic function `Val -> Val`. A handler that throws or rejects is not represented; in `src/run.js:10-21` and `:37-39` that rejects the promise `run` returns, and no further command is issued. A handler that answers the same effect differently on two calls is not represented either. `Recorder.SnapDrive`, `Lift.MapDrive` and `LegacyRun.LegacyAgreesOnPlainReads` compare two runs under that assumption; `Lift.MapLifted` and `RoundTrip.RoundTrip` hold for every answer.
- Recorder.Snap: a ship has one result type, so the recorder of a `Ship<Val>` is a `Ship<Recording>`. Unlike the source's `snap`, which is itself a ship, it cannot be a branch of an 'All' of `Ship<Val>` ships, or be run with `yield*` inside a controller that returns a plain value.
- Thrown TypeErrors become `Err` results carrying a fixed message. Two cases are modelled this way: a simulator without a ship in the lock-step checker, and an unfinished branch without a sub-trace in the trace replay. The exact wording a JavaScript engine gives such a message is not modelled.

## Findings

| source | as written | input that shows it | evidently intended | confidence | as-written member | corrected member |
|---|---|---|---|---|---|---|
| src/simulate.js:20 | the replay keeps an effect result only when it is truthy, while the recorder (src/snap.js:33) keeps it whenever it is not undefined | `call(e)` with the effect answered `0`: recorded `[Effect e result 0, Return 0]`, replayed `[Effect e, Return 0]` | keep the result when it is not undefined, so a replay of a recording is that recording | not executed | RoundTrip.FalsyResultIsDropped | RoundTrip.RoundTripCorrected |
| src/index.js:484-489 | the replay resumes the parent of an 'All' with the branch output traces | `all([done(1)])` returning its answer: traced `All(Done([1]), [Done(1)])`, replayed `All(Done([{type:'Done', result:1}]), [Done(1)])` | resume the parent with the branch results, as `traceWithAnswer` does at src/index.js:400 | not executed | TraceReplay.AllAnswersTracesAsWritten | TraceReplay.TraceRoundTrip |
