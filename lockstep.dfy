/**
 * The lock-step checker of src/simulator.js. A simulator is a script of
 * the steps a ship is expected to take, each with the result to answer it
 * with. `run(ship, simulator)` advances both together, one step each, and
 * throws as soon as they disagree.
 */
module LockStep {
  import opened JsValues

  /** The ships this checker expects: 'Wait', 'Call' and 'All' steps. */
  datatype LShip =
    | LDone(value: Val)
    | LWait(args: seq<Val>, resume: Val -> LShip)
    | LCall(args: seq<Val>, resume: Val -> LShip)
    | LAll(ships: seq<LShip>, join: seq<Val> -> LShip)

  /** One scripted step, the `Effect` type of the simulator. */
  datatype Step =
    | SWait(args: seq<Val>, result: Val)
    | SCall(args: seq<Val>, result: Val)
    | SAll(simulators: seq<Simulator>)

  /** A simulator: the steps its generator yields, in order. */
  datatype Simulator = Simulator(steps: seq<Step>)

  const ShipTerminated := "Simulator not terminated but ship terminated"
  const SimulatorTerminated := "Ship not terminated but simulator terminated"

  /** The message of the TypeError thrown for a simulator without a ship. */
  const MissingShip := "TypeError: cannot read property 'next' of undefined"

  function StepType(step: Step): string {
    match step
    case SWait(_, _) => "Wait"
    case SCall(_, _) => "Call"
    case SAll(_) => "All"
  }

  function ShipType(s: LShip): string
    requires !s.LDone?
  {
    match s
    case LWait(_, _) => "Wait"
    case LCall(_, _) => "Call"
    case LAll(_, _) => "All"
  }

  /** The error for a step of the wrong kind: "Expected <simulator kind> but got <ship kind>". */
  function Mismatch(expected: string, got: string): string {
    "Expected " + expected + " but got " + got
  }

  /** `run(ship, simulator)`: the ship's result, or the message of the error it throws. */
  function Run(s: LShip, steps: seq<Step>): (r: Result<Val>)
    ensures s.LDone? && steps == [] ==> r == Ok(s.value)
    ensures s.LDone? && steps != [] ==> r == Err(ShipTerminated)
    ensures !s.LDone? && steps == [] ==> r == Err(SimulatorTerminated)
    ensures !s.LDone? && steps != [] && ShipType(s) != StepType(steps[0]) ==>
      r == Err(Mismatch(StepType(steps[0]), ShipType(s)))
    decreases steps
  {
    if s.LDone? then
      if steps == [] then Ok(s.value) else Err(ShipTerminated)
    else if steps == [] then Err(SimulatorTerminated)
    else
      var step := steps[0];
      match s
      case LWait(_, resume) =>
        if step.SWait? then Run(resume(step.result), steps[1..]) else Err(Mismatch(StepType(step), "Wait"))
      case LCall(_, resume) =>
        if step.SCall? then Run(resume(step.result), steps[1..]) else Err(Mismatch(StepType(step), "Call"))
      case LAll(ships, join) =>
        if step.SAll? then
          var answers := RunBranches(ships, step.simulators, 0);
          if answers.Err? then Err(answers.message) else Run(join(answers.value), steps[1..])
        else Err(Mismatch(StepType(step), "All"))
  }

  /**
   * `simulators.map((sim, index) => run(ships[index], sim))` from index `i`:
   * one result per simulator; surplus ships are never run, a simulator
   * without a ship throws.
   */
  function RunBranches(ships: seq<LShip>, sims: seq<Simulator>, i: nat): (r: Result<seq<Val>>)
    requires i <= |sims|
    ensures r.Ok? ==> |r.value| == |sims| - i
    decreases sims, |sims| - i
  {
    if i == |sims| then Ok([])
    else
      var first := if i < |ships| then Run(ships[i], sims[i].steps) else Err(MissingShip);
      if first.Err? then Err(first.message)
      else
        var rest := RunBranches(ships, sims, i + 1);
        if rest.Err? then rest else Ok([first.value] + rest.value)
  }

  /** `wait(args, result)`: a simulator of one 'Wait' step. */
  function Wait(args: seq<Val>, result: Val): (sim: Simulator)
    ensures |sim.steps| == 1 && sim.steps[0].SWait? && sim.steps[0].result == result
  {
    Simulator([SWait(args, result)])
  }

  /** `call(args, result)`: a simulator of one 'Call' step. */
  function CallStep(args: seq<Val>, result: Val): (sim: Simulator)
    ensures |sim.steps| == 1 && sim.steps[0].SCall? && sim.steps[0].result == result
  {
    Simulator([SCall(args, result)])
  }

  /** `all(simulators)`: a simulator of one 'All' step over the given simulators. */
  function AllStep(simulators: seq<Simulator>): (sim: Simulator)
    ensures |sim.steps| == 1 && sim.steps[0] == SAll(simulators)
  {
    Simulator([SAll(simulators)])
  }

  /** A finished ship succeeds exactly against a finished simulator, with its own result. */
  lemma RunDone(v: Val, steps: seq<Step>)
    ensures Run(LDone(v), steps).Ok? <==> steps == []
    ensures Run(LDone(v), steps).Ok? ==> Run(LDone(v), steps).value == v
  {
  }

  /** Matching 'Wait' and 'Call' steps answer the ship with the scripted result. */
  lemma RunAnswersScripted(s: LShip, steps: seq<Step>)
    requires s.LWait? || s.LCall?
    requires steps != [] && StepType(steps[0]) == ShipType(s)
    ensures Run(s, steps) == Run(s.resume(steps[0].result), steps[1..])
  {
  }

  /**
   * An 'All' step answers the ship with one result per simulator, in
   * simulator order, each the result of running the ship of the same index
   * against it; it needs at least as many ships as simulators.
   */
  lemma {:induction false} RunBranchesResults(ships: seq<LShip>, sims: seq<Simulator>, i: nat)
    requires i <= |sims|
    requires RunBranches(ships, sims, i).Ok?
    ensures i < |sims| ==> |sims| <= |ships|
    ensures forall j :: i <= j < |sims| && j < |ships| ==>
      Run(ships[j], sims[j].steps).Ok? && RunBranches(ships, sims, i).value[j - i] == Run(ships[j], sims[j].steps).value
    decreases |sims| - i
  {
    if i < |sims| {
      RunBranchesResults(ships, sims, i + 1);
    }
  }

  /** Script `j` of an 'All' has a ship, which runs against it without error. */
  ghost predicate BranchRuns(ships: seq<LShip>, sims: seq<Simulator>, j: nat)
    requires j < |sims|
  {
    j < |ships| && Run(ships[j], sims[j].steps).Ok?
  }

  /**
   * The branches of an 'All' from `i` succeed exactly when every script from
   * `i` has a ship and each ship runs against its script without error.
   */
  lemma {:induction false} RunBranchesOkIff(ships: seq<LShip>, sims: seq<Simulator>, i: nat)
    requires i <= |sims|
    ensures RunBranches(ships, sims, i).Ok? <==> forall j :: i <= j < |sims| ==> BranchRuns(ships, sims, j)
    decreases |sims| - i
  {
    if i < |sims| {
      RunBranchesOkIff(ships, sims, i + 1);
      if BranchRuns(ships, sims, i) {
        assert RunBranches(ships, sims, i).Ok? <==> RunBranches(ships, sims, i + 1).Ok?;
        if forall j :: i + 1 <= j < |sims| ==> BranchRuns(ships, sims, j) {
          forall j | i <= j < |sims| ensures BranchRuns(ships, sims, j) {
            if j > i {
              assert i + 1 <= j;
            }
          }
        }
      } else {
        assert !RunBranches(ships, sims, i).Ok?;
      }
    }
  }

  /** Every error is one of the checker's own messages. */
  ghost predicate KnownError(message: string) {
    message == ShipTerminated || message == SimulatorTerminated || message == MissingShip
    || exists e, g :: e in {"Wait", "Call", "All"} && g in {"Wait", "Call", "All"} && message == Mismatch(e, g)
  }

  lemma {:induction false} RunErrorsKnown(s: LShip, steps: seq<Step>)
    requires Run(s, steps).Err?
    ensures KnownError(Run(s, steps).message)
    decreases steps
  {
    if !s.LDone? && steps != [] {
      var step := steps[0];
      if ShipType(s) != StepType(step) {
        assert KnownError(Mismatch(StepType(step), ShipType(s)));
      } else {
        match s
        case LWait(_, resume) => RunErrorsKnown(resume(step.result), steps[1..]);
        case LCall(_, resume) => RunErrorsKnown(resume(step.result), steps[1..]);
        case LAll(ships, join) =>
          var answers := RunBranches(ships, step.simulators, 0);
          if answers.Err? {
            RunBranchesErrorsKnown(ships, step.simulators, 0);
          } else {
            RunErrorsKnown(join(answers.value), steps[1..]);
          }
      }
    }
  }

  lemma {:induction false} RunBranchesErrorsKnown(ships: seq<LShip>, sims: seq<Simulator>, i: nat)
    requires i <= |sims| && RunBranches(ships, sims, i).Err?
    ensures KnownError(RunBranches(ships, sims, i).message)
    decreases sims, |sims| - i
  {
    if i < |ships| && Run(ships[i], sims[i].steps).Err? {
      RunErrorsKnown(ships[i], sims[i].steps);
    } else if i < |ships| {
      RunBranchesErrorsKnown(ships, sims, i + 1);
    }
  }

  /**
   * Lock step, from the simulator's side: a script that runs a ship to its
   * end has exactly one step per step of the ship, so one more step at the
   * end is an error ...
   */
  lemma {:induction false} RunExtraStep(s: LShip, steps: seq<Step>, extra: Step, v: Val)
    requires Run(s, steps) == Ok(v)
    ensures Run(s, steps + [extra]) == Err(ShipTerminated)
    decreases steps
  {
    if steps != [] {
      var step := steps[0];
      assert (steps + [extra])[0] == step && (steps + [extra])[1..] == steps[1..] + [extra];
      match s
      case LWait(_, resume) => RunExtraStep(resume(step.result), steps[1..], extra, v);
      case LCall(_, resume) => RunExtraStep(resume(step.result), steps[1..], extra, v);
      case LAll(ships, join) =>
        var answers := RunBranches(ships, step.simulators, 0);
        RunExtraStep(join(answers.value), steps[1..], extra, v);
    }
  }

  /** ... and a script one step short is an error too. */
  lemma {:induction false} RunMissingStep(s: LShip, steps: seq<Step>, v: Val)
    requires Run(s, steps) == Ok(v) && steps != []
    ensures Run(s, steps[..|steps| - 1]) == Err(SimulatorTerminated)
    decreases steps
  {
    var step := steps[0];
    var short := steps[..|steps| - 1];
    if |steps| == 1 {
      assert short == [];
    } else {
      assert short[0] == step && short[1..] == steps[1..][..|steps[1..]| - 1];
      match s
      case LWait(_, resume) => RunMissingStep(resume(step.result), steps[1..], v);
      case LCall(_, resume) => RunMissingStep(resume(step.result), steps[1..], v);
      case LAll(ships, join) =>
        var answers := RunBranches(ships, step.simulators, 0);
        RunMissingStep(join(answers.value), steps[1..], v);
    }
  }

  /** `wait` and `call` answer a ship's step with their scripted result. */
  lemma WaitAnswers(args: seq<Val>, shipArgs: seq<Val>, result: Val, resume: Val -> LShip)
    ensures Run(LWait(shipArgs, resume), Wait(args, result).steps) == Run(resume(result), [])
    ensures Run(LCall(shipArgs, resume), CallStep(args, result).steps) == Run(resume(result), [])
  {
    assert Wait(args, result).steps[1..] == [];
    assert CallStep(args, result).steps[1..] == [];
  }
}
