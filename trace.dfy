/**
 * The older tree-shaped recorder and replayer of src/index.js. Its ships
 * yield their own vocabulary: `{type: 'Call', args}` for an effect,
 * `{type: 'Next', action}` for a dispatch, `{type: 'GetState'}` for a read,
 * and `{type: 'All', ships}` for parallel branches.
 */
module TraceShips {
  import opened JsValues

  /** What a ship of this vocabulary asks for, other than an 'All'. */
  datatype Request =
    | CallReq(args: seq<Val>)
    | NextReq(action: Val)
    | GetStateReq

  datatype TShip<!R> =
    | TDone(value: R)
    | TAsk(request: Request, resume: Val -> TShip<R>)
    | TAll(ships: seq<TShip<R>>, join: seq<R> -> TShip<R>)

  /** `s` suspends at most `n` times in a row, whatever the answers. */
  ghost predicate TBounded<R(!new)>(s: TShip<R>, n: nat)
    decreases n
  {
    match s
    case TDone(_) => true
    case TAsk(_, resume) => n > 0 && forall a :: TBounded(resume(a), n - 1)
    case TAll(ships, join) =>
      n > 0
      && (forall i :: 0 <= i < |ships| ==> TBounded(ships[i], n - 1))
      && (forall rs :: TBounded(join(rs), n - 1))
  }

  /** `x` is a result `s` can finish with under some answers. */
  ghost predicate TReaches<R(!new)>(s: TShip<R>, x: R, n: nat)
    decreases n
  {
    match s
    case TDone(v) => v == x
    case TAsk(_, resume) => n > 0 && exists a :: TReaches(resume(a), x, n - 1)
    case TAll(ships, join) =>
      n > 0 && exists rs: seq<R> ::
        |rs| == |ships|
        && (forall i :: 0 <= i < |ships| ==> TReaches(ships[i], rs[i], n - 1))
        && TReaches(join(rs), x, n - 1)
  }

  /** The ship `const x = yield* s; return f(x);`. */
  function TMapResult<R(!new)>(s: TShip<R>, f: R -> R, ghost n: nat): (r: TShip<R>)
    requires TBounded(s, n)
    ensures TBounded(r, n)
    ensures r.TDone? <==> s.TDone?
    decreases n
  {
    match s
    case TDone(v) => TDone(f(v))
    case TAsk(q, resume) => TAsk(q, a => TMapResult(resume(a), f, n - 1))
    case TAll(ships, join) => TAll(ships, rs => TMapResult(join(rs), f, n - 1))
  }

  /** Every result of `TMapResult(s, f)` is `f` of a result of `s`. */
  lemma {:induction false} TReachesMapResult<R(!new)>(s: TShip<R>, f: R -> R, n: nat, y: R)
    requires TBounded(s, n)
    requires TReaches(TMapResult(s, f, n), y, n)
    ensures exists x :: TReaches(s, x, n) && y == f(x)
    decreases n
  {
    match s
    case TDone(v) =>
      assert TReaches(s, v, n);
    case TAsk(q, resume) =>
      var a :| TReaches(TMapResult(resume(a), f, n - 1), y, n - 1);
      TReachesMapResult(resume(a), f, n - 1, y);
      var x :| TReaches(resume(a), x, n - 1) && y == f(x);
      assert TReaches(s, x, n);
    case TAll(ships, join) =>
      var rs: seq<R> :| |rs| == |ships|
        && (forall i :: 0 <= i < |ships| ==> TReaches(ships[i], rs[i], n - 1))
        && TReaches(TMapResult(join(rs), f, n - 1), y, n - 1);
      TReachesMapResult(join(rs), f, n - 1, y);
      var x :| TReaches(join(rs), x, n - 1) && y == f(x);
      assert TReaches(s, x, n);
  }
}

/**
 * `trace(ship)`: a ship that re-yields everything `ship` yields and returns
 * `{result, trace}`, the trace being the tree of what the ship asked for and
 * which answers it got.
 */
module Tracing {
  import opened JsValues
  import opened TraceShips

  /** The `Trace` type of src/index.js. */
  datatype Trace =
    | Done(result: Val)
    | Call(args: seq<Val>, next: Trace, result: Val)
    | All(next: Trace, traces: seq<Trace>)
    | Next(action: Val, next: Trace)
    | GetState(next: Trace, state: Val)

  /** The record `{result, trace}` the tracing ship returns. */
  datatype TraceRec = TraceRec(result: Val, trace: Trace)

  /** The `type` tag of a trace node. */
  function TypeOf(t: Trace): string {
    match t
    case Done(_) => "Done"
    case Call(_, _, _) => "Call"
    case All(_, _) => "All"
    case Next(_, _) => "Next"
    case GetState(_, _) => "GetState"
  }

  /** The `type` tag of a request. */
  function KindOf(q: Request): string {
    match q
    case CallReq(_) => "Call"
    case NextReq(_) => "Next"
    case GetStateReq => "GetState"
  }

  /** The answer the traced ship is resumed with: none after a 'Next'. */
  function ResumeAnswer(q: Request, a: Val): (r: Val)
    ensures q.NextReq? ==> r == Undefined
    ensures !q.NextReq? ==> r == a
  {
    if q.NextReq? then Undefined else a
  }

  /** The trace node for request `q` answered with `a`, followed by `next`. */
  function StepNode(q: Request, a: Val, next: Trace): (t: Trace)
    ensures TypeOf(t) == KindOf(q) && t.next == next
  {
    match q
    case CallReq(args) => Call(args, next, a)
    case NextReq(action) => Next(action, next)
    case GetStateReq => GetState(next, a)
  }

  /** The result at the end of a trace: the `result` of the `Done` it ends with. */
  function TraceResult(t: Trace): Val
    decreases t
  {
    match t
    case Done(r) => r
    case Call(_, next, _) => TraceResult(next)
    case All(next, _) => TraceResult(next)
    case Next(_, next) => TraceResult(next)
    case GetState(next, _) => TraceResult(next)
  }

  function Results(recs: seq<TraceRec>): (r: seq<Val>)
    ensures |r| == |recs| && forall i :: 0 <= i < |recs| ==> r[i] == recs[i].result
  {
    seq(|recs|, i requires 0 <= i < |recs| => recs[i].result)
  }

  function Traces(recs: seq<TraceRec>): (r: seq<Trace>)
    ensures |r| == |recs| && forall i :: 0 <= i < |recs| ==> r[i] == recs[i].trace
  {
    seq(|recs|, i requires 0 <= i < |recs| => recs[i].trace)
  }

  /** `traceWithAnswer` (src/index.js:368-427). */
  function TraceWithAnswer(s: TShip<Val>, ghost n: nat): (r: TShip<TraceRec>)
    requires TBounded(s, n)
    ensures TBounded(r, n)
    ensures r.TDone? <==> s.TDone?
    ensures s.TDone? ==> r.value == TraceRec(s.value, Done(s.value))
    ensures s.TAsk? ==> r.TAsk? && r.request == s.request
    ensures s.TAll? ==> r.TAll? && |r.ships| == |s.ships|
    decreases n, 0
  {
    match s
    case TDone(v) => TDone(TraceRec(v, Done(v)))
    case TAsk(q, resume) => TAsk(q, a => TraceAskThen(q, resume, a, n - 1))
    case TAll(ships, join) => TAll(TraceBranches(ships, n - 1), recs => TraceAllThen(join, recs, n - 1))
  }

  /** The tracing ship after request `q` was answered with `a`. */
  function TraceAskThen(q: Request, resume: Val -> TShip<Val>, a: Val, ghost n: nat): (r: TShip<TraceRec>)
    requires forall b :: TBounded(resume(b), n)
    ensures TBounded(r, n)
    decreases n, 1
  {
    TMapResult(TraceWithAnswer(resume(ResumeAnswer(q, a)), n), (x: TraceRec) => TraceRec(x.result, StepNode(q, a, x.trace)), n)
  }

  /** The tracing ship after its traced branches returned `recs`. */
  function TraceAllThen(join: seq<Val> -> TShip<Val>, recs: seq<TraceRec>, ghost n: nat): (r: TShip<TraceRec>)
    requires forall rs :: TBounded(join(rs), n)
    ensures TBounded(r, n)
    decreases n, 1
  {
    TMapResult(TraceWithAnswer(join(Results(recs)), n), (x: TraceRec) => TraceRec(x.result, All(x.trace, Traces(recs))), n)
  }

  function TraceBranches(ships: seq<TShip<Val>>, ghost n: nat): (r: seq<TShip<TraceRec>>)
    requires forall i :: 0 <= i < |ships| ==> TBounded(ships[i], n)
    ensures |r| == |ships|
    ensures forall i :: 0 <= i < |ships| ==> r[i] == TraceWithAnswer(ships[i], n) && TBounded(r[i], n)
    decreases n, 1
  {
    seq(|ships|, i requires 0 <= i < |ships| => TraceWithAnswer(ships[i], n))
  }

  /** `trace(ship)`. */
  function TraceShip(s: TShip<Val>, ghost n: nat): (r: TShip<TraceRec>)
    requires TBounded(s, n)
    ensures TBounded(r, n)
  {
    TraceWithAnswer(s, n)
  }

  /**
   * Past a request, the tracing ship resumes the ship with the answer (no
   * answer after a 'Next') and writes the request's node in front of the
   * rest of the trace: a `Call` with the args and the answer, a `Next` with
   * the action, a `GetState` with the state read.
   */
  lemma TraceAskStep(q: Request, resume: Val -> TShip<Val>, a: Val, n: nat, rec: TraceRec)
    requires forall b :: TBounded(resume(b), n)
    requires TReaches(TraceAskThen(q, resume, a, n), rec, n)
    ensures exists x :: (TReaches(TraceWithAnswer(resume(ResumeAnswer(q, a)), n), x, n)
                         && rec == TraceRec(x.result, StepNode(q, a, x.trace)))
  {
    TReachesMapResult(TraceWithAnswer(resume(ResumeAnswer(q, a)), n),
                      (x: TraceRec) => TraceRec(x.result, StepNode(q, a, x.trace)), n, rec);
  }

  /**
   * Past an 'All', the parent is resumed with the branch results, in branch
   * order, and the trace holds one sub-trace per branch, in the same order.
   */
  lemma TraceAllStep(join: seq<Val> -> TShip<Val>, recs: seq<TraceRec>, n: nat, rec: TraceRec)
    requires forall rs :: TBounded(join(rs), n)
    requires TReaches(TraceAllThen(join, recs, n), rec, n)
    ensures exists x :: (TReaches(TraceWithAnswer(join(Results(recs)), n), x, n)
                         && rec == TraceRec(x.result, All(x.trace, Traces(recs))))
  {
    TReachesMapResult(TraceWithAnswer(join(Results(recs)), n),
                      (x: TraceRec) => TraceRec(x.result, All(x.trace, Traces(recs))), n, rec);
  }

  /**
   * A trace always ends with a `Done` node that carries the result, also
   * when the result is undefined.
   */
  lemma {:induction false} TraceEndsWithResult(s: TShip<Val>, n: nat, rec: TraceRec)
    requires TBounded(s, n) && TReaches(TraceWithAnswer(s, n), rec, n)
    ensures TraceResult(rec.trace) == rec.result
    decreases n, 1
  {
    match s
    case TDone(v) =>
    case TAsk(q, resume) => TraceEndsAsk(q, resume, n, rec);
    case TAll(ships, join) => TraceEndsAll(ships, join, n, rec);
  }

  lemma {:induction false} TraceEndsAsk(q: Request, resume: Val -> TShip<Val>, n: nat, rec: TraceRec)
    requires TBounded(TAsk(q, resume), n) && TReaches(TraceWithAnswer(TAsk(q, resume), n), rec, n)
    ensures TraceResult(rec.trace) == rec.result
    decreases n, 0
  {
    var a :| TReaches(TraceAskThen(q, resume, a, n - 1), rec, n - 1);
    TraceAskStep(q, resume, a, n - 1, rec);
    var x :| TReaches(TraceWithAnswer(resume(ResumeAnswer(q, a)), n - 1), x, n - 1)
      && rec == TraceRec(x.result, StepNode(q, a, x.trace));
    TraceEndsWithResult(resume(ResumeAnswer(q, a)), n - 1, x);
  }

  lemma {:induction false} TraceEndsAll(ships: seq<TShip<Val>>, join: seq<Val> -> TShip<Val>, n: nat, rec: TraceRec)
    requires TBounded(TAll(ships, join), n) && TReaches(TraceWithAnswer(TAll(ships, join), n), rec, n)
    ensures TraceResult(rec.trace) == rec.result
    decreases n, 0
  {
    var traced := TraceBranches(ships, n - 1);
    var recs: seq<TraceRec> :| |recs| == |traced|
      && (forall i :: 0 <= i < |traced| ==> TReaches(traced[i], recs[i], n - 1))
      && TReaches(TraceAllThen(join, recs, n - 1), rec, n - 1);
    TraceAllStep(join, recs, n - 1, rec);
    var x :| TReaches(TraceWithAnswer(join(Results(recs)), n - 1), x, n - 1)
      && rec == TraceRec(x.result, All(x.trace, Traces(recs)));
    TraceEndsWithResult(join(Results(recs)), n - 1, x);
  }
}

/**
 * `simulate(ship, trace)` of src/index.js: the ship is run without
 * handlers, each request answered from the trace node in front of it, and
 * the output is the trace the ship makes on the way. A node of the wrong
 * type ends the output with a `Done` node that describes the mismatch.
 *
 * As written, the parent of an 'All' is resumed with the branch OUTPUT
 * TRACES, where the tracing ship resumed it with the branch results.
 * `JoinAnswer` selects between that and the branch results.
 */
module TraceReplay {
  import opened JsValues
  import opened TraceShips
  import opened Tracing

  datatype JoinPolicy =
    | AnswerTraces    // `simulateWithAnswer(ship, trace.next, newAnswer)`, as written
    | AnswerResults   // the branch results, as the tracing ship answers

  /** A trace as the JavaScript object the parent receives, as written. */
  function TraceToVal(t: Trace): (v: Val)
    ensures v.Obj? && Get(v, "type") == Str(TypeOf(t))
    decreases t
  {
    match t
    case Done(r) => Obj(map["type" := Str("Done"), "result" := r])
    case Call(args, next, r) =>
      Obj(map["type" := Str("Call"), "args" := Arr(args), "next" := TraceToVal(next), "result" := r])
    case All(next, traces) =>
      Obj(map["type" := Str("All"), "next" := TraceToVal(next),
              "traces" := Arr(seq(|traces|, i requires 0 <= i < |traces| => TraceToVal(traces[i])))])
    case Next(action, next) => Obj(map["type" := Str("Next"), "action" := action, "next" := TraceToVal(next)])
    case GetState(next, state) => Obj(map["type" := Str("GetState"), "next" := TraceToVal(next), "state" := state])
  }

  /** The answer the parent of an 'All' is resumed with, given the branch outputs. */
  function JoinAnswer(policy: JoinPolicy, outs: seq<Trace>): (r: seq<Val>)
    ensures |r| == |outs|
    ensures policy.AnswerTraces? ==> forall i :: 0 <= i < |outs| ==> r[i] == TraceToVal(outs[i])
    ensures policy.AnswerResults? ==> forall i :: 0 <= i < |outs| ==> r[i] == TraceResult(outs[i])
  {
    match policy
    case AnswerTraces => seq(|outs|, i requires 0 <= i < |outs| => TraceToVal(outs[i]))
    case AnswerResults => seq(|outs|, i requires 0 <= i < |outs| => TraceResult(outs[i]))
  }

  /**
   * `simulationError(actual, expected)`: a finished trace whose result
   * names the node found and the request expected.
   */
  function SimulationError(actual: string, expected: string): (t: Trace)
    ensures t.Done? && TraceResult(t) == t.result
    ensures Get(t.result, "actual") == Str(actual) && Get(t.result, "expected") == Str(expected)
    ensures Get(t.result, "message") == Str("Simulation error")
  {
    Done(Obj(map["actual" := Str(actual), "expected" := Str(expected), "message" := Str("Simulation error")]))
  }

  /** The message of the TypeError thrown when a running branch has no sub-trace. */
  const MissingTrace := "TypeError: cannot read property 'type' of undefined"

  /** Whether trace node `t` has the type of request `q`. */
  predicate Fits(q: Request, t: Trace) {
    TypeOf(t) == KindOf(q)
  }

  /** The answer a fitting node gives: the recorded result or state, none for a 'Next'. */
  function NodeAnswer(t: Trace): Val {
    match t
    case Call(_, _, r) => r
    case GetState(_, state) => state
    case _ => Undefined
  }

  /**
   * `simulateWithAnswer(ship, trace)`. `Err` is the TypeError the source
   * throws when a branch that has not finished has no sub-trace.
   */
  function SimulateWithAnswer(policy: JoinPolicy, s: TShip<Val>, t: Trace): (r: Result<Trace>)
    ensures s.TDone? ==> r == Ok(Done(s.value))
    ensures s.TAsk? && !Fits(s.request, t) ==> r == Ok(SimulationError(TypeOf(t), KindOf(s.request)))
    ensures s.TAll? && !t.All? ==> r == Ok(SimulationError(TypeOf(t), "All"))
    ensures s.TAsk? && Fits(s.request, t) && r.Ok? ==>
      !r.value.Done? && r.value == StepNode(s.request, NodeAnswer(t), r.value.next)
    ensures s.TAll? && t.All? && r.Ok? ==> r.value.All? && |r.value.traces| == |s.ships|
    decreases t
  {
    match s
    case TDone(v) => Ok(Done(v))
    case TAsk(q, resume) =>
      if !Fits(q, t) then Ok(SimulationError(TypeOf(t), KindOf(q)))
      else
        var answer := NodeAnswer(t);
        var next := SimulateWithAnswer(policy, resume(answer), t.next);
        if next.Err? then next else Ok(StepNode(q, answer, next.value))
    case TAll(ships, join) =>
      if !t.All? then Ok(SimulationError(TypeOf(t), "All"))
      else
        var outs := SimulateBranches(policy, ships, t.traces, 0);
        if outs.Err? then Err(outs.message)
        else
          var next := SimulateWithAnswer(policy, join(JoinAnswer(policy, outs.value)), t.next);
          if next.Err? then next else Ok(All(next.value, outs.value))
  }

  /**
   * The `map` over the branches from index `i`: branch `j` replays against
   * `traces[j]`; a branch past the end of `traces` is replayed against
   * `undefined`, which is fine only for a finished branch.
   */
  function SimulateBranches(policy: JoinPolicy, ships: seq<TShip<Val>>, traces: seq<Trace>, i: nat)
    : (r: Result<seq<Trace>>)
    requires i <= |ships|
    ensures r.Ok? ==> |r.value| == |ships| - i
    decreases traces, |ships| - i
  {
    if i == |ships| then Ok([])
    else
      var first := if i < |traces| then SimulateWithAnswer(policy, ships[i], traces[i])
                   else if ships[i].TDone? then Ok(Done(ships[i].value))
                   else Err(MissingTrace);
      if first.Err? then Err(first.message)
      else
        var rest := SimulateBranches(policy, ships, traces, i + 1);
        if rest.Err? then rest else Ok([first.value] + rest.value)
  }

  /** `simulate(ship, trace)`, as written. */
  function Simulate(s: TShip<Val>, t: Trace): Result<Trace> {
    SimulateWithAnswer(AnswerTraces, s, t)
  }

  /** `simulate(ship, trace)`, resuming the parent of an 'All' with the branch results. */
  function SimulateCorrected(s: TShip<Val>, t: Trace): Result<Trace> {
    SimulateWithAnswer(AnswerResults, s, t)
  }

  /**
   * The node a fitting request writes carries the ship's own request data
   * (its args or its action) and the trace's answer, and the ship is
   * resumed with that answer.
   */
  lemma SimulateAnswersFromTrace(policy: JoinPolicy, q: Request, resume: Val -> TShip<Val>, t: Trace)
    requires Fits(q, t)
    ensures var next := SimulateWithAnswer(policy, resume(ResumeAnswer(q, NodeAnswer(t))), t.next);
      SimulateWithAnswer(policy, TAsk(q, resume), t)
        == if next.Err? then next else Ok(StepNode(q, NodeAnswer(t), next.value))
  {
  }

  /** Branch `j` of a successful replay of the branches is the replay of `ships[j]`. */
  lemma {:induction false} SimulateBranchesAt(policy: JoinPolicy, ships: seq<TShip<Val>>, traces: seq<Trace>,
                                              i: nat, j: nat)
    requires i <= j < |ships| && j < |traces|
    requires SimulateBranches(policy, ships, traces, i).Ok?
    ensures SimulateWithAnswer(policy, ships[j], traces[j]).Ok?
    ensures SimulateBranches(policy, ships, traces, i).value[j - i] == SimulateWithAnswer(policy, ships[j], traces[j]).value
    decreases j - i
  {
    if i < j {
      SimulateBranchesAt(policy, ships, traces, i + 1, j);
    }
  }

  /** The branches replay to the given outputs when each branch replays to its own. */
  lemma {:induction false} SimulateBranchesOk(policy: JoinPolicy, ships: seq<TShip<Val>>, traces: seq<Trace>, i: nat)
    requires i <= |ships| == |traces|
    requires forall j :: i <= j < |ships| ==> SimulateWithAnswer(policy, ships[j], traces[j]) == Ok(traces[j])
    ensures SimulateBranches(policy, ships, traces, i) == Ok(traces[i..])
    decreases |ships| - i
  {
    if i < |ships| {
      SimulateBranchesOk(policy, ships, traces, i + 1);
      assert traces[i..] == [traces[i]] + traces[i + 1..];
    }
  }

  /**
   * Branch `j` makes the `map` throw: its replay against its sub-trace
   * throws, or it has no sub-trace and has not finished.
   */
  ghost predicate BranchThrows(policy: JoinPolicy, ships: seq<TShip<Val>>, traces: seq<Trace>, j: nat)
    requires j < |ships|
  {
    if j < |traces| then SimulateWithAnswer(policy, ships[j], traces[j]).Err? else !ships[j].TDone?
  }

  /** The replay of the branches from `i` throws exactly when one of those branches does. */
  lemma {:induction false} SimulateBranchesErrIff(policy: JoinPolicy, ships: seq<TShip<Val>>, traces: seq<Trace>,
                                                  i: nat)
    requires i <= |ships|
    ensures SimulateBranches(policy, ships, traces, i).Err?
      <==> exists j :: i <= j < |ships| && BranchThrows(policy, ships, traces, j)
    decreases |ships| - i
  {
    if i < |ships| {
      SimulateBranchesErrIff(policy, ships, traces, i + 1);
      if BranchThrows(policy, ships, traces, i) {
        assert SimulateBranches(policy, ships, traces, i).Err?;
      } else {
        assert SimulateBranches(policy, ships, traces, i).Err?
          <==> SimulateBranches(policy, ships, traces, i + 1).Err?;
        forall j | i <= j < |ships| && BranchThrows(policy, ships, traces, j)
          ensures i + 1 <= j
        {
        }
      }
    }
  }

  /** What the round trip states about one ship and one of its traces. */
  ghost predicate Replays(s: TShip<Val>, rec: TraceRec) {
    SimulateCorrected(s, rec.trace) == Ok(rec.trace) && TraceResult(rec.trace) == rec.result
  }

  /**
   * The round trip, with the parent of an 'All' resumed with the branch
   * results: replaying any trace the tracing ship can return gives that
   * trace back.
   */
  lemma {:induction false} TraceRoundTrip(s: TShip<Val>, n: nat, rec: TraceRec)
    requires TBounded(s, n) && TReaches(TraceWithAnswer(s, n), rec, n)
    ensures Replays(s, rec)
    decreases n, 2
  {
    match s
    case TDone(v) =>
    case TAsk(q, resume) => TraceRoundTripAsk(q, resume, n, rec);
    case TAll(ships, join) => TraceRoundTripAll(ships, join, n, rec);
  }

  lemma {:induction false} TraceRoundTripAsk(q: Request, resume: Val -> TShip<Val>, n: nat, rec: TraceRec)
    requires TBounded(TAsk(q, resume), n) && TReaches(TraceWithAnswer(TAsk(q, resume), n), rec, n)
    ensures Replays(TAsk(q, resume), rec)
    decreases n, 1
  {
    var a := TraceAskAnswer(q, resume, n, rec);
    var x := TraceAskRecording(q, resume, a, n - 1, rec);
    TraceRoundTrip(resume(ResumeAnswer(q, a)), n - 1, x);
    TraceRoundTripStep(q, resume, a, x);
  }

  /** The answer a trace of a request-yielding ship was built with. */
  lemma TraceAskAnswer(q: Request, resume: Val -> TShip<Val>, n: nat, rec: TraceRec) returns (a: Val)
    requires TBounded(TAsk(q, resume), n) && TReaches(TraceWithAnswer(TAsk(q, resume), n), rec, n)
    ensures n > 0 && TReaches(TraceAskThen(q, resume, a, n - 1), rec, n - 1)
  {
    assert TraceWithAnswer(TAsk(q, resume), n) == TAsk(q, b => TraceAskThen(q, resume, b, n - 1));
    a :| TReaches(TraceAskThen(q, resume, a, n - 1), rec, n - 1);
  }

  /** The rest of the trace behind the node of one request. */
  lemma TraceAskRecording(q: Request, resume: Val -> TShip<Val>, a: Val, n: nat, rec: TraceRec) returns (x: TraceRec)
    requires forall b :: TBounded(resume(b), n)
    requires TReaches(TraceAskThen(q, resume, a, n), rec, n)
    ensures TReaches(TraceWithAnswer(resume(ResumeAnswer(q, a)), n), x, n)
    ensures rec == TraceRec(x.result, StepNode(q, a, x.trace))
  {
    TraceAskStep(q, resume, a, n, rec);
    x :| TReaches(TraceWithAnswer(resume(ResumeAnswer(q, a)), n), x, n)
      && rec == TraceRec(x.result, StepNode(q, a, x.trace));
  }

  /** The step of the round trip past one request. */
  lemma TraceRoundTripStep(q: Request, resume: Val -> TShip<Val>, a: Val, x: TraceRec)
    requires Replays(resume(ResumeAnswer(q, a)), x)
    ensures Replays(TAsk(q, resume), TraceRec(x.result, StepNode(q, a, x.trace)))
  {
    var t := StepNode(q, a, x.trace);
    assert ResumeAnswer(q, NodeAnswer(t)) == ResumeAnswer(q, a);
    SimulateAnswersFromTrace(AnswerResults, q, resume, t);
  }

  lemma {:induction false} TraceRoundTripAll(ships: seq<TShip<Val>>, join: seq<Val> -> TShip<Val>, n: nat,
                                             rec: TraceRec)
    requires TBounded(TAll(ships, join), n) && TReaches(TraceWithAnswer(TAll(ships, join), n), rec, n)
    ensures Replays(TAll(ships, join), rec)
    decreases n, 1
  {
    var recs, x := TraceAllParts(ships, join, n, rec);
    TraceRoundTripPieces(ships, join, n, recs, x);
    TraceRoundTripJoin(ships, join, recs, x, rec);
  }

  /** The round trips of the branches and of the parent behind one 'All'. */
  lemma {:induction false} TraceRoundTripPieces(ships: seq<TShip<Val>>, join: seq<Val> -> TShip<Val>, n: nat,
                                                recs: seq<TraceRec>, x: TraceRec)
    requires n > 0 && |recs| == |ships|
    requires forall i :: 0 <= i < |ships| ==> TBounded(ships[i], n - 1)
    requires forall i :: 0 <= i < |ships| ==> TReaches(TraceBranches(ships, n - 1)[i], recs[i], n - 1)
    requires TBounded(join(Results(recs)), n - 1)
    requires TReaches(TraceWithAnswer(join(Results(recs)), n - 1), x, n - 1)
    ensures forall i :: 0 <= i < |ships| ==> Replays(ships[i], recs[i])
    ensures Replays(join(Results(recs)), x)
    decreases n, 0
  {
    assert Replays(join(Results(recs)), x) by {
      TraceRoundTrip(join(Results(recs)), n - 1, x);
    }
    assert forall i :: 0 <= i < |ships| ==> Replays(ships[i], recs[i]) by {
      TraceRoundTripBranches(ships, n - 1, recs);
    }
  }

  /** A trace of an 'All' splits into one trace per branch and the parent's trace behind them. */
  lemma TraceAllParts(ships: seq<TShip<Val>>, join: seq<Val> -> TShip<Val>, n: nat, rec: TraceRec)
    returns (recs: seq<TraceRec>, x: TraceRec)
    requires TBounded(TAll(ships, join), n) && TReaches(TraceWithAnswer(TAll(ships, join), n), rec, n)
    ensures n > 0 && |recs| == |ships|
    ensures forall i :: 0 <= i < |ships| ==> TBounded(ships[i], n - 1)
    ensures forall i :: 0 <= i < |ships| ==> TReaches(TraceBranches(ships, n - 1)[i], recs[i], n - 1)
    ensures TBounded(join(Results(recs)), n - 1)
    ensures TReaches(TraceWithAnswer(join(Results(recs)), n - 1), x, n - 1)
    ensures rec == TraceRec(x.result, All(x.trace, Traces(recs)))
  {
    recs := TraceBranchRecordings(ships, join, n, rec);
    x := TraceJoinRecording(join, recs, n - 1, rec);
  }

  /** The branch traces a trace of an 'All' was built from. */
  lemma TraceBranchRecordings(ships: seq<TShip<Val>>, join: seq<Val> -> TShip<Val>, n: nat, rec: TraceRec)
    returns (recs: seq<TraceRec>)
    requires TBounded(TAll(ships, join), n) && TReaches(TraceWithAnswer(TAll(ships, join), n), rec, n)
    ensures |recs| == |ships|
    ensures forall i :: 0 <= i < |ships| ==> TReaches(TraceBranches(ships, n - 1)[i], recs[i], n - 1)
    ensures TReaches(TraceAllThen(join, recs, n - 1), rec, n - 1)
  {
    var traced := TraceBranches(ships, n - 1);
    assert TraceWithAnswer(TAll(ships, join), n) == TAll(traced, rs => TraceAllThen(join, rs, n - 1));
    recs :| |recs| == |traced|
      && (forall i :: 0 <= i < |traced| ==> TReaches(traced[i], recs[i], n - 1))
      && TReaches(TraceAllThen(join, recs, n - 1), rec, n - 1);
  }

  /** The parent's trace behind the All node of a trace of an 'All'. */
  lemma TraceJoinRecording(join: seq<Val> -> TShip<Val>, recs: seq<TraceRec>, n: nat, rec: TraceRec)
    returns (x: TraceRec)
    requires forall rs :: TBounded(join(rs), n)
    requires TReaches(TraceAllThen(join, recs, n), rec, n)
    ensures TReaches(TraceWithAnswer(join(Results(recs)), n), x, n)
    ensures rec == TraceRec(x.result, All(x.trace, Traces(recs)))
  {
    TraceAllStep(join, recs, n, rec);
    x :| TReaches(TraceWithAnswer(join(Results(recs)), n), x, n)
      && rec == TraceRec(x.result, All(x.trace, Traces(recs)));
  }

  lemma {:induction false} TraceRoundTripBranches(ships: seq<TShip<Val>>, n: nat, recs: seq<TraceRec>)
    requires |recs| == |ships|
    requires forall i :: 0 <= i < |ships| ==> TBounded(ships[i], n)
    requires forall i :: 0 <= i < |ships| ==> TReaches(TraceBranches(ships, n)[i], recs[i], n)
    ensures forall i :: 0 <= i < |ships| ==> Replays(ships[i], recs[i])
    decreases n, 3
  {
    forall i | 0 <= i < |ships| ensures Replays(ships[i], recs[i]) {
      TraceRoundTrip(ships[i], n, recs[i]);
    }
  }

  /** The step of the round trip past one 'All'. */
  lemma TraceRoundTripJoin(ships: seq<TShip<Val>>, join: seq<Val> -> TShip<Val>, recs: seq<TraceRec>, x: TraceRec,
                           rec: TraceRec)
    requires |recs| == |ships|
    requires forall i :: 0 <= i < |ships| ==> Replays(ships[i], recs[i])
    requires Replays(join(Results(recs)), x)
    requires rec == TraceRec(x.result, All(x.trace, Traces(recs)))
    ensures Replays(TAll(ships, join), rec)
  {
    var traces := Traces(recs);
    SimulateBranchesOk(AnswerResults, ships, traces, 0);
    assert traces[0..] == traces;
    assert JoinAnswer(AnswerResults, traces) == Results(recs);
  }

  /**
   * Without any 'All' in the trace, the replay as written and the corrected
   * one agree, so the round trip holds as written.
   */
  predicate AllFree(t: Trace)
    decreases t
  {
    match t
    case Done(_) => true
    case All(_, _) => false
    case Call(_, next, _) => AllFree(next)
    case Next(_, next) => AllFree(next)
    case GetState(next, _) => AllFree(next)
  }

  lemma {:induction false} AsWrittenAgreesWithoutAll(s: TShip<Val>, t: Trace)
    requires AllFree(t)
    ensures Simulate(s, t) == SimulateCorrected(s, t)
    decreases t
  {
    match s
    case TDone(_) =>
    case TAsk(q, resume) =>
      if Fits(q, t) {
        AsWrittenAgreesWithoutAll(resume(NodeAnswer(t)), t.next);
      }
    case TAll(_, _) =>
  }

  /** The round trip as written, for traces without an 'All'. */
  lemma TraceRoundTripWithoutAll(s: TShip<Val>, n: nat, rec: TraceRec)
    requires TBounded(s, n) && TReaches(TraceWithAnswer(s, n), rec, n) && AllFree(rec.trace)
    ensures Simulate(s, rec.trace) == Ok(rec.trace)
  {
    TraceRoundTrip(s, n, rec);
    AsWrittenAgreesWithoutAll(s, rec.trace);
  }

  /** `allAny` in this vocabulary: one 'All' whose parent returns the array of the branch results. */
  function AllOf(ships: seq<TShip<Val>>): (s: TShip<Val>)
    ensures s.TAll? && s.ships == ships && forall rs :: s.join(rs) == TDone(Arr(rs))
  {
    TAll(ships, rs => TDone(Arr(rs)))
  }

  /** The ship of the counterexample below: one 'All' over a single finished branch. */
  const OneBranch: TShip<Val> := AllOf([TDone(Num(1))])

  /** Its trace: the branch returns 1, the parent returns `[1]`. */
  const OneBranchTrace: Trace := All(Done(Arr([Num(1)])), [Done(Num(1))])

  /**
   * As written, the round trip fails on an 'All': the tracing ship returns
   * the branch results `[1]`, the replay returns the array of the branch
   * trace objects.
   */
  lemma AllAnswersTracesAsWritten()
    ensures TReaches(TraceWithAnswer(OneBranch, 1), TraceRec(Arr([Num(1)]), OneBranchTrace), 1)
    ensures Simulate(OneBranch, OneBranchTrace) == Ok(All(Done(Arr([TraceToVal(Done(Num(1)))])), [Done(Num(1))]))
    ensures Simulate(OneBranch, OneBranchTrace) != Ok(OneBranchTrace)
    ensures SimulateCorrected(OneBranch, OneBranchTrace) == Ok(OneBranchTrace)
  {
    OneBranchTraced(OneBranch);
    OneBranchAsWritten(OneBranch, OneBranchTrace);
    OneBranchCorrected(OneBranch, OneBranchTrace);
    assert TraceToVal(Done(Num(1))) != Num(1);
  }

  lemma OneBranchAsWritten(s: TShip<Val>, t: Trace)
    requires s == OneBranch && t == OneBranchTrace
    ensures Simulate(s, t) == Ok(All(Done(Arr([TraceToVal(Done(Num(1)))])), [Done(Num(1))]))
  {
    OneBranchJoined(AnswerTraces, s, t);
    assert JoinAnswer(AnswerTraces, [Done(Num(1))]) == [TraceToVal(Done(Num(1)))];
  }

  lemma OneBranchCorrected(s: TShip<Val>, t: Trace)
    requires s == OneBranch && t == OneBranchTrace
    ensures SimulateCorrected(s, t) == Ok(t)
  {
    OneBranchJoined(AnswerResults, s, t);
    assert JoinAnswer(AnswerResults, [Done(Num(1))]) == [Num(1)];
  }

  lemma OneBranchJoined(policy: JoinPolicy, s: TShip<Val>, t: Trace)
    requires s == AllOf([TDone(Num(1))]) && t == All(Done(Arr([Num(1)])), [Done(Num(1))])
    ensures SimulateWithAnswer(policy, s, t) == Ok(All(Done(Arr(JoinAnswer(policy, [Done(Num(1))]))), [Done(Num(1))]))
  {
    OneBranchReplays(policy, s.ships, t.traces);
  }

  lemma OneBranchTraced(s: TShip<Val>)
    requires s == AllOf([TDone(Num(1))])
    ensures TReaches(TraceWithAnswer(s, 1), TraceRec(Arr([Num(1)]), All(Done(Arr([Num(1)])), [Done(Num(1))])), 1)
  {
    var t := All(Done(Arr([Num(1)])), [Done(Num(1))]);
    var recs := [TraceRec(Num(1), Done(Num(1)))];
    var traced := TraceBranches(s.ships, 0);
    assert TReaches(traced[0], recs[0], 0);
    assert Results(recs) == [Num(1)] && Traces(recs) == [Done(Num(1))];
    assert TReaches(TraceAllThen(s.join, recs, 0), TraceRec(Arr([Num(1)]), t), 0);
  }

  lemma OneBranchReplays(policy: JoinPolicy, ships: seq<TShip<Val>>, traces: seq<Trace>)
    requires ships == [TDone(Num(1))] && traces == [Done(Num(1))]
    ensures SimulateBranches(policy, ships, traces, 0) == Ok([Done(Num(1))])
  {
    assert SimulateBranches(policy, ships, traces, 1) == Ok([]);
    assert SimulateWithAnswer(policy, ships[0], traces[0]) == Ok(Done(Num(1)));
    assert [Done(Num(1))] + [] == [Done(Num(1))];
  }

  /** A branch still running with no sub-trace makes the replay throw. */
  lemma MissingSubTraceThrows(q: Request, resume: Val -> TShip<Val>, join: seq<Val> -> TShip<Val>, next: Trace)
    ensures SimulateWithAnswer(AnswerTraces, TAll([TAsk(q, resume)], join), All(next, [])) == Err(MissingTrace)
  {
    assert SimulateBranches(AnswerTraces, [TAsk(q, resume)], [], 0) == Err(MissingTrace);
  }
}
