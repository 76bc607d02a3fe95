/** scripts/dynamic_switching.py: extract the task's features, decide the
    computation method, and invoke the classical runner, the quantum runner or
    both. The runners are placeholders, so the model records what is invoked,
    in which order, as a trace. */
module Switching {
  import opened Wrappers
  import opened Traces
  import opened Features
  import opened Decision

  /** `run_classical_computation` (CPU/GPU) and `run_quantum_computation` (QPU). */
  datatype Runner = Classical | Quantum

  /** Run: the runner is called in-line. Start: a process whose target is the
      runner is started with the task. Join: the caller waits for that process. */
  datatype Event =
    | Run(runner: Runner, task: Task)
    | Start(runner: Runner, task: Task)
    | Join(runner: Runner)

  /** The event invokes runner `r`, in-line or in a process of its own. */
  predicate Invokes(e: Event, r: Runner) {
    (e.Run? || e.Start?) && e.runner == r
  }

  /** How many times the trace invokes runner `r`. */
  function Invocations(trace: seq<Event>, r: Runner): nat {
    Count(trace, e => Invokes(e, r))
  }

  /** Every process is started before any process is joined. */
  predicate StartsPrecedeJoins(trace: seq<Event>) {
    forall i, j :: 0 <= i < |trace| && 0 <= j < |trace| && trace[i].Start? && trace[j].Join? ==> i < j
  }

  /** Every started process is joined later in the trace. */
  predicate EveryStartJoined(trace: seq<Event>) {
    forall i :: 0 <= i < |trace| && trace[i].Start? ==>
      exists j :: i < j < |trace| && trace[j] == Join(trace[i].runner)
  }

  /** `hybrid_processing` of the script: start a classical and a quantum
      process on the task, then join both; neither runner is called in-line. */
  function RunHybridProcesses(task: Task): (trace: seq<Event>)
    ensures Invocations(trace, Classical) == 1 && Invocations(trace, Quantum) == 1
    ensures StartsPrecedeJoins(trace)
    ensures EveryStartJoined(trace)
    ensures |trace| > 0 && trace[|trace| - 1].Join?
    ensures forall i :: 0 <= i < |trace| && !trace[i].Join? ==> trace[i].task == task
    ensures forall i :: 0 <= i < |trace| ==> !trace[i].Run?
  {
    var trace := [Start(Classical, task), Start(Quantum, task), Join(Classical), Join(Quantum)];
    SpawnJoinCounts(task, trace);
    SpawnJoinOrder(task, trace);
    trace
  }

  /** Each runner is started once in the spawn-then-join trace. */
  lemma SpawnJoinCounts(task: Task, trace: seq<Event>)
    requires trace == [Start(Classical, task), Start(Quantum, task), Join(Classical), Join(Quantum)]
    ensures Invocations(trace, Classical) == 1 && Invocations(trace, Quantum) == 1
  {
    var starts := [Start(Classical, task), Start(Quantum, task)];
    var joins := [Join(Classical), Join(Quantum)];
    assert trace == starts + joins;
    assert starts[1..][1..] == [] && joins[1..][1..] == [];
    CountConcat(starts, joins, e => Invokes(e, Classical));
    CountConcat(starts, joins, e => Invokes(e, Quantum));
  }

  /** In the spawn-then-join trace both starts come first and each is joined. */
  lemma SpawnJoinOrder(task: Task, trace: seq<Event>)
    requires trace == [Start(Classical, task), Start(Quantum, task), Join(Classical), Join(Quantum)]
    ensures StartsPrecedeJoins(trace) && EveryStartJoined(trace)
  {
    assert trace[2] == Join(Classical) && trace[3] == Join(Quantum);
  }

  /** The branch on the selected method: CPU and GPU call the classical
      runner in-line, QPU the quantum one, and anything else goes hybrid,
      through started processes only. */
  function Dispatch(m: Method, task: Task): (trace: seq<Event>)
    ensures m == CPU || m == GPU ==>
      Invocations(trace, Classical) == 1 && Invocations(trace, Quantum) == 0
    ensures m == QPU ==>
      Invocations(trace, Quantum) == 1 && Invocations(trace, Classical) == 0
    ensures m == Hybrid ==>
      Invocations(trace, Classical) == 1 && Invocations(trace, Quantum) == 1
    ensures Invocations(trace, Classical) + Invocations(trace, Quantum) >= 1
    ensures StartsPrecedeJoins(trace) && EveryStartJoined(trace)
    ensures forall i :: 0 <= i < |trace| && !trace[i].Join? ==> trace[i].task == task
    ensures m != Hybrid ==> forall i :: 0 <= i < |trace| ==> trace[i].Run?
    ensures m == Hybrid ==> forall i :: 0 <= i < |trace| ==> !trace[i].Run?
  {
    if m == CPU then [Run(Classical, task)]
    else if m == GPU then [Run(Classical, task)]
    else if m == QPU then [Run(Quantum, task)]
    else assert m.Hybrid?; RunHybridProcesses(task)
  }

  /** What one call of `dynamic_switching` did: the runner trace, and the
      exception that ended it, if any. */
  datatype Outcome = Outcome(trace: seq<Event>, error: Option<Error>)

  /** `dynamic_switching`: the method is the decision rule applied to the
      classifier's prediction for the task's features; the classifier and
      the probe readings are parameters. */
  function DynamicSwitching(task: Task, classify: seq<int> -> string, s: Snapshot): (o: Outcome)
    ensures o.error.Some? <==> ExtractFeatures(task).Failure?
    ensures o.error.Some? ==> o.trace == [] && o.error.value == ExtractFeatures(task).error
    ensures o.error.None? ==>
      o.trace == Dispatch(DecideComputationMethod(classify(ExtractFeatures(task).value), s), task)
    ensures o.error.None? ==>
      Invocations(o.trace, Classical) + Invocations(o.trace, Quantum) >= 1
    ensures StartsPrecedeJoins(o.trace) && EveryStartJoined(o.trace)
  {
    match ExtractFeatures(task)
    case Failure(e) => Outcome([], Some(e))
    case Success(features) =>
      Outcome(Dispatch(DecideComputationMethod(classify(features), s), task), None)
  }

  /** A CPU prediction on a busy CPU never reaches the GPU or QPU path on its
      own: it falls back to running both runners. */
  lemma BusyCpuRunsBoth(task: Task, classify: seq<int> -> string, s: Snapshot)
    requires ExtractFeatures(task).Success?
    requires classify(ExtractFeatures(task).value) == "CPU"
    requires !CpuAvailable(s)
    ensures DynamicSwitching(task, classify, s).trace == RunHybridProcesses(task)
  {
  }

  /** The quantum runner is invoked on its own exactly when the classifier
      predicts QPU and a quantum backend is present. */
  lemma QuantumAloneIffQpuAvailable(task: Task, classify: seq<int> -> string, s: Snapshot)
    requires ExtractFeatures(task).Success?
    ensures
      var trace := DynamicSwitching(task, classify, s).trace;
      (Invocations(trace, Quantum) == 1 && Invocations(trace, Classical) == 0)
      <==> (classify(ExtractFeatures(task).value) == "QPU" && QpuAvailable(s))
  {
  }

  /** The classical runner is invoked on its own exactly when the classifier
      predicts CPU on an available CPU or GPU on available GPUs. */
  lemma ClassicalAloneIffCpuOrGpuAvailable(task: Task, classify: seq<int> -> string, s: Snapshot)
    requires ExtractFeatures(task).Success?
    ensures
      var trace := DynamicSwitching(task, classify, s).trace;
      var prediction := classify(ExtractFeatures(task).value);
      (Invocations(trace, Classical) == 1 && Invocations(trace, Quantum) == 0)
      <==> ((prediction == "CPU" && CpuAvailable(s)) || (prediction == "GPU" && GpuAvailable(s)))
  {
  }

  /** Both runners are invoked exactly when none of the three devices the
      rule could pick on its own is available for the prediction. */
  lemma BothRunnersIffNothingAvailable(task: Task, classify: seq<int> -> string, s: Snapshot)
    requires ExtractFeatures(task).Success?
    ensures
      var trace := DynamicSwitching(task, classify, s).trace;
      var prediction := classify(ExtractFeatures(task).value);
      (Invocations(trace, Classical) == 1 && Invocations(trace, Quantum) == 1)
      <==> !((prediction == "CPU" && CpuAvailable(s))
             || (prediction == "GPU" && GpuAvailable(s))
             || (prediction == "QPU" && QpuAvailable(s)))
  {
  }
}
