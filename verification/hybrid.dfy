/** src/hybrid_processing.py: run either the quantum circuit or the classical
    model, whichever the readiness heuristic selects for the description. */
module Hybrid {
  import opened Wrappers
  import opened Traces
  import opened Assessment

  /** The collaborators `hybrid_processing` calls, with their arguments. */
  datatype Call<C, P, M, D> =
    | AssessReadiness(description: string)
    | RunQuantumCircuit(circuit: C, parameters: P)
    | RunClassicalModel(model: M, data: D)

  /** The value or exception the call ends with, and the calls it made. */
  datatype Outcome<V, E, C, P, M, D> = Outcome(result: Result<V, E>, calls: seq<Call<C, P, M, D>>)

  predicate IsAssessment<C, P, M, D>(c: Call<C, P, M, D>) { c.AssessReadiness? }
  predicate IsQuantumRun<C, P, M, D>(c: Call<C, P, M, D>) { c.RunQuantumCircuit? }
  predicate IsClassicalRun<C, P, M, D>(c: Call<C, P, M, D>) { c.RunClassicalModel? }

  /** `hybrid_processing`. The two runners stand for `run_quantum_circuit`
      and `run_classical_model`; a `Failure` they return is an exception
      they raise, which the source logs and re-raises unchanged. */
  function HybridProcessing<V, E, C, P, M, D>(
    description: string, data: D, circuit: C, parameters: P, model: M,
    runQuantumCircuit: (C, P) -> Result<V, E>,
    runClassicalModel: (M, D) -> Result<V, E>): (o: Outcome<V, E, C, P, M, D>)
    ensures Count(o.calls, IsAssessment) == 1 && o.calls[0] == AssessReadiness(description)
    ensures Count(o.calls, IsQuantumRun) + Count(o.calls, IsClassicalRun) == 1
    ensures AssessQuantumReadiness(description) ==>
      o.calls[|o.calls| - 1] == RunQuantumCircuit(circuit, parameters)
      && o.result == runQuantumCircuit(circuit, parameters)
    ensures !AssessQuantumReadiness(description) ==>
      o.calls[|o.calls| - 1] == RunClassicalModel(model, data)
      && o.result == runClassicalModel(model, data)
  {
    var assess: Call<C, P, M, D> := AssessReadiness(description);
    if AssessQuantumReadiness(description) then
      var run := RunQuantumCircuit(circuit, parameters);
      PairCounts(assess, run);
      Outcome(runQuantumCircuit(circuit, parameters), [assess, run])
    else
      var run := RunClassicalModel(model, data);
      PairCounts(assess, run);
      Outcome(runClassicalModel(model, data), [assess, run])
  }

  /** Counting the calls of a two-call trace. */
  lemma PairCounts<C, P, M, D>(first: Call<C, P, M, D>, second: Call<C, P, M, D>)
    ensures Count([first, second], IsAssessment) == Count([first], IsAssessment) + Count([second], IsAssessment)
    ensures Count([first, second], IsQuantumRun) == Count([first], IsQuantumRun) + Count([second], IsQuantumRun)
    ensures Count([first, second], IsClassicalRun) == Count([first], IsClassicalRun) + Count([second], IsClassicalRun)
  {
    CountConcat([first], [second], IsAssessment);
    CountConcat([first], [second], IsQuantumRun);
    CountConcat([first], [second], IsClassicalRun);
    assert [first] + [second] == [first, second];
  }

  /** The exception of the runner the readiness test picks reaches the
      caller unchanged; it is never turned into a value, and the runner not
      picked plays no part. */
  lemma FailuresPropagate<V, E, C, P, M, D>(
    description: string, data: D, circuit: C, parameters: P, model: M,
    runQuantumCircuit: (C, P) -> Result<V, E>,
    runClassicalModel: (M, D) -> Result<V, E>, e: E)
    requires AssessQuantumReadiness(description) ==> runQuantumCircuit(circuit, parameters) == Failure(e)
    requires !AssessQuantumReadiness(description) ==> runClassicalModel(model, data) == Failure(e)
    ensures HybridProcessing(description, data, circuit, parameters, model,
      runQuantumCircuit, runClassicalModel).result == Failure(e)
  {
  }
}
