/** src/resource_allocation.py: label a task "Quantum" or "Classical" by the
    readiness heuristic. */
module Allocation {
  import opened Wrappers
  import opened Assessment
  import Hybrid

  /** `allocate_resources`. */
  function AllocateResources(description: string): (r: string)
    ensures r == "Quantum" || r == "Classical"
    ensures r == "Quantum" <==> AssessQuantumReadiness(description)
  {
    if AssessQuantumReadiness(description) then "Quantum" else "Classical"
  }

  /** Allocation and hybrid processing agree: a description is allocated
      quantum resources exactly when hybrid processing runs its circuit. */
  lemma AllocationAgreesWithHybrid<V, E, C, P, M, D>(
    description: string, data: D, circuit: C, parameters: P, model: M,
    runQuantumCircuit: (C, P) -> Result<V, E>,
    runClassicalModel: (M, D) -> Result<V, E>)
    ensures
      var o := Hybrid.HybridProcessing(description, data, circuit, parameters, model,
        runQuantumCircuit, runClassicalModel);
      AllocateResources(description) == "Quantum"
      <==> o.calls[|o.calls| - 1] == Hybrid.RunQuantumCircuit(circuit, parameters)
  {
  }
}
