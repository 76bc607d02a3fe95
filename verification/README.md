# Task router core: a Dafny model

This project models the decision rules and string heuristics of a prototype
task router. The router sends a computational task to CPU, GPU or quantum
hardware. The modelled parts are:

- **Feature extraction** (`Features`). A static table maps a task type to a
  five-element feature vector. Both dict lookups can raise `KeyError`.
- **Device selection** (`Decision`). A first-match-wins threshold rule
  combines the classifier's predicted label with a snapshot of the probe
  readings. It yields CPU, GPU, QPU or Hybrid. The threshold is 80%, and a load
  of exactly 80 counts as busy.
- **Dynamic switching** (`Switching`). The selected method invokes the
  classical runner, the quantum runner, or both. In Hybrid mode both run as
  processes that are started and then joined. The runners are placeholders,
  so the model returns the trace of runner invocations.
- **Quantum readiness** (`Assessment`). A description is ready when its
  lowercased text contains "optimization", "simulation" or "factorization".
  Two consumers use it: **allocation** (`Allocation`, "Quantum"/"Classical")
  and **hybrid processing** (`Hybrid`), which runs exactly one of a quantum
  circuit runner or a classical model runner.
- **Quantum utilities** (`QuantumUtils`). A case-sensitive "quantum" test,
  the rewrite of every "classical" into "quantum", result bundling, and the
  mock hardware and initialisation helpers.
- **Circuit construction** (`Circuits`). Circuits are sequences of gate
  operations on grid qubits: H, Ry(symbol) and Measure(key). The simulator is a
  function parameter that may fail.

`Strings` supplies ASCII lowercasing, Python's substring test `needle in
haystack` and `str.replace`. `Traces` counts events in a call trace.
`Wrappers` holds `Option`, `Result` and the `KeyError` exception.

The model follows the code where the tests disagree with it. The test at
tests/test_quantum_assessment.py:10-24 expects "Optimize the portfolio using
quantum methods", "Simulate the molecular structure" and "Factorize large
integers" to be quantum-ready. But src/quantum_assessment.py:31 tests whether a
whole keyword is a substring, and a stem such as "optimize" does not contain
"optimization". So the code answers False for all three, and the lemmas
`Assessment.OptimizeStemNotReady`, `Assessment.SimulateStemNotReady` and
`Assessment.FactorizeStemNotReady` prove that answer.

The repository has two functions named `hybrid_processing`. The one in
scripts/dynamic_switching.py:13 is `Switching.RunHybridProcesses`. The one in
src/hybrid_processing.py:58 is `Hybrid.HybridProcessing`.

## Model

| member | source | states |
|---|---|---|
| `Features.ExtractFeatures` | scripts/feature_extraction.py:1-8 | Succeeds exactly for the three known task types, always with a 5-element vector. A task without a "Task Type" field fails with `KeyError("Task Type")`. An unknown type fails with `KeyError` of that type. |
| `Features.FeatureVectors` | scripts/feature_extraction.py:3-5 | matrix_multiplication gives [1000,50000,3,1,1], image_processing gives [5000,100000,2,2,1], optimization gives [50,1000000,1,3,5]. |
| `Features.OnlyTaskTypeRead` | scripts/feature_extraction.py:8 | Two tasks that agree on "Task Type" get the same result, whatever their other fields hold. |
| `Decision.Label` | scripts/decision_logic.py:17-24 | The rule only ever returns "CPU", "GPU", "QPU" or "Hybrid". |
| `Decision.LabelInjective` | scripts/decision_logic.py:17-24 | Distinct methods return distinct strings. |
| `Decision.AllBelow` | scripts/decision_logic.py:19 | The in-order scan `all(load < limit ...)` holds iff every reading's load is below the limit; the empty list passes. |
| `Decision.DecideComputationMethod` | scripts/decision_logic.py:17-24 | A non-Hybrid result equals the prediction. For CPU: CPU iff cpu < 80. For GPU: GPU iff a non-empty GPU list is present with every load < 80. For QPU: QPU iff some backend probe is truthy. Any other label gives Hybrid. |
| `Decision.LowerCpuLoadKeepsCpu` | scripts/decision_logic.py:17-18 | A lower CPU load never turns a CPU decision into Hybrid. |
| `Decision.LowerGpuLoadsKeepGpu` | scripts/decision_logic.py:19-20 | Lowering every GPU load keeps a GPU decision. |
| `Decision.CpuPredictionReadsOnlyCpu` | scripts/decision_logic.py:17-18 | With a CPU prediction the result depends on the CPU reading alone. |
| `Decision.GpuPredictionReadsOnlyGpus` | scripts/decision_logic.py:19-20 | With a GPU prediction the result depends on the GPU list alone. |
| `Decision.QpuPredictionReadsOnlyBackends` | scripts/decision_logic.py:21-23 | With a QPU prediction the result depends on backend presence alone. |
| `Decision.DecisionExamples` | scripts/decision_logic.py:17-24 | CPU at 50 gives CPU, at 80 or 90 gives Hybrid. GPU loads (30, 40) give GPU; (90), a missing list or an empty list give Hybrid. QPU gives Hybrid without backends and QPU with one. An unknown label gives Hybrid. |
| `Switching.RunHybridProcesses` | scripts/dynamic_switching.py:13-22 | Each runner is invoked exactly once, on the task, through a started process and never in-line. Both processes are started before either is joined, every started process is joined, and the trace ends with a join. |
| `Switching.SpawnJoinCounts` | scripts/dynamic_switching.py:15-19 | The start/start/join/join trace starts each runner once. |
| `Switching.SpawnJoinOrder` | scripts/dynamic_switching.py:18-22 | In that trace both starts precede both joins, and each start is joined later. |
| `Switching.Dispatch` | scripts/dynamic_switching.py:28-35 | CPU or GPU: classical once, quantum never. QPU: quantum once, classical never. These three call their runner in-line, with no process started or joined. Hybrid: each runner once, only through started processes. Always at least one invocation, and every runner receives the task. |
| `Switching.DynamicSwitching` | scripts/dynamic_switching.py:24-35 | A feature-lookup failure surfaces as that same error, with an empty trace, so no runner runs. Otherwise the trace is exactly the dispatch of the method the decision rule selects for the classifier's prediction on the extracted features. At least one runner is invoked, and every start is joined. |
| `Switching.BusyCpuRunsBoth` | scripts/dynamic_switching.py:25-35 | A CPU prediction on a CPU at 80% or more runs the hybrid start/join trace. |
| `Switching.QuantumAloneIffQpuAvailable` | scripts/dynamic_switching.py:26-33 | The quantum runner runs alone iff the prediction is QPU and a backend is present. |
| `Switching.ClassicalAloneIffCpuOrGpuAvailable` | scripts/dynamic_switching.py:26-31 | The classical runner runs alone iff the prediction is CPU with the CPU below 80%, or GPU with a non-empty GPU list all below 80%. |
| `Switching.BothRunnersIffNothingAvailable` | scripts/dynamic_switching.py:26-35 | Both runners run iff none of the three "predicted device is available" cases holds. |
| `Assessment.AnyKeywordIn` | src/quantum_assessment.py:29-35 | The keyword loop with early return is true iff some keyword of the list occurs in the text. |
| `Assessment.AssessQuantumReadiness` | src/quantum_assessment.py:26-35 | Ready iff "optimization", "simulation" or "factorization" occurs in the lowered description. |
| `Assessment.KeywordOrderIrrelevant` | src/quantum_assessment.py:29-33 | Reordering the keyword list never changes the answer. |
| `Assessment.ReadinessIgnoresCase` | src/quantum_assessment.py:31 | Lowercasing the description first never changes the answer. |
| `Assessment.EmptyNotReady` | src/quantum_assessment.py:29-35 | The empty description is not ready. |
| `Assessment.ReadinessExtended` | src/quantum_assessment.py:31 | If s is ready, then p + s + q is ready for any p and q. |
| `Assessment.ShortTextNotReady` | src/quantum_assessment.py:29 | A description shorter than the shortest keyword (10 characters) is not ready. |
| `Assessment.NotReadyAcrossSpace` | src/quantum_assessment.py:29-31 | No keyword holds a space, so joining two not-ready texts with a space stays not ready. |
| `Assessment.OptimizeStemNotReady` | src/quantum_assessment.py:42-43 | "Optimize the portfolio using quantum methods" is not ready. This contradicts tests/test_quantum_assessment.py:10-12. |
| `Assessment.SimulateStemNotReady` | src/quantum_assessment.py:31 | "Simulate the molecular structure" is not ready. This contradicts tests/test_quantum_assessment.py:16-18. |
| `Assessment.FactorizeStemNotReady` | src/quantum_assessment.py:31 | "Factorize large integers" is not ready. This contradicts tests/test_quantum_assessment.py:22-24. |
| `Assessment.SortingNotReady` | tests/test_quantum_assessment.py:28-30 | "Sort a list of numbers" is not ready, as the test expects. |
| `Assessment.ExampleDescriptionReady` | src/quantum_assessment.py:31 | "Optimization task" is ready. |
| `Allocation.AllocateResources` | src/resource_allocation.py:15-31 | The result is always "Quantum" or "Classical", and it is "Quantum" iff the description is quantum-ready. |
| `Allocation.AllocationAgreesWithHybrid` | src/resource_allocation.py:26-31 | A description is allocated "Quantum" iff hybrid processing runs the quantum circuit for it. |
| `Hybrid.HybridProcessing` | src/hybrid_processing.py:58-81 | Readiness is consulted exactly once, first, with the description unchanged. Exactly one runner is called. When ready it calls the quantum runner with (circuit, parameters); otherwise the classical runner with (model, data). The chosen runner's result or exception is returned unchanged. |
| `Hybrid.FailuresPropagate` | src/hybrid_processing.py:72-81 | When the runner the readiness test picks raises, hybrid processing raises that same exception and never turns it into a value. The other runner's behaviour plays no part. |
| `QuantumUtils.InitializeQuantumResources` | quantum/quantum_utils.py:17-27 | Always reports success. |
| `QuantumUtils.CheckHardware` | quantum/quantum_utils.py:29-44 | Exactly the four entries CPU, RAM, GPU and QuantumChip, with their fixed values. |
| `QuantumUtils.RequiresQuantumProcessing` | quantum/quantum_utils.py:49-59 | True iff "quantum" occurs at some index of the code. |
| `QuantumUtils.QuantumTestIsCaseSensitive` | quantum/quantum_utils.py:57 | "quantum" and the module's sample sentence give True; "Quantum" gives False. |
| `QuantumUtils.TransformCodeForQuantumProcessing` | quantum/quantum_utils.py:77-87 | The output contains no "classical". Code without "classical" is returned unchanged. Code with it yields output for which `requires_quantum_processing` is true. The text around each occurrence is characterised by `QuantumUtils.TransformFirstOccurrence`. |
| `QuantumUtils.TransformFirstOccurrence` | quantum/quantum_utils.py:85 | When `before + "classica"` holds no "classical", transforming `before + "classical" + after` gives `before + "quantum"` followed by the transformed `after`. The text around an occurrence is kept. |
| `QuantumUtils.TransformSplitsAtFirstOccurrence` | quantum/quantum_utils.py:85 | Code holding "classical" is transformed by keeping the text before some occurrence, writing "quantum" there, and transforming the text after it. With the no-match clause this fixes the output for every input. |
| `QuantumUtils.TransformIdempotent` | quantum/quantum_utils.py:85 | Transforming twice equals transforming once. |
| `QuantumUtils.TransformLeadingOccurrence` | quantum/quantum_utils.py:85 | A leading "classical" becomes "quantum", and the rest of the text is kept when it holds no other occurrence. |
| `QuantumUtils.TransformExample` | quantum/quantum_utils.py:134 | "classical computation" becomes "quantum computation". |
| `QuantumUtils.IntegrateQuantumResults` | quantum/quantum_utils.py:92-104 | A record with exactly the keys "classical" and "quantum", holding the two inputs unchanged. |
| `QuantumUtils.AllocateResourcesForBundling` | quantum/quantum_utils.py:109-121 | A record with exactly the keys "classical" and "quantum", holding the two code strings unchanged. |
| `QuantumUtils.BundlingInjective` | quantum/quantum_utils.py:116-119 | Equal bundles come from equal inputs, so bundling loses nothing. |
| `Strings.Lower` | src/quantum_assessment.py:31 | `str.lower` on ASCII keeps the length and lowercases each character in place. |
| `Strings.ReplaceAll` | quantum/quantum_utils.py:85 | `str.replace` never shrinks the text when the replacement is at least as long as the pattern, and never grows it when the replacement is no longer. |
| `Strings.ReplaceAllLeading` | quantum/quantum_utils.py:85 | A leading occurrence is replaced, and the scan resumes right after it. |
| `Strings.ReplaceAllFirstOccurrence` | quantum/quantum_utils.py:85 | At the first occurrence, the text before it is copied, the occurrence becomes the replacement, and the rest is replaced in turn. |
| `Strings.FirstOccurrenceSplit` | quantum/quantum_utils.py:85 | Every string holding the pattern has an occurrence with no earlier overlapping match. This is the split that `ReplaceAllFirstOccurrence` takes. |
| `Strings.ReplaceAllSplitsAtFirst` | quantum/quantum_utils.py:85 | Replacing in a string that holds the pattern gives the text before an occurrence, then the replacement, then the replaced rest. |
| `Strings.Contains` | src/quantum_assessment.py:31 | Python's `needle in haystack` (also at quantum/quantum_utils.py:57): the empty needle is in every string. `Strings.ContainsIffOccurs` pins it down as an occurrence at some index, and `Strings.NotContainsShort` says a needle longer than the haystack is never found. |
| `Strings.ContainsIffOccurs` | src/quantum_assessment.py:31 | The substring test `k in s` holds iff k occurs in s at some index. |
| `Strings.ReplaceAllWithoutMatch` | quantum/quantum_utils.py:85 | `replace` leaves a string with no occurrence of the pattern unchanged. |
| `Strings.ReplaceAllIntroduces` | quantum/quantum_utils.py:85 | If the input has an occurrence, the output contains the replacement. |
| `Strings.ReplaceAllRemoves` | quantum/quantum_utils.py:85 | If the pattern's first character is not in the replacement, and the replacement's first character is not in the pattern, the output has no occurrence of the pattern. |
| `Circuits.CreateQubit` | quantum/quantum_circuit.py:27-30 | The qubit is grid qubit (0, 0). |
| `Circuits.CreateHadamardGate` | quantum/quantum_circuit.py:32-35 | A Hadamard on the given qubit. |
| `Circuits.CreateQuantumCircuit` | quantum/quantum_circuit.py:37-46 | One op, a Hadamard, acting only on (0, 0), with no symbols and no measurements. |
| `Circuits.CreateParametricCircuit` | quantum/quantum_circuit.py:48-59 | Two ops on (0, 0): an Ry followed by an H. The only symbol is "theta", and there are no measurements. |
| `Circuits.MeasureQubit` | quantum/quantum_circuit.py:61-67 | Appends one measurement of the qubit with key "result" at the end. Earlier ops are unchanged and in order. Symbols are unchanged. |
| `Circuits.SimulateCircuit` | quantum/quantum_circuit.py:69-81 | One run with no bindings. A failure becomes `None`; a success becomes that value. |
| `Circuits.CreateAndSimulate` | quantum/quantum_circuit.py:83-91 | Runs the measured one-Hadamard circuit without bindings; a failure becomes `None`. |
| `Circuits.CreateParametricAndSimulate` | quantum/quantum_circuit.py:93-109 | Runs the measured parametric circuit with "theta" bound to the given value; a failure becomes `None`, not an exception. |
| `Circuits.MeasuredCircuitsShape` | quantum/quantum_circuit.py:88-100 | The simulated circuits are [H, Measure] and [Ry(theta), H, Measure], all on (0, 0), so the measured qubit is the one the gates act on. |
| `Circuits.SymbolsExactlyBound` | quantum/quantum_circuit.py:98-102 | The plain circuit has no symbols. The parametric circuit's symbols are exactly the bound keys, {"theta"}, and "theta" is bound to the given value. |

## Left out

- Hardware and resource probes (scripts/resource_monitoring.py, src/hardware_detection.py). These are OS, driver and network I/O. Their results enter `Decision.Snapshot` as plain inputs. The GPU list is `None` when no GPU is found (scripts/resource_monitoring.py:14-15). Each backend probe contributes only whether its value was truthy. Loads are compared exactly as reported, without scaling.
- Loading the classifier at import time (scripts/decision_logic.py:6) and the prediction call. The prediction is a string label. In `Switching.DynamicSwitching` it comes from a `classify` function parameter applied to the feature vector.
- Model training, evaluation and data preprocessing scripts. These are pandas/scikit-learn work outside the core.
- Floating point. CPU and GPU loads and the theta angle are modelled as exact `real` values.
- Real concurrency in scripts/dynamic_switching.py:15-22. The processes appear only as start and join events, and the runner bodies are empty placeholders.
- The numerics of circuit simulation, measurement statistics and cirq's grouping of operations into moments. The simulator is an uninterpreted function parameter that may fail.
- `run_quantum_circuit` and `run_classical_model` (src/hybrid_processing.py:19-56). They become function parameters whose `Failure` results stand for raised exceptions.
- Logging, `print`, the config.json read at import (quantum/quantum_circuit.py:10-11), argument parsing, `load_quantum_module` (importlib), utils/helper_functions.py and src/main.py.
- Unicode lowercasing. `Strings.Lower` changes only ASCII capitals. Python's `str.lower` also folds non-ASCII letters.
- The `except` branches of quantum/quantum_utils.py and the `raise` in src/quantum_assessment.py:36-38. For string inputs the guarded operations cannot fail (substring tests, `replace`, dict literals and formatting of strings). The exception is `integrate_quantum_results`, described on the next line.
- QuantumUtils.IntegrateQuantumResults: the model always returns the record. Its inputs are arbitrary objects, and the debug log inside the `try` formats them (quantum/quantum_utils.py:103). An object whose formatting raises makes the source return `None` (quantum/quantum_utils.py:105-107), and the model has no such case.
- Circuits.MeasureQubit: `measure_qubit` appends to the circuit object it is given and returns that same object (quantum/quantum_circuit.py:66-67). The model returns a new sequence, so aliasing of the caller's circuit is not represented.
- Circuits.SimulateCircuit and Circuits.CreateParametricAndSimulate: `cirq.Simulator()` and the `ParamResolver` are built outside the `try` (quantum/quantum_circuit.py:74, 101-102). A failure there propagates as an exception instead of becoming `None`. The model has one simulator parameter, whose failures all stand for errors raised inside the `try`.
- Switching.DynamicSwitching: the model takes the probe readings as a completed snapshot. A probe that raises (for example `IBMQ.load_account()` at scripts/resource_monitoring.py:20) ends `dynamic_switching` before any runner is invoked. "At least one runner is invoked" is promised only when every probe returns.
- Allocation.AllocateResources: the model does not record how often readiness is consulted, because the readiness test is a pure function and repeated calls cannot be observed. `Hybrid.HybridProcessing` does record it.
- Circuits.SimulateCircuit: "no retry" is not a separate contract. The simulator is a pure parameter, so the number of calls cannot be observed; the body calls it once.
- Strings.ReplaceAll requires a non-empty pattern. Python's `replace` with an empty pattern inserts the replacement between characters, but the source only ever replaces "classical".
