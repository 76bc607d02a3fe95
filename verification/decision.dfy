/** scripts/decision_logic.py: a first-match-wins threshold rule combining the
    classifier's prediction with a snapshot of the resource probes. */
module Decision {
  import opened Wrappers

  /** The four computation methods the rule can select. */
  datatype Method = CPU | GPU | QPU | Hybrid

  /** The string the source returns for each method. */
  function Label(m: Method): (s: string)
    ensures s in {"CPU", "GPU", "QPU", "Hybrid"}
  {
    match m
    case CPU => "CPU"
    case GPU => "GPU"
    case QPU => "QPU"
    case Hybrid => "Hybrid"
  }

  /** Distinct methods have distinct labels. */
  lemma LabelInjective(m: Method, n: Method)
    requires Label(m) == Label(n)
    ensures m == n
  {
  }

  /** One `(gpu.id, gpu.load)` pair reported by the GPU probe. */
  datatype GpuReading = GpuReading(id: int, load: real)

  /** What the probes returned. `gpuUsage` is `None` when no GPU was found;
      each backend field says whether that probe's value was truthy
      (a non-empty list of backends, or a device object). */
  datatype Snapshot = Snapshot(
    cpuUsage: real,
    gpuUsage: Option<seq<GpuReading>>,
    qiskitBackends: bool,
    cirqBackends: bool,
    pennylaneDevices: bool)

  /** The load percentage at or above which a device counts as busy. */
  const Threshold: real := 80.0

  /** `all(load < limit for _, load in readings)`, scanned in order. */
  function AllBelow(readings: seq<GpuReading>, limit: real): (all: bool)
    ensures all <==> forall i :: 0 <= i < |readings| ==> readings[i].load < limit
  {
    |readings| == 0 || (readings[0].load < limit && AllBelow(readings[1..], limit))
  }

  /** The CPU is not busy. */
  predicate CpuAvailable(s: Snapshot) {
    s.cpuUsage < Threshold
  }

  /** At least one GPU was reported and none of them is busy. */
  predicate GpuAvailable(s: Snapshot) {
    && s.gpuUsage.Some?
    && |s.gpuUsage.value| > 0
    && forall i :: 0 <= i < |s.gpuUsage.value| ==> s.gpuUsage.value[i].load < Threshold
  }

  /** At least one of the three quantum backend probes returned something. */
  predicate QpuAvailable(s: Snapshot) {
    s.qiskitBackends || s.cirqBackends || s.pennylaneDevices
  }

  /** `decide_computation_method`, with the classifier's prediction and the
      probe readings passed in. */
  function DecideComputationMethod(prediction: string, s: Snapshot): (m: Method)
    ensures m != Hybrid ==> Label(m) == prediction
    ensures prediction == "CPU" ==> (m == CPU <==> CpuAvailable(s))
    ensures prediction == "GPU" ==> (m == GPU <==> GpuAvailable(s))
    ensures prediction == "QPU" ==> (m == QPU <==> QpuAvailable(s))
    ensures prediction !in {"CPU", "GPU", "QPU"} ==> m == Hybrid
  {
    if prediction == "CPU" && s.cpuUsage < Threshold then CPU
    else if prediction == "GPU" && s.gpuUsage.Some? && |s.gpuUsage.value| > 0
      && AllBelow(s.gpuUsage.value, Threshold) then GPU
    else if prediction == "QPU" && (s.qiskitBackends || s.cirqBackends || s.pennylaneDevices) then QPU
    else Hybrid
  }

  /** A lower CPU load never turns a CPU decision into Hybrid. */
  lemma LowerCpuLoadKeepsCpu(prediction: string, s: Snapshot, lighter: Snapshot)
    requires DecideComputationMethod(prediction, s) == CPU
    requires lighter.cpuUsage <= s.cpuUsage
    ensures DecideComputationMethod(prediction, lighter) == CPU
  {
  }

  /** Lowering every GPU load (same GPUs, same order) never turns a GPU
      decision into Hybrid. */
  lemma LowerGpuLoadsKeepGpu(prediction: string, s: Snapshot, lighter: Snapshot)
    requires DecideComputationMethod(prediction, s) == GPU
    requires lighter.gpuUsage.Some? && |lighter.gpuUsage.value| == |s.gpuUsage.value|
    requires forall i :: 0 <= i < |s.gpuUsage.value| ==>
      lighter.gpuUsage.value[i].load <= s.gpuUsage.value[i].load
    ensures DecideComputationMethod(prediction, lighter) == GPU
  {
  }

  /** A CPU prediction is settled by the CPU reading alone. */
  lemma CpuPredictionReadsOnlyCpu(s: Snapshot, t: Snapshot)
    requires s.cpuUsage == t.cpuUsage
    ensures DecideComputationMethod("CPU", s) == DecideComputationMethod("CPU", t)
  {
  }

  /** A GPU prediction is settled by the GPU readings alone. */
  lemma GpuPredictionReadsOnlyGpus(s: Snapshot, t: Snapshot)
    requires s.gpuUsage == t.gpuUsage
    ensures DecideComputationMethod("GPU", s) == DecideComputationMethod("GPU", t)
  {
  }

  /** A QPU prediction is settled by the backend probes alone. */
  lemma QpuPredictionReadsOnlyBackends(s: Snapshot, t: Snapshot)
    requires QpuAvailable(s) == QpuAvailable(t)
    ensures DecideComputationMethod("QPU", s) == DecideComputationMethod("QPU", t)
  {
  }

  /** The rule on sample readings, including the boundary load of exactly 80. */
  lemma DecisionExamples()
    ensures DecideComputationMethod("CPU", Snapshot(50.0, None, false, false, false)) == CPU
    ensures DecideComputationMethod("CPU", Snapshot(90.0, None, true, true, true)) == Hybrid
    ensures DecideComputationMethod("CPU", Snapshot(80.0, None, false, false, false)) == Hybrid
    ensures DecideComputationMethod("GPU",
      Snapshot(10.0, Some([GpuReading(0, 30.0), GpuReading(1, 40.0)]), false, false, false)) == GPU
    ensures DecideComputationMethod("GPU",
      Snapshot(10.0, Some([GpuReading(0, 90.0)]), false, false, false)) == Hybrid
    ensures DecideComputationMethod("GPU", Snapshot(10.0, None, false, false, false)) == Hybrid
    ensures DecideComputationMethod("GPU", Snapshot(10.0, Some([]), false, false, false)) == Hybrid
    ensures DecideComputationMethod("QPU", Snapshot(10.0, None, false, false, false)) == Hybrid
    ensures DecideComputationMethod("QPU", Snapshot(10.0, None, false, true, false)) == QPU
    ensures DecideComputationMethod("TPU", Snapshot(10.0, None, true, true, true)) == Hybrid
  {
    assert AllBelow([GpuReading(1, 40.0)], Threshold);
  }
}
