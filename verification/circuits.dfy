/** quantum/quantum_circuit.py: build one-qubit demonstration circuits as
    sequences of gate operations and hand them to a simulator that may fail. */
module Circuits {
  import opened Wrappers

  /** A qubit on the device grid. */
  datatype Qubit = GridQubit(row: int, col: int)

  /** The gate operations the builders use. `Ry` rotates by the angle bound to
      `symbol` at simulation time. */
  datatype Op =
    | H(target: Qubit)
    | Ry(symbol: string, target: Qubit)
    | Measure(target: Qubit, key: string)

  /** A circuit is its operations in application order. */
  type Circuit = seq<Op>

  /** Values for the circuit's symbols. */
  type Bindings = map<string, real>

  /** The symbols a circuit leaves to be bound. */
  function Symbols(c: Circuit): set<string> {
    set i | 0 <= i < |c| && c[i].Ry? :: c[i].symbol
  }

  /** The qubits a circuit acts on. */
  function Qubits(c: Circuit): set<Qubit> {
    set i | 0 <= i < |c| :: c[i].target
  }

  /** The measurement keys of a circuit. */
  function MeasurementKeys(c: Circuit): set<string> {
    set i | 0 <= i < |c| && c[i].Measure? :: c[i].key
  }

  /** `create_qubit`. */
  function CreateQubit(): (q: Qubit)
    ensures q.row == 0 && q.col == 0
  {
    GridQubit(0, 0)
  }

  /** `create_hadamard_gate`. */
  function CreateHadamardGate(q: Qubit): (op: Op)
    ensures op.H? && op.target == q
  {
    H(q)
  }

  /** `create_quantum_circuit`: one Hadamard on the grid origin. */
  function CreateQuantumCircuit(): (c: Circuit)
    ensures |c| == 1 && c[0].H?
    ensures Qubits(c) == {CreateQubit()}
    ensures Symbols(c) == {} && MeasurementKeys(c) == {}
  {
    [CreateHadamardGate(CreateQubit())]
  }

  /** `create_parametric_circuit`: a Y rotation by the symbol "theta", then a
      Hadamard, both on the grid origin. */
  function CreateParametricCircuit(): (c: Circuit)
    ensures |c| == 2 && c[0].Ry? && c[1].H?
    ensures Qubits(c) == {CreateQubit()}
    ensures Symbols(c) == {"theta"} && MeasurementKeys(c) == {}
  {
    var q := CreateQubit();
    [Ry("theta", q), CreateHadamardGate(q)]
  }

  /** `measure_qubit`: append one measurement keyed "result"; the earlier
      operations stay as they were, in order. */
  function MeasureQubit(c: Circuit, q: Qubit): (r: Circuit)
    ensures |r| == |c| + 1 && r[..|c|] == c
    ensures r[|c|].Measure? && r[|c|].target == q && r[|c|].key == "result"
    ensures Qubits(r) == Qubits(c) + {q}
    ensures Symbols(r) == Symbols(c)
    ensures MeasurementKeys(r) == MeasurementKeys(c) + {"result"}
  {
    var r := c + [Measure(q, "result")];
    assert forall i :: 0 <= i < |c| ==> r[i] == c[i];
    r
  }

  /** The simulator: runs a circuit under bindings and returns a result, or
      fails. */
  type Simulator<V, E> = (Circuit, Bindings) -> Result<V, E>

  /** `simulate_circuit`: one run without bindings; a failure is logged and
      reported as `None`, never retried. */
  function SimulateCircuit<V, E>(c: Circuit, simulator: Simulator<V, E>): (r: Option<V>)
    ensures r.None? <==> simulator(c, map[]).Failure?
    ensures r.Some? ==> r.value == simulator(c, map[]).value
  {
    match simulator(c, map[])
    case Success(v) => Some(v)
    case Failure(_) => None
  }

  /** The circuit `create_and_simulate` runs. */
  function SimpleMeasuredCircuit(): Circuit {
    MeasureQubit(CreateQuantumCircuit(), CreateQubit())
  }

  /** `create_and_simulate`. */
  function CreateAndSimulate<V, E>(simulator: Simulator<V, E>): (r: Option<V>)
    ensures r.None? <==> simulator(SimpleMeasuredCircuit(), map[]).Failure?
    ensures r.Some? ==> r.value == simulator(SimpleMeasuredCircuit(), map[]).value
  {
    SimulateCircuit(SimpleMeasuredCircuit(), simulator)
  }

  /** The circuit `create_parametric_and_simulate` runs. */
  function ParametricMeasuredCircuit(): Circuit {
    MeasureQubit(CreateParametricCircuit(), CreateQubit())
  }

  /** The parameter resolver of the parametric run. */
  function ThetaBinding(theta: real): Bindings {
    map["theta" := theta]
  }

  /** `create_parametric_and_simulate`: one run with "theta" bound to the
      given value; a failure is reported as `None`. */
  function CreateParametricAndSimulate<V, E>(theta: real, simulator: Simulator<V, E>): (r: Option<V>)
    ensures r.None? <==> simulator(ParametricMeasuredCircuit(), ThetaBinding(theta)).Failure?
    ensures r.Some? ==> r.value == simulator(ParametricMeasuredCircuit(), ThetaBinding(theta)).value
  {
    match simulator(ParametricMeasuredCircuit(), ThetaBinding(theta))
    case Success(v) => Some(v)
    case Failure(_) => None
  }

  /** Both simulated circuits are the builders' gates followed by one
      measurement, all on the qubit the gates act on. */
  lemma MeasuredCircuitsShape()
    ensures SimpleMeasuredCircuit() == [H(GridQubit(0, 0)), Measure(GridQubit(0, 0), "result")]
    ensures ParametricMeasuredCircuit()
      == [Ry("theta", GridQubit(0, 0)), H(GridQubit(0, 0)), Measure(GridQubit(0, 0), "result")]
    ensures Qubits(SimpleMeasuredCircuit()) == {GridQubit(0, 0)}
    ensures Qubits(ParametricMeasuredCircuit()) == {GridQubit(0, 0)}
  {
  }

  /** Every symbol the simulated circuits use is bound, and the parametric
      run binds nothing else. */
  lemma SymbolsExactlyBound(theta: real)
    ensures Symbols(SimpleMeasuredCircuit()) == {}
    ensures Symbols(ParametricMeasuredCircuit()) == ThetaBinding(theta).Keys
    ensures ThetaBinding(theta)["theta"] == theta
  {
  }
}
