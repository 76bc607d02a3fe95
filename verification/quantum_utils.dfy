/** quantum/quantum_utils.py: mock helpers for hardware checks, the
    "quantum" keyword test, the classical-to-quantum rewrite and result
    bundling. */
module QuantumUtils {
  import opened Strings

  /** `initialize_quantum_resources`: a placeholder that always succeeds. */
  function InitializeQuantumResources(): (initialized: bool)
    ensures initialized
  {
    true
  }

  /** `check_hardware`: the fixed mock specification. */
  function CheckHardware(): (spec: map<string, string>)
    ensures spec.Keys == {"CPU", "RAM", "GPU", "QuantumChip"}
    ensures spec["CPU"] == "Intel i7" && spec["RAM"] == "16GB"
    ensures spec["GPU"] == "NVIDIA GTX 1080" && spec["QuantumChip"] == "IBM QX4"
  {
    map["CPU" := "Intel i7", "RAM" := "16GB", "GPU" := "NVIDIA GTX 1080", "QuantumChip" := "IBM QX4"]
  }

  /** `requires_quantum_processing`: "quantum" occurs in the code, matched
      case-sensitively. */
  function RequiresQuantumProcessing(code: string): (required: bool)
    ensures required <==> exists i :: OccursAt(code, "quantum", i)
  {
    ContainsIffOccurs(code, "quantum");
    Contains(code, "quantum")
  }

  /** The test is case-sensitive: "Quantum" alone does not count. */
  lemma QuantumTestIsCaseSensitive()
    ensures RequiresQuantumProcessing("quantum")
    ensures !RequiresQuantumProcessing("Quantum")
    ensures RequiresQuantumProcessing("This code requires quantum processing.")
  {
    assert Contains("quantum", "quantum");
    assert !Contains("Quantum", "quantum");
    var code := "This code requires quantum processing.";
    assert code[19..26] == "quantum";
    assert OccursAt(code, "quantum", 19);
  }

  /** `transform_code_for_quantum_processing`: `code.replace('classical', 'quantum')`. */
  function TransformCodeForQuantumProcessing(code: string): (transformed: string)
    ensures !Contains(transformed, "classical")
    ensures !Contains(code, "classical") ==> transformed == code
    ensures Contains(code, "classical") ==> RequiresQuantumProcessing(transformed)
  {
    ReplaceAllRemoves(code, "classical", "quantum");
    if Contains(code, "classical") then
      ReplaceAllIntroduces(code, "classical", "quantum");
      ContainsIffOccurs(ReplaceAll(code, "classical", "quantum"), "quantum");
      ReplaceAll(code, "classical", "quantum")
    else
      ReplaceAllWithoutMatch(code, "classical", "quantum");
      ReplaceAll(code, "classical", "quantum")
  }

  /** Transforming twice is transforming once. */
  lemma TransformIdempotent(code: string)
    ensures TransformCodeForQuantumProcessing(TransformCodeForQuantumProcessing(code))
      == TransformCodeForQuantumProcessing(code)
  {
  }

  /** A leading "classical" followed by text without one becomes "quantum"
      followed by the same text. */
  lemma TransformLeadingOccurrence(rest: string)
    requires !Contains(rest, "classical")
    ensures TransformCodeForQuantumProcessing("classical" + rest) == "quantum" + rest
  {
    ReplaceAllWithoutMatch(rest, "classical", "quantum");
    ReplaceAllLeading("classical", rest, "quantum");
  }

  /** The text before the first "classical" is kept, that occurrence becomes
      "quantum", and the rest of the text is transformed in turn. */
  lemma TransformFirstOccurrence(before: string, after: string)
    requires !Contains(before + "classica", "classical")
    ensures TransformCodeForQuantumProcessing(before + "classical" + after)
      == before + "quantum" + TransformCodeForQuantumProcessing(after)
  {
    assert "classical"[..|"classical"| - 1] == "classica";
    ReplaceAllFirstOccurrence(before, "classical", "quantum", after);
  }

  /** Every code holding "classical" is transformed by keeping the text up to
      its first occurrence, writing "quantum" there, and transforming the
      rest: together with the no-match case this fixes the output for every
      input. */
  lemma TransformSplitsAtFirstOccurrence(code: string)
    requires Contains(code, "classical")
    ensures exists i ::
      && OccursAt(code, "classical", i)
      && TransformCodeForQuantumProcessing(code)
         == code[..i] + "quantum" + TransformCodeForQuantumProcessing(code[i + |"classical"|..])
  {
    ReplaceAllSplitsAtFirst(code, "classical", "quantum");
  }

  /** The module's own sample input, "classical computation". */
  lemma TransformExample()
    ensures TransformCodeForQuantumProcessing("classical" + " computation") == "quantum" + " computation"
  {
    NotContainsWithoutChar(" computation", "classical", 'l');
    TransformLeadingOccurrence(" computation");
  }

  /** `integrate_quantum_results`: a record holding both results unchanged. */
  function IntegrateQuantumResults<T>(classicalResults: T, quantumResults: T): (final: map<string, T>)
    ensures final.Keys == {"classical", "quantum"}
    ensures final["classical"] == classicalResults && final["quantum"] == quantumResults
  {
    map["classical" := classicalResults, "quantum" := quantumResults]
  }

  /** `allocate_resources_for_bundling`: the two code strings, filed under
      "classical" and "quantum". */
  function AllocateResourcesForBundling(classicalCode: string, quantumCode: string): (resources: map<string, string>)
    ensures resources.Keys == {"classical", "quantum"}
    ensures resources["classical"] == classicalCode && resources["quantum"] == quantumCode
  {
    map["classical" := classicalCode, "quantum" := quantumCode]
  }

  /** Bundling loses nothing: equal bundles come from equal inputs. */
  lemma BundlingInjective(c1: string, q1: string, c2: string, q2: string)
    requires AllocateResourcesForBundling(c1, q1) == AllocateResourcesForBundling(c2, q2)
    ensures c1 == c2 && q1 == q2
  {
    assert AllocateResourcesForBundling(c1, q1)["classical"] == c1;
    assert AllocateResourcesForBundling(c2, q2)["classical"] == c2;
  }
}
