/** The quantum-readiness heuristic of src/quantum_assessment.py: a task is
    suitable for quantum processing when its lowered description contains one
    of three keywords. */
module Assessment {
  import opened Strings

  /** The keywords, in the order the heuristic tries them. */
  const QuantumReadyTasks: seq<string> := ["optimization", "simulation", "factorization"]

  /** The keyword loop with its early return: true as soon as one keyword is
      found in `text`, false once the list is exhausted. */
  function AnyKeywordIn(keywords: seq<string>, text: string): (found: bool)
    ensures found <==> exists k :: k in keywords && Contains(text, k)
  {
    if |keywords| == 0 then false
    else
      var found := Contains(text, keywords[0]) || AnyKeywordIn(keywords[1..], text);
      assert (exists k :: k in keywords && Contains(text, k)) ==> found by {
        if k :| k in keywords && Contains(text, k) {
          if k != keywords[0] {
            assert k in keywords[1..];
          }
        }
      }
      found
  }

  /** `assess_quantum_readiness`: the keyword test on the lowered description. */
  function AssessQuantumReadiness(description: string): (ready: bool)
    ensures ready <==>
      || Contains(Lower(description), "optimization")
      || Contains(Lower(description), "simulation")
      || Contains(Lower(description), "factorization")
  {
    assert QuantumReadyTasks[0] == "optimization";
    assert QuantumReadyTasks[1] == "simulation";
    assert QuantumReadyTasks[2] == "factorization";
    AnyKeywordIn(QuantumReadyTasks, Lower(description))
  }

  /** The loop's order does not matter: any rearrangement of the keyword list
      finds a keyword exactly when the original does. */
  lemma KeywordOrderIrrelevant(keywords: seq<string>, reordered: seq<string>, text: string)
    requires multiset(keywords) == multiset(reordered)
    ensures AnyKeywordIn(keywords, text) == AnyKeywordIn(reordered, text)
  {
    assert forall k :: k in keywords <==> k in multiset(keywords);
    assert forall k :: k in reordered <==> k in multiset(reordered);
  }

  /** The test ignores ASCII case. */
  lemma ReadinessIgnoresCase(description: string)
    ensures AssessQuantumReadiness(Lower(description)) == AssessQuantumReadiness(description)
  {
    LowerIdempotent(description);
  }

  /** The empty description is never ready. */
  lemma EmptyNotReady()
    ensures !AssessQuantumReadiness("")
  {
    NotContainsShort(Lower(""), "optimization");
    NotContainsShort(Lower(""), "simulation");
    NotContainsShort(Lower(""), "factorization");
  }

  /** Readiness survives any text added around the description. */
  lemma ReadinessExtended(prefix: string, description: string, suffix: string)
    ensures AssessQuantumReadiness(description) ==> AssessQuantumReadiness(prefix + description + suffix)
  {
    if !AssessQuantumReadiness(description) {
      return;
    }
    LowerConcat(prefix, description);
    LowerConcat(prefix + description, suffix);
    var l := Lower(description);
    if Contains(l, "optimization") {
      ContainsExtended(Lower(prefix), l, Lower(suffix), "optimization");
    } else if Contains(l, "simulation") {
      ContainsExtended(Lower(prefix), l, Lower(suffix), "simulation");
    } else {
      ContainsExtended(Lower(prefix), l, Lower(suffix), "factorization");
    }
  }

  /** No keyword fits into a word shorter than the shortest keyword. */
  lemma ShortTextNotReady(text: string)
    requires |text| < 10
    ensures !AssessQuantumReadiness(text)
  {
    NotContainsShort(Lower(text), "optimization");
    NotContainsShort(Lower(text), "simulation");
    NotContainsShort(Lower(text), "factorization");
  }

  /** No keyword holds a space, so none matches across one. */
  lemma NotReadyAcrossSpace(a: string, b: string)
    requires !AssessQuantumReadiness(a) && !AssessQuantumReadiness(b)
    ensures !AssessQuantumReadiness(a + [' '] + b)
  {
    LowerConcat(a, [' ']);
    LowerConcat(a + [' '], b);
    assert Lower([' ']) == [' '];
    NotContainsAcross(Lower(a), ' ', Lower(b), "optimization");
    NotContainsAcross(Lower(a), ' ', Lower(b), "simulation");
    NotContainsAcross(Lower(a), ' ', Lower(b), "factorization");
  }

  /** "Optimize" is a stem of "optimization", not an occurrence of it: the
      description is not ready. */
  lemma OptimizeStemNotReady()
    ensures !AssessQuantumReadiness("Optimize the portfolio using quantum methods")
  {
    var words := ["Optimize", "the", "portfolio", "using", "quantum", "methods"];
    WordsNotReady(words);
    PortfolioWords();
  }

  /** Helper for the example lemmas: the words of the portfolio description,
      joined back together, so that the example can be proved word by word. */
  lemma PortfolioWords()
    ensures JoinWords(["Optimize", "the", "portfolio", "using", "quantum", "methods"])
      == "Optimize the portfolio using quantum methods"
  {
    assert JoinWords(["portfolio", "using", "quantum", "methods"])
      == "portfolio using quantum methods";
  }

  /** "Simulate" does not contain "simulation": the description is not ready. */
  lemma SimulateStemNotReady()
    ensures !AssessQuantumReadiness("Simulate the molecular structure")
  {
    var words := ["Simulate", "the", "molecular", "structure"];
    WordsNotReady(words);
    assert JoinWords(words) == "Simulate the molecular structure";
  }

  /** "Factorize" does not contain "factorization": the description is not ready. */
  lemma FactorizeStemNotReady()
    ensures !AssessQuantumReadiness("Factorize large integers")
  {
    var words := ["Factorize", "large", "integers"];
    WordsNotReady(words);
    assert JoinWords(words) == "Factorize large integers";
  }

  /** A description with no keyword at all is not ready. */
  lemma SortingNotReady()
    ensures !AssessQuantumReadiness("Sort a list of numbers")
  {
    var words := ["Sort", "a", "list", "of", "numbers"];
    WordsNotReady(words);
    assert JoinWords(words) == "Sort a list of numbers";
  }

  /** A description that spells a keyword out is ready. */
  lemma ExampleDescriptionReady()
    ensures AssessQuantumReadiness("Optimization task")
  {
    var l := Lower("Optimization task");
    assert l[..12] == "optimization";
    StartsWithIffPrefix(l, "optimization");
  }

  /** Helper for the example lemmas: words joined by single spaces. */
  function JoinWords(words: seq<string>): string
    requires |words| > 0
  {
    if |words| == 1 then words[0] else words[0] + [' '] + JoinWords(words[1..])
  }

  /** Helper for the example lemmas: space-separated words, each shorter
      than every keyword, are not ready. */
  lemma {:induction false} WordsNotReady(words: seq<string>)
    requires |words| > 0
    requires forall i :: 0 <= i < |words| ==> |words[i]| < 10
    ensures !AssessQuantumReadiness(JoinWords(words))
  {
    ShortTextNotReady(words[0]);
    if |words| > 1 {
      WordsNotReady(words[1..]);
      NotReadyAcrossSpace(words[0], JoinWords(words[1..]));
    }
  }
}
