/** Call traces: the observable order in which the dispatch code invokes its
    collaborators, and how often. */
module Traces {

  /** How many entries of `trace` satisfy `p`. */
  function Count<T>(trace: seq<T>, p: T -> bool): (n: nat)
    ensures n <= |trace|
    ensures n == 0 <==> forall i :: 0 <= i < |trace| ==> !p(trace[i])
  {
    if |trace| == 0 then 0
    else (if p(trace[0]) then 1 else 0) + Count(trace[1..], p)
  }

  /** Counting distributes over concatenation. */
  lemma {:induction false} CountConcat<T>(a: seq<T>, b: seq<T>, p: T -> bool)
    ensures Count(a + b, p) == Count(a, p) + Count(b, p)
    decreases |a|
  {
    if |a| > 0 {
      CountConcat(a[1..], b, p);
      assert (a + b)[1..] == a[1..] + b;
    } else {
      assert a + b == b;
    }
  }
}
