/** `sample`: choosing the next token from a vector of log-probabilities. At temperature
    zero it is the arg-max; otherwise it is a categorical draw, which this model receives
    as a parameter because it is a library call over floating point and randomness. */
module Sampling {
  import opened Common

  /** `k` is the position of the first maximal element of `v`, the index torch's argmax reports. */
  predicate IsFirstArgmax(v: seq<real>, k: nat)
  {
    && k < |v|
    && (forall j :: 0 <= j < |v| ==> v[j] <= v[k])
    && (forall j :: 0 <= j < k ==> v[j] < v[k])
  }

  function Argmax(v: seq<real>): (k: nat)
    requires |v| > 0
    ensures IsFirstArgmax(v, k)
    decreases |v|
  {
    if |v| == 1 then 0
    else
      var front := v[..|v| - 1];
      var k := Argmax(front);
      assert forall j :: 0 <= j < |v| - 1 ==> front[j] == v[j];
      if v[k] < v[|v| - 1] then |v| - 1 else k
  }

  /** At most one position is the first maximum, so the greedy choice is determined by the vector alone. */
  lemma FirstArgmaxUnique(v: seq<real>, k1: nat, k2: nat)
    requires IsFirstArgmax(v, k1) && IsFirstArgmax(v, k2)
    ensures k1 == k2
  {
    assert v[k1] == v[k2];
  }

  datatype SampleError = EmptyDistribution  // argmax / Categorical of an empty vector

  /** `sample(lnprobs, temperature)`; `categorical` stands for softmax at the given temperature
      followed by one categorical draw. */
  function Sample(lnprobs: seq<real>, temperature: real, categorical: (seq<real>, real) -> nat): (r: Result<nat, SampleError>)
    ensures r.Err? <==> |lnprobs| == 0
    ensures temperature == 0.0 && r.Ok? ==> IsFirstArgmax(lnprobs, r.value)
  {
    if |lnprobs| == 0 then Err(EmptyDistribution)
    else if temperature == 0.0 then Ok(Argmax(lnprobs))
    else Ok(categorical(lnprobs, temperature))
  }

  /** Greedy decoding consults no randomness: any two categorical samplers give the same token,
      and it is the unique first maximum. */
  lemma GreedyIsDeterministic(lnprobs: seq<real>, c1: (seq<real>, real) -> nat, c2: (seq<real>, real) -> nat, k: nat)
    requires IsFirstArgmax(lnprobs, k)
    ensures Sample(lnprobs, 0.0, c1) == Sample(lnprobs, 0.0, c2) == Ok(k)
  {
  }
}
