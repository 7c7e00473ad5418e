/** `sample_sequence`: extending a seed one token at a time. The network together with the
    token choice is one abstract function `next` from the model's input window to a token. */
module Generation {
  import opened Common
  import Slicing

  /** The model input `sequence[-max_context:]`. */
  function Window(sequence: seq<Token>, maxContext: int): (w: seq<Token>)
    ensures maxContext >= 1 ==> |w| == Min(maxContext, |sequence|) && w == sequence[|sequence| - |w|..]
    ensures maxContext == 0 ==> w == sequence
  {
    Slicing.SliceFrom(sequence, -maxContext)
  }

  /** The working sequence after `steps` passes of the sampling loop. */
  function Extended(next: seq<Token> -> Token, seed: seq<Token>, maxContext: int, steps: nat): seq<Token>
  {
    if steps == 0 then seed
    else
      var before := Extended(next, seed, maxContext, steps - 1);
      before + [next(Window(before, maxContext))]
  }

  /** Each pass appends exactly one token: the seed stays the prefix and the length grows by one per pass. */
  lemma {:induction false} ExtendedKeepsSeed(next: seq<Token> -> Token, seed: seq<Token>, maxContext: int, steps: nat)
    ensures |Extended(next, seed, maxContext, steps)| == |seed| + steps
    ensures Extended(next, seed, maxContext, steps)[..|seed|] == seed
  {
    if steps > 0 {
      ExtendedKeepsSeed(next, seed, maxContext, steps - 1);
      var before := Extended(next, seed, maxContext, steps - 1);
      assert Extended(next, seed, maxContext, steps)[..|seed|] == before[..|seed|];
    }
  }

  /** An earlier working sequence is a prefix of every later one. */
  lemma {:induction false} ExtendedGrows(next: seq<Token> -> Token, seed: seq<Token>, maxContext: int, m: nat, n: nat)
    requires m <= n
    ensures Extended(next, seed, maxContext, m) <= Extended(next, seed, maxContext, n)
  {
    if m < n {
      ExtendedGrows(next, seed, maxContext, m, n - 1);
    }
  }

  /** Every sampled token is `next` applied to the window over the tokens before it. */
  lemma ExtendedTokenAt(next: seq<Token> -> Token, seed: seq<Token>, maxContext: int, steps: nat, k: nat)
    requires k < steps
    ensures var s := Extended(next, seed, maxContext, steps);
      |seed| + k < |s| && s[|seed| + k] == next(Window(s[..|seed| + k], maxContext))
  {
    var s := Extended(next, seed, maxContext, steps);
    var before := Extended(next, seed, maxContext, k);
    ExtendedKeepsSeed(next, seed, maxContext, k);
    ExtendedKeepsSeed(next, seed, maxContext, steps);
    ExtendedGrows(next, seed, maxContext, k + 1, steps);
    assert s[..|seed| + k] == before by {
      assert Extended(next, seed, maxContext, k + 1)[..|seed| + k] == before;
    }
  }

  /** The loop of `sample_sequence`, returning the working sequence: the seed followed by the
      sampled continuation, which is what the function's documentation promises. */
  method Generate(next: seq<Token> -> Token, seed: seq<Token>, maxContext: int, length: int) returns (sequence: seq<Token>)
    ensures sequence == Extended(next, seed, maxContext, if length < 0 then 0 else length)
    ensures |sequence| == |seed| + (if length < 0 then 0 else length) && sequence[..|seed|] == seed
  {
    sequence := seed;
    var passes := if length < 0 then 0 else length;
    for n := 0 to passes
      invariant sequence == Extended(next, seed, maxContext, n)
    {
      var input := Window(sequence, maxContext);
      var c := next(input);
      sequence := sequence + [c];
    }
    ExtendedKeepsSeed(next, seed, maxContext, passes);
  }

  /** `sample_sequence` as written: it runs the sampling loop and then returns the seed it was given. */
  method SampleSequence(next: seq<Token> -> Token, seed: seq<Token>, maxContext: int, length: int) returns (r: seq<Token>)
    ensures r == seed
  {
    var sequence := Generate(next, seed, maxContext, length);
    r := seed;
  }

  /** Whenever at least one token is sampled, the seed that `sample_sequence` returns is not the
      sampled sequence that its documentation promises; with no pass the two coincide. */
  lemma ReturnedSeedIsNotSample(next: seq<Token> -> Token, seed: seq<Token>, maxContext: int, length: int)
    ensures length <= 0 ==> Extended(next, seed, maxContext, if length < 0 then 0 else length) == seed
    ensures length > 0 ==> Extended(next, seed, maxContext, length) != seed
  {
    if length > 0 {
      ExtendedKeepsSeed(next, seed, maxContext, length);
    }
  }
}
