/** `sample_batch`: slicing a batch of input windows, and the same windows shifted one
    token forward as targets, out of one long token sequence. */
module Batching {
  import opened Common

  /** `batch_size` input rows and `batch_size` target rows, each a list of tokens. */
  datatype Batch = Batch(inputs: seq<seq<Token>>, target: seq<seq<Token>>)

  datatype BatchError =
    | EmptyStartRange  // torch.randint refuses an empty range [0, high)
    | EmptyBatch       // torch.cat refuses an empty list of rows

  /** The exclusive upper bound handed to torch.randint for the start offsets. */
  function StartLimit(dataLength: nat, length: nat): int
  {
    dataLength - length - 1
  }

  /** Every drawn start offset lies in `[0, limit)`. */
  predicate StartsInRange(starts: seq<int>, limit: int)
  {
    forall k :: 0 <= k < |starts| ==> 0 <= starts[k] < limit
  }

  /** The batch cut out of `data` at the offsets `starts`, one row per offset. The offsets
      are the draws of torch.randint, which are constrained only when its range is not empty. */
  function SampleBatch(data: seq<Token>, length: nat, starts: seq<int>): (r: Result<Batch, BatchError>)
    requires StartLimit(|data|, length) > 0 ==> StartsInRange(starts, StartLimit(|data|, length))
    ensures r.Err? <==> |data| <= length + 1 || |starts| == 0
    ensures |data| <= length + 1 ==> r == Err(EmptyStartRange)
    ensures |data| > length + 1 && |starts| == 0 ==> r == Err(EmptyBatch)
    ensures r.Ok? ==>
      && |r.value.inputs| == |starts| && |r.value.target| == |starts|
      && forall k :: 0 <= k < |starts| ==>
           && 0 <= starts[k] && starts[k] + length < |data|
           && |r.value.inputs[k]| == length && |r.value.target[k]| == length
           && (forall c :: 0 <= c < length ==> r.value.inputs[k][c] == data[starts[k] + c])
           && (forall c :: 0 <= c < length ==> r.value.target[k][c] == data[starts[k] + c + 1])
           && (forall c :: 0 <= c < length - 1 ==> r.value.target[k][c] == r.value.inputs[k][c + 1])
  {
    if StartLimit(|data|, length) <= 0 then Err(EmptyStartRange)
    else if |starts| == 0 then Err(EmptyBatch)
    else
      var inputs := seq(|starts|, k requires 0 <= k < |starts| => data[starts[k] .. starts[k] + length]);
      var target := seq(|starts|, k requires 0 <= k < |starts| => data[starts[k] + 1 .. starts[k] + length + 1]);
      assert forall k :: 0 <= k < |starts| ==> 0 <= starts[k] && starts[k] + length + 1 < |data|;
      assert forall k :: 0 <= k < |starts| ==>
        inputs[k] == data[starts[k] .. starts[k] + length] && target[k] == data[starts[k] + 1 .. starts[k] + length + 1];
      Ok(Batch(inputs, target))
  }

  /** The worked example of a 1000-token sequence, windows of 10 and 4 rows: the batch is
      4 by 10 and no row starts beyond offset 988. */
  lemma ThousandTokenExample(data: seq<Token>, starts: seq<int>)
    requires |data| == 1000 && |starts| == 4 && StartsInRange(starts, StartLimit(1000, 10))
    ensures var r := SampleBatch(data, 10, starts);
      && r.Ok?
      && |r.value.inputs| == 4 && |r.value.target| == 4
      && (forall k :: 0 <= k < 4 ==> |r.value.inputs[k]| == 10 && |r.value.target[k]| == 10 && starts[k] <= 988)
  {
  }
}
