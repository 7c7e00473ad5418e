/** The bookkeeping of `go`'s training loop. The network, the optimiser, the loss terms and the
    measurements are outside this model; what remains is, per iteration, the batch drawn from
    the training data, the `instances_seen` counter used as the logging step, and, on
    evaluation iterations, the seed handed to the sampler and the held-out prefix whose
    compression is measured. Every random draw is a parameter. */
module Training {
  import opened Common
  import opened Batching
  import opened Corpus
  import opened Schedule

  /** The options of `go` that the bookkeeping depends on. */
  datatype Config = Config(
    numBatches: nat,
    batchSize: nat,
    context: nat,
    final: bool,
    testEvery: int,
    testSubset: int)

  /** What an evaluation iteration hands to `sample_sequence` and to the compression measurement. */
  datatype Evaluation = Evaluation(seed: seq<Token>, subset: seq<Token>)

  /** What one iteration of the loop produces. */
  datatype Iteration = Iteration(batch: Batch, instancesSeen: nat, evaluation: Option<Evaluation>)

  /** The exception that ends `go`. */
  datatype LoopError = BatchFailed(batchError: BatchError) | ScheduleFailed(scheduleError: ScheduleError)

  /** The training and held-out data `go` obtains from the bytes read. */
  function Data(cfg: Config, bytes: seq<Token>): Splits
  {
    SelectSplits(SplitCorpus(bytes, TrainBytes, ValidBytes), cfg.final)
  }

  /** The random draws fit the ranges they are drawn from: `batch_size` start offsets per
      iteration (torch.randint) and one seed offset per iteration (random.randint), each
      constrained only when its range is not empty. */
  predicate DrawsFit(cfg: Config, data: Splits, starts: seq<seq<int>>, seedDraws: seq<int>)
  {
    && |starts| == cfg.numBatches
    && |seedDraws| == cfg.numBatches
    && (forall i :: 0 <= i < cfg.numBatches ==>
          && |starts[i]| == cfg.batchSize
          && (StartLimit(|data.train|, cfg.context) > 0 ==> StartsInRange(starts[i], StartLimit(|data.train|, cfg.context))))
    && (forall i :: 0 <= i < cfg.numBatches ==>
          cfg.context <= |data.heldOut| ==> 0 <= seedDraws[i] <= |data.heldOut| - cfg.context)
  }

  /** The exception a run ends with, read off the configuration and the data sizes alone:
      a batch that cannot be drawn fails the first iteration; with at least two iterations,
      a zero `test_every` fails the second and a held-out split shorter than the context
      fails the first evaluation. */
  function Failure(cfg: Config, data: Splits): Option<LoopError>
  {
    if cfg.numBatches == 0 then None
    else if |data.train| <= cfg.context + 1 then Some(BatchFailed(EmptyStartRange))
    else if cfg.batchSize == 0 then Some(BatchFailed(EmptyBatch))
    else if cfg.numBatches == 1 then None
    else if cfg.testEvery == 0 then Some(ScheduleFailed(ZeroTestEvery))
    else if |data.heldOut| < cfg.context then Some(ScheduleFailed(HeldOutTooShort))
    else None
  }

  /** Iteration `i` of a run drew its batch from the training data at the `i`-th offsets, had
      seen `(i + 1) * batch_size` instances by the time it logged, and evaluated exactly when
      the cadence rule says so, on the seed at the `i`-th seed draw and the prescribed prefix. */
  predicate Logged(cfg: Config, data: Splits, starts: seq<seq<int>>, seedDraws: seq<int>, i: nat, it: Iteration)
    requires DrawsFit(cfg, data, starts, seedDraws) && i < cfg.numBatches
  {
    && SampleBatch(data.train, cfg.context, starts[i]) == Ok(it.batch)
    && it.instancesSeen == (i + 1) * cfg.batchSize
    && (it.evaluation.Some? <==> EvaluationDue(i, cfg.testEvery, cfg.numBatches) == Ok(true))
    && (it.evaluation.Some? ==>
          && EvaluationSeed(data.heldOut, cfg.context, seedDraws[i]) == Ok(it.evaluation.value.seed)
          && it.evaluation.value.subset == EvaluationSubset(data.heldOut, i, cfg.numBatches, cfg.testSubset))
  }

  /** The loop of `go`, one entry per iteration, or the exception that ends it. */
  method Go(cfg: Config, bytes: seq<Token>, starts: seq<seq<int>>, seedDraws: seq<int>) returns (r: Result<seq<Iteration>, LoopError>)
    requires |bytes| <= TrainBytes + ValidBytes + TestBytes
    requires DrawsFit(cfg, Data(cfg, bytes), starts, seedDraws)
    ensures r.Err? <==> Failure(cfg, Data(cfg, bytes)).Some?
    ensures r.Err? ==> Failure(cfg, Data(cfg, bytes)) == Some(r.error)
    ensures r.Ok? ==> |r.value| == cfg.numBatches
    ensures r.Ok? ==> forall i :: 0 <= i < cfg.numBatches ==> Logged(cfg, Data(cfg, bytes), starts, seedDraws, i, r.value[i])
  {
    var data := Data(cfg, bytes);
    var log: seq<Iteration> := [];
    var instancesSeen := 0;
    for i := 0 to cfg.numBatches
      invariant |log| == i
      invariant instancesSeen == i * cfg.batchSize
      invariant forall k :: 0 <= k < i ==> Logged(cfg, data, starts, seedDraws, k, log[k])
      invariant i > 0 ==> |data.train| > cfg.context + 1 && cfg.batchSize > 0
      invariant i > 1 ==> cfg.testEvery != 0
      invariant i == cfg.numBatches > 1 ==> cfg.context <= |data.heldOut|
    {
      var batch := SampleBatch(data.train, cfg.context, starts[i]);
      if batch.Err? {
        return Err(BatchFailed(batch.error));
      }
      instancesSeen := instancesSeen + |batch.value.inputs|;
      var due := EvaluationDue(i, cfg.testEvery, cfg.numBatches);
      if due.Err? {
        return Err(ScheduleFailed(due.error));
      }
      var evaluation := None;
      if due.value {
        var seed := EvaluationSeed(data.heldOut, cfg.context, seedDraws[i]);
        if seed.Err? {
          return Err(ScheduleFailed(seed.error));
        }
        evaluation := Some(Evaluation(seed.value, EvaluationSubset(data.heldOut, i, cfg.numBatches, cfg.testSubset)));
      }
      log := log + [Iteration(batch.value, instancesSeen, evaluation)];
    }
    r := Ok(log);
  }

  /** The step after `j + 1` batches exceeds the one after `i + 1` when `i < j`. */
  lemma StepsGrow(i: nat, j: nat, batchSize: nat)
    requires i < j && batchSize > 0
    ensures (i + 1) * batchSize < (j + 1) * batchSize
  {
    assert (j + 1) * batchSize == (i + 1) * batchSize + (j - i) * batchSize;
  }

  /** What a completed run of at least two iterations guarantees: the first iteration never
      evaluates, the last one does and measures the whole held-out split, and every
      evaluation seed is `context` tokens of held-out data. */
  lemma RunLandmarks(cfg: Config, data: Splits, starts: seq<seq<int>>, seedDraws: seq<int>, log: seq<Iteration>)
    requires DrawsFit(cfg, data, starts, seedDraws) && Failure(cfg, data) == None
    requires |log| == cfg.numBatches >= 2
    requires forall i :: 0 <= i < cfg.numBatches ==> Logged(cfg, data, starts, seedDraws, i, log[i])
    ensures log[0].evaluation == None
    ensures log[cfg.numBatches - 1].evaluation.Some?
    ensures log[cfg.numBatches - 1].evaluation.value.subset == data.heldOut
    ensures forall i :: 0 <= i < cfg.numBatches && log[i].evaluation.Some? ==>
      |log[i].evaluation.value.seed| == cfg.context && log[i].evaluation.value.subset <= data.heldOut
  {
  }

  /** The logging step `instances_seen` strictly increases over a run that draws non-empty batches. */
  lemma InstancesSeenIncreases(cfg: Config, data: Splits, starts: seq<seq<int>>, seedDraws: seq<int>, log: seq<Iteration>)
    requires DrawsFit(cfg, data, starts, seedDraws) && cfg.batchSize > 0
    requires |log| == cfg.numBatches
    requires forall i :: 0 <= i < cfg.numBatches ==> Logged(cfg, data, starts, seedDraws, i, log[i])
    ensures forall i, j :: 0 <= i < j < cfg.numBatches ==> log[i].instancesSeen < log[j].instancesSeen
  {
    forall i, j | 0 <= i < j < cfg.numBatches
      ensures log[i].instancesSeen < log[j].instancesSeen
    {
      assert Logged(cfg, data, starts, seedDraws, i, log[i]) && Logged(cfg, data, starts, seedDraws, j, log[j]);
      StepsGrow(i, j, cfg.batchSize);
    }
  }
}
