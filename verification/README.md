# Self-distillation training script: verified model of its sequence and integer logic

This project models the deterministic core of `experiments/oneway.py`, a script that trains a
character-level autoregressive model on the enwik8 corpus. The randomness in that core becomes
input parameters. The neural network becomes an abstract function. What is left is index
arithmetic and control flow, and the model states it exactly:

- `sample_batch` slices a batch of input windows out of one token sequence. Each target window
  is the same window moved one token forward (module `Batching`).
- `sample` at temperature zero is greedy: it returns the arg-max of the log-probabilities. At
  any other temperature the categorical draw is a parameter of the model (module `Sampling`).
- `sample_sequence` extends a seed one token at a time. At each step the model sees the last
  `max_context` tokens (module `Generation`).
- `enwik8` splits the bytes it reads three ways, and `go` chooses the training data and the
  held-out data by the `final` flag (module `Corpus`).
- `go` has integer rules: the evaluation cadence, the evaluation seed window and the size of
  the evaluated held-out prefix (module `Schedule`). Its loop counts `instances_seen` and
  produces the batches and evaluation inputs (module `Training`).

Tokens are bytes (`NUM_TOKENS = 256`). Tensors are sequences. Python's slice bounds (negative
bounds count from the end, and out-of-range bounds are clamped) are written out in module
`Slicing`. Python's floor remainder is written out as `Schedule.PyMod`.

Where the code raises an exception, the model returns an error value instead of demanding a
precondition:
- `torch.randint` with an empty range: the data is at most `length + 1` tokens long.
- `torch.cat` of an empty list: the batch size is zero.
- `argmax` of an empty vector.
- `i % test_every` with `test_every == 0`.
- `random.randint(0, n)` with `n < 0`: the held-out split is shorter than the context.

A `requires` on a random draw constrains the draw only when the range it comes from is not
empty.

The code and its own documentation disagree in one place. `sample_sequence` is documented
(line 89) to return the sampled sequence including the seed. It returns the seed (line 119).
The model keeps the code's behaviour and records the difference under Findings.

## Model

| member | source | states |
|---|---|---|
| `Batching.SampleBatch` | experiments/oneway.py:46-74 | Fails exactly when the offset range `[0, len(data) - length - 1)` is empty (the randint error) or there are no rows (the empty-concatenation error, reported only when the range is not empty). Otherwise it returns one input row and one target row per drawn offset `s`. Both rows are `length` tokens long and lie inside the data (`s + length < len(data)`). Input token `c` is `data[s + c]` and target token `c` is `data[s + c + 1]`, so the target is the input shifted by one. |
| `Batching.ThousandTokenExample` | experiments/oneway.py:60-71 | With 1000 tokens, windows of 10 and 4 offsets, the batch is 4 by 10 and no offset exceeds 988. |
| `Sampling.Argmax` | experiments/oneway.py:26 | On a non-empty vector it returns the first position whose value is not below any other value. |
| `Sampling.FirstArgmaxUnique` | experiments/oneway.py:25-26 | Only one position is the first maximum. |
| `Sampling.Sample` | experiments/oneway.py:16-31 | Fails exactly on an empty vector. At temperature zero it returns the first arg-max. |
| `Sampling.GreedyIsDeterministic` | experiments/oneway.py:25-26 | At temperature zero the result does not depend on the categorical sampler and is the unique first maximum. |
| `Generation.Window` | experiments/oneway.py:103 | The model input `sequence[-max_context:]` is the suffix of length `min(max_context, len(sequence))` when `max_context >= 1`. It is the whole sequence when `max_context == 0`. |
| `Generation.ExtendedKeepsSeed` | experiments/oneway.py:92-116 | After `n` passes the working sequence has `len(seed) + n` tokens and begins with the seed. |
| `Generation.ExtendedGrows` | experiments/oneway.py:100-116 | Each working sequence is a prefix of every later one: a pass only appends. |
| `Generation.ExtendedTokenAt` | experiments/oneway.py:100-116 | The token sampled in pass `k` is the model's choice on the window over the tokens before it. |
| `Generation.Generate` | experiments/oneway.py:92-116 | The sampling loop yields the working sequence after `max(0, length)` passes. That sequence has `len(seed) + max(0, length)` tokens and begins with the seed. |
| `Generation.SampleSequence` | experiments/oneway.py:77-119 | Returns the seed unchanged, whatever `length` is. |
| `Generation.ReturnedSeedIsNotSample` | experiments/oneway.py:89-119 | With `length <= 0` no pass runs and the working sequence is the seed. With `length > 0` the working sequence differs from the seed that is returned. |
| `Corpus.SplitCorpus` | experiments/oneway.py:34-43 | The three pieces concatenate to the bytes read. The split points are `n_train` and `n_train + n_valid`, clamped to the number of bytes. |
| `Corpus.SelectSplits` | experiments/oneway.py:173-181 | The held-out data is the test piece with `final` and the validation piece without it. Training followed by held-out data is train+valid+test with `final`, and train+valid without it. |
| `Corpus.HeldOutFollowsTraining` | experiments/oneway.py:173-181 | The training data and the held-out data are adjacent, disjoint stretches of the bytes read, training first. With `final` the cut is at `n_train + n_valid` and they cover all of the bytes. Without it, they end at `n_train` and `n_train + n_valid`. |
| `Schedule.PyMod` | experiments/oneway.py:280 | Python's remainder: `a` is the floored quotient times `b` plus the result, which takes the sign of the divisor and is zero exactly when the divisor divides. |
| `Schedule.EvaluationDue` | experiments/oneway.py:280 | Never due at iteration 0. At `i > 0` with `test_every == 0` it fails with ZeroDivisionError. Otherwise it is due exactly when `test_every` divides `i` or `i` is the last iteration, so it is always due on the last iteration when there are at least two. |
| `Schedule.EvaluationSeed` | experiments/oneway.py:283-284 | Fails exactly when the held-out data is shorter than the context. Otherwise the offset lies in `[0, len(held-out) - context]` and the seed is exactly `context` held-out tokens starting there. |
| `Schedule.EvaluationSubset` | experiments/oneway.py:299-300 | A prefix of the held-out data. It is the whole split on the last iteration. Otherwise it has `min(test_subset, len(held-out))` tokens for a non-negative `test_subset`; a negative one drops that many tokens from the end. |
| `Training.Go` | experiments/oneway.py:207-310 | Fails exactly when `Failure` says so, with that exception. The failure depends on the configuration and the data sizes, never on the draws. On success there is one entry per iteration. Entry `i` holds the batch drawn from the training data at the `i`-th offsets and `instances_seen == (i + 1) * batch_size`. It holds an evaluation exactly when the cadence rule says so, with the seed at the `i`-th seed draw and the prescribed held-out prefix. |
| `Training.RunLandmarks` | experiments/oneway.py:217-300 | In a completed run of at least two iterations, iteration 0 never evaluates. The last iteration evaluates on the whole held-out split. Every seed has `context` tokens. |
| `Training.InstancesSeenIncreases` | experiments/oneway.py:207-225 | With a non-zero batch size, `instances_seen` strictly increases from one iteration to the next. |

## Left out

- The training step is left out: autocast, loss scaling (GradScaler), gradient clipping, Adam and the one-cycle learning-rate schedule (lines 223, 231-272). These are floating-point computations inside library objects.
- The argument checks of the one-cycle scheduler are left out. `Config.numBatches` is a natural number, and a run of zero iterations is modelled as an empty loop.
- `util.distill_loss`, `compute_ema_losses`, `util.compute_compression` and `DistGen` (lines 184, 240, 244, 302) are not part of this model. Their behaviour cannot be cited.
- `ema_update` (lines 122-123) and the EMA loss list are left out. They are a floating-point blend, and its first-update logic lives in `compute_ema_losses`.
- `Sampling.Sample` at a non-zero temperature calls its `categorical` parameter. That parameter stands for softmax plus a categorical draw, and the model does not constrain the drawn index.
- `Sampling.Argmax` and `Sampling.Sample` take the log-probabilities as `real` numbers. Floating-point behaviour of `torch.argmax` on NaN or infinite entries (line 26) is not modelled.
- `Generation` abstracts the network followed by `sample` as one function `next` from window to token. That makes each pass's token a fixed function of its window. At the default temperature of 0.5, which `go` uses, the source makes a fresh categorical draw per pass and promises no such thing; no proved property depends on it. A network that fails on an empty window is not modelled.
- `Training.Go` records the seed it would hand to `sample_sequence` and the prefix it would hand to the compression measurement. It does not run them, because the network weights after each iteration are not modelled. Both results are only printed and logged.
- Reading the corpus (gzip or raw file, lines 38-41) is left out. The model receives the bytes read, at most `n_train + n_valid + n_test` of them.
- Logging to wandb, printing (the verbose sample and the gradient norms), CUDA placement, seeding and the `fire` command line (lines 9, 152-172, 247-258, 94-98, 111-112, 118, 306-314) are left out.
- `batch_size` and `context` are natural numbers in `Config`. Negative values fail inside torch or the network, which is not modelled.

## Findings

| source | as written | input that shows it | evidently intended | confidence | as-written member | corrected member |
|---|---|---|---|---|---|---|
| experiments/oneway.py:119 | `return seed` discards the sampled continuation; line 89 documents "the sampled sequence, including the seed" | any call with `length >= 1` (the default is 600) returns the seed instead of `len(seed) + length` tokens | `return sequence` | medium, not executed (the only caller ignores the result) | `Generation.SampleSequence`, `Generation.ReturnedSeedIsNotSample` | `Generation.Generate` |
