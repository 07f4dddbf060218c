# Memory-aware batch scheduler of `HFModel`, in Dafny

This project models the part of `HFModel` (`engine/generation.py`) that decides how a text-generation
request is run on a device of limited memory:

- **Generation configuration** (`GenConfig`). `create_generation_config` switches sampling off for a
  temperature of exactly zero. It resolves the eos, bos and pad token ids from the model's generation
  defaults, then its static configuration, then the tokenizer; the first declared value wins. A missing
  eos or bos id raises (eos is checked first), a missing pad id takes the eos id, and the sampling
  parameters are attached only when sampling is on. `dtype_category` names the precision category.
- **Stopping criteria** (`Stopping`). The `stopping_patterns` argument is read as one of three modes:
  explicit patterns, the default extended patterns, or disabled. When disabled, a criterion is still
  built if the model has extra eos tokens.
- **Batch-size estimator** (`Estimator`). `infer_best_batch_size` uses the linear memory fit of a
  calibration table when the table exists and its r² is at least 0.95. Otherwise it falls back to
  the parameter-count heuristic, which never returns less than 1.
- **OOM-safe executor** (`Executor`). `oom_safe_batch_generation` runs `generate`. On an out-of-memory
  error it warns, releases device memory and retries at `max(1, floor(0.8 b))`. It gives up at size 1
  and re-raises any other error. The source's tail recursion is the function `OomSafeRun`; the method
  `OomSafeBatchGeneration` is the equivalent loop.
- **Planner and orchestrator** (`Planner`, `Orchestrator`). `generate_text` collapses a greedy
  multi-sequence request to one sequence and clamps the batch size to the request. It runs the first
  batch through the executor, splits the request into `[B] * (N // B)` plus the remainder at the
  effective size `B`, reuses the first batch for the first entry, and concatenates the texts in plan
  order. A request for exactly one sequence returns one text.

The model's `generate` is an oracle (`Types.Generator`). It maps each call, meaning its position in
the request, the configuration, the stopping criteria and the number of sequences, to generated token
sequences, an out-of-memory error, or another error. Decoding and post-processing of a sequence is
the oracle `Orchestrator.Renderer`. Loading a calibration table is `Estimator.TableLookup`. The
device's total memory, the model's memory footprint and its parameter count are inputs.

The model follows the code where one might expect otherwise:

- The table path of the estimator has no lower bound. It returns `floor(available / need)`, which can
  be 0 or negative. When the predicted memory is exactly zero the float quotient is infinite or NaN
  and its conversion to `int` raises.
- A batch size below 1 (from that path, or given by the caller) is carried through as the code
  carries it. An out-of-memory error at such a size retries at 1. If the call succeeds instead, a
  request for at least one sequence raises at planning: `ZeroDivisionError` at 0, and the failed sum
  assertion below 0 (`Planner.NonPositiveBatchSizeFails`). A request for at most 0 sequences is
  planned as `[N]`, or as `[]` when N is 0 and the batch size is negative, and does not raise.
- Batches after the first are not OOM-protected: an out-of-memory error there is raised.

## Model

| member | source | states |
|---|---|---|
| GenConfig.FirstDeclared | engine/generation.py:274-306 | no value is resolved exactly when no level declares one |
| GenConfig.FirstDeclaredWins | engine/generation.py:274-306 | a declared level wins over every later level (generation defaults, then model config, then tokenizer) |
| GenConfig.CreateGenerationConfig | engine/generation.py:270-318 | eos missing raises, else bos missing raises; ids are the first declared ones and pad falls back to eos; `do_sample` is the caller's flag unless the temperature is exactly 0; sampling parameters are present exactly when sampling is on and equal the caller's |
| GenConfig.FirstIndexOf | engine/generation.py:99 | the index returned holds the character and none comes before it; none is returned exactly when the character is absent |
| GenConfig.DtypeCategory | engine/generation.py:92-99 | 4-bit gives "int4" even with 8-bit, 8-bit gives "int8", otherwise the text after the first '.', and a name without '.' raises |
| Stopping.ResolveMode | engine/generation.py:215-225 | a list or tuple gives explicit patterns, `True` the default ones, `False` and every other value disable them |
| Stopping.CreateStoppingCriteria | engine/generation.py:214-233 | the returned patterns follow the mode; a criterion exists unless the mode is disabled and there are no extra eos tokens; it watches the returned patterns and the extra eos tokens |
| Estimator.FloorDivBounds | engine/generation.py:583 | Python's float `//` lies within one divisor of the dividend on the side that rounds toward minus infinity, for either sign |
| Estimator.PerSequenceMemory | engine/generation.py:601-609 | the per-sequence cost is 0.5 GiB below 5 billion parameters, 1 below 10, 2 below 20, and 3 from 20 on |
| Estimator.AvailableMemory | engine/generation.py:544-545 | definition: 0.85 of the total memory less the model's footprint; `InferBestBatchSize`'s contract states the results in its terms |
| Estimator.PredictedLength | engine/generation.py:572-574 | definition: the input length alone under `only_scale_with_input_size`, otherwise plus the new tokens; used by `InferBestBatchSize`'s contract and `CalibratedExample` |
| Estimator.PredictedMemory | engine/generation.py:578 | definition: intercept plus slope times the predicted length; `InferBestBatchSize`'s contract states the zero-prediction error and the floor bounds in its terms |
| Estimator.UsesFit | engine/generation.py:547-581 | definition: a table exists and its r² is at least 0.95; `InferBestBatchSize`'s contract gives the heuristic exactly when it fails |
| Estimator.InferBestBatchSizeByHeuristics | engine/generation.py:586-611 | the result is at least 1 and is the largest count whose cost fits the available memory, or 1 when none fits, for the band's cost |
| Estimator.InferBestBatchSize | engine/generation.py:547-583 | a dtype error propagates; no table or r² below 0.95 gives the heuristic result; otherwise the prediction at input length (or input plus new tokens) is floor-divided into the available memory with no lower bound, and a zero prediction raises on the non-finite quotient |
| Estimator.HeuristicExample | engine/generation.py:601-611 | no table, 7 billion parameters and 10 GiB available give 10 |
| Estimator.CalibratedExample | engine/generation.py:559-583 | an exact fit of {10: 2.0, 20: 4.0} at length 10 + 10 with 20 GiB available gives 5 |
| Executor.Shrink | engine/generation.py:638 | the new size is exactly `max(1, floor(0.8 b))` and is smaller than `b` from 2 on |
| Executor.OomSafeRun | engine/generation.py:614-646 | definition: the tail recursion; its properties are in `RetryChain`, `LastAttempt`, `AttemptsDecrease`, `NonPositiveStart`, `EffectiveBatchSize`, `NoRetry` and `ReleaseBeforeEveryRetry`, and the loop is proved equal to it |
| Executor.OomSafeBatchGeneration | engine/generation.py:614-646 | the loop's outcome, attempted sizes and event log are those of the source's tail recursion |
| Executor.RetryStep | engine/generation.py:635-644 | an out-of-memory error above size 1 attempts, warns, releases memory, then continues at the shrunk size with the next call |
| Executor.FinalStep | engine/generation.py:625-637 | success, another error, or out-of-memory at size 1 ends the run after a single attempt |
| Executor.RetryChain | engine/generation.py:622-644 | the first attempt is at the given size; each attempt but the last ran out of memory at a size other than 1 and is followed by one at the shrunk size |
| Executor.LastAttempt | engine/generation.py:629-646 | the last attempt decides the outcome: its batch, its other error re-raised, or the unrecoverable error, and the latter only at size 1 |
| Executor.AttemptsDecrease | engine/generation.py:636-644 | from a positive size the attempted sizes fall strictly, lie between 1 and the initial size, and number at most the initial size |
| Executor.NonPositiveStart | engine/generation.py:636-644 | from a size below 1 there is at most one retry, at size 1 |
| Executor.EffectiveBatchSize | engine/generation.py:645-646 | the returned size is the one the successful call ran at, with that call's outputs, and lies between 1 and a positive initial size |
| Executor.NoRetry | engine/generation.py:629-637 | a non-OOM error is re-raised after one attempt, and OOM at size 1 fails after one attempt |
| Executor.ReleaseBeforeEveryRetry | engine/generation.py:638-644 | the executor's event log is the retry log of its attempted sizes |
| Executor.RetryLogOrder | engine/generation.py:638-644 | in a retry log every attempt but the last is followed by the size-reduction warning and then the memory release, before the next attempt |
| Executor.ShrinkExample | engine/generation.py:636-644 | out of memory above 6 sequences, a start at 10 tries 10, 8, 6 and succeeds at 6 |
| Planner.BatchPlan | engine/generation.py:470-477 | any plan it returns passes the `sum(batch_sizes) == N` assertion; its shape is in `PlanProperties` and its errors in `NonPositiveBatchSizeFails` |
| Planner.PlanProperties | engine/generation.py:470-477 | for positive N and B the plan passes the sum assertion and sums to N; all entries are B except possibly the last, which is N % B when that is not 0; the first is min(N, B); N ≤ B gives [N] |
| Planner.NonPositiveBatchSizeFails | engine/generation.py:470-475 | with N ≥ 1, batch size 0 raises on `//` and a negative size fails the sum assertion |
| Planner.PlanExample | engine/generation.py:470-477 | 20 sequences at size 6 give [6, 6, 6, 2] |
| Orchestrator.RequestedCount | engine/generation.py:425-429 | greedy decoding collapses a request for more than one sequence to 1; under sampling, or for at most one sequence, the request is kept |
| Orchestrator.ChosenBatchSize | engine/generation.py:454-456 | definition: the caller's batch size, or the estimator's result (and its error) when none is given; `FirstCallClamped` states its use |
| Orchestrator.Finish | engine/generation.py:508-512 | only a request for exactly one sequence with no texts fails; a single text exactly for a request of one, which is the first text; otherwise all texts in order |
| Orchestrator.Collect | engine/generation.py:479-506 | definition: the plan loop pass by pass; its properties are in `CollectExtends`, `CollectCalls`, `CollectLength`, `CollectCallsBounded` and `FirstBatchReused`, and `RunPlan` is proved equal to it |
| Orchestrator.GenerateTextSpec | engine/generation.py:417-512 | definition: the orchestration from configuration to reply; its properties are in `ConfigurationErrorMakesNoCall`, `FirstCallClamped`, `NoCallAboveFirst` and `GenerateTextCount`, and `GenerateText` is proved equal to it |
| Orchestrator.Rendered | engine/generation.py:491-506 | one text per sequence of the batch |
| Orchestrator.GenerateText | engine/generation.py:417-512 | the method's reply and call sizes are those of the orchestration specification |
| Orchestrator.RunPlan | engine/generation.py:479-506 | the plan loop's texts and calls are those of the pass-by-pass specification |
| Orchestrator.CollectExtends | engine/generation.py:479-506 | passes only append: earlier texts and calls stay a prefix, in plan order |
| Orchestrator.CollectCalls | engine/generation.py:481-489 | each entry after the first makes exactly one call, at its size, in plan order |
| Orchestrator.CollectLength | engine/generation.py:479-506 | with a model that returns as many sequences as asked, entries after the first add as many texts as they sum to |
| Orchestrator.FirstBatchReused | engine/generation.py:483-485 | the first entry's texts are the executor's batch, placed first, and it makes no new call |
| Orchestrator.ConfigurationErrorMakesNoCall | engine/generation.py:421-423 | a configuration error is raised before any `generate` call |
| Orchestrator.FirstCallClamped | engine/generation.py:454-466 | the first call asks for the given or estimated batch size clamped to the (possibly collapsed) request size |
| Orchestrator.CollectCallsBounded | engine/generation.py:481-489 | when no later plan entry and no earlier call exceeds a bound, no call of the passes does |
| Orchestrator.NoCallAboveFirst | engine/generation.py:455-489 | once the first call asks for at least one sequence, no executor retry or plan pass asks for more than it |
| Orchestrator.GenerateTextCount | engine/generation.py:425-512 | with a well-behaved model, a successful request for N ≥ 1 returns N texts, or one under greedy decoding, and a single text exactly when that count is 1 |

## Left out

- Device memory probing in `__init__` and the footprint getters (engine/generation.py:29-73, 116-143): these are device reads. The model's maximum footprint is part of `Types.ModelInfo`.
- Reading the device's or the machine's total memory (539-542): it is the input `totalMemory`.
- The least-squares fit and the sorting of the table (559-570): floating-point statistics from a library. The intercept, slope and r² are given as `Estimator.Fit`.
- Floating point: memory sizes, `//` and the 0.85 and 0.8 factors use exact reals. `floor(0.8 b)` is computed as `(4 b) / 5`. Infinities and NaN are not modelled.
- `parameters_count` (649-659): the parameter count is an input.
- The `generate` call, tokenizer encoding (444-447), decoding and `post_process_sequences` (491-499), and the internals of `TextPatternStopping`: these are foreign library calls, modelled as oracles. `post_process_output` only chooses between two such functions, so it is part of `Renderer`. The extended code stop patterns are the input `defaultPatterns`.
- Prompt formatting and reattachment (`format_prompt`, 431-441, 502-503), `generate_conversation`, `get_empty_conversation` and `set_prompt_template`: string formatting delegated to other modules.
- `utils.set_all_seeds` (417-418), the advisory warning of the greedy collapse (426-428), `__repr__`, `__str__`, `is_chat_model` and extra `**kwargs` to `generate`. The executor's warning and its `gc.collect` and `empty_cache` are kept only as the events `Warned` and `Released`.
- The typo assertion after `GenerationConfig.update` (315-316): the three names are fixed, so it cannot fire.
- The `parser` argument (188-233, 496-497) is passed unchanged to the stopping criterion and to post-processing, both oracles here, so it is not modelled.
- Token ids are single integers. A list of eos ids is not modelled.
- The unused `num_return_sequences` argument of `infer_best_batch_size` is not modelled.
- Orchestrator.GenerateTextCount: stated only for requests of at least one sequence and a model that returns as many sequences as asked. For other inputs the source promises no count; `GenerateText` still models them as written.
