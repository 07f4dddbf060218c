/** The multi-pass orchestrator: the batch-scheduling part of `generate_text`. */
module Orchestrator {
  import opened Wrappers
  import opened Types
  import GenConfig
  import Stopping
  import Estimator
  import Executor
  import Planner

  /** The generation parameters of a request (prompt formatting aside). */
  datatype Request = Request(
    maxNewTokens: int,
    minNewTokens: int,
    doSample: bool,
    topK: Option<int>,
    topP: Option<real>,
    temperature: real,
    numReturnSequences: int,
    batchSize: Option<int>,
    stoppingPatterns: Stopping.StoppingArg)

  /** What a request runs against besides the model: the device's total memory
      in GiB, the calibration tables, and the default extended stop patterns. */
  datatype Environment = Environment(totalMemory: real, lookup: Estimator.TableLookup, defaultPatterns: seq<string>)

  /** Decoding and post-processing of one generated sequence, prompt removed,
      given the stop patterns in force. */
  type Renderer = (Option<seq<string>>, TokenSeq) -> string

  /** One text for a request of exactly one sequence, a list otherwise. */
  datatype Reply = Single(text: string) | Many(texts: seq<string>)

  /** The reply, and the batch size of every `generate` call made, in order. */
  datatype TextRun = TextRun(reply: Result<Reply, Error>, requested: seq<int>)

  function Min(a: int, b: int): int {
    if a < b then a else b
  }

  /** Greedy decoding would give identical sequences, so it asks for one. */
  function RequestedCount(n: int, doSample: bool): (r: int)
    ensures !doSample && n > 1 ==> r == 1
    ensures doSample || n <= 1 ==> r == n
    ensures r == 1 || r == n
    ensures n >= 1 ==> 1 <= r <= n
  {
    if n > 1 && !doSample then 1 else n
  }

  /** The batch size the caller gave, or else the estimator's. */
  function ChosenBatchSize(info: ModelInfo, req: Request, inputLength: nat, env: Environment): Result<int, Error> {
    match req.batchSize
    case Some(b) => Ok(b)
    case None => Estimator.InferBestBatchSize(info, inputLength, req.maxNewTokens, env.totalMemory, env.lookup)
  }

  /** `outputs[:, input_length:]` for one sequence. */
  function Truncated(t: TokenSeq, inputLength: nat): TokenSeq {
    if inputLength <= |t| then t[inputLength..] else []
  }

  /** What stays fixed over the passes of a request. */
  datatype Pass = Pass(gen: Generator, config: GenerationConfig, stop: Stopping.StoppingSetup,
                       inputLength: nat, render: Renderer)

  /** The texts of one batch, in the batch's order. */
  function Rendered(p: Pass, outs: seq<TokenSeq>): (r: seq<string>)
    ensures |r| == |outs|
  {
    seq(|outs|, k requires 0 <= k < |outs| => p.render(p.stop.patterns, Truncated(outs[k], p.inputLength)))
  }

  datatype Collected = Collected(texts: Result<seq<string>, Error>, requested: seq<int>)

  /** The loop over the plan from entry `i` on, with the texts and the calls so far:
      entry 0 reuses the executor's `first` batch, every later entry is one
      `generate` call whose errors (out-of-memory included) are not caught. */
  function Collect(p: Pass, plan: seq<int>, i: nat, first: seq<TokenSeq>, texts: seq<string>,
                   requested: seq<int>): Collected
    requires i <= |plan|
    decreases |plan| - i
  {
    if i == |plan| then Collected(Ok(texts), requested)
    else if i == 0 then Collect(p, plan, 1, first, texts + Rendered(p, first), requested)
    else
      match p.gen(Call(|requested|, p.config, p.stop.criteria, plan[i]))
      case Generated(outs) => Collect(p, plan, i + 1, first, texts + Rendered(p, outs), requested + [plan[i]])
      case OutOfMemoryError => Collected(Err(OutOfMemory), requested + [plan[i]])
      case OtherError(code) => Collected(Err(Raised(code)), requested + [plan[i]])
  }

  /** A single text for a request of one sequence (its first text, which must exist). */
  function Finish(n: int, texts: seq<string>): (r: Result<Reply, Error>)
    ensures r.Err? <==> n == 1 && |texts| == 0
    ensures r.Ok? ==> (r.value.Single? <==> n == 1)
    ensures r.Ok? && r.value.Single? ==> r.value.text == texts[0]
    ensures r.Ok? && r.value.Many? ==> r.value.texts == texts
  {
    if n == 1 then (if |texts| == 0 then Err(EmptyOutput) else Ok(Single(texts[0])))
    else Ok(Many(texts))
  }

  /** `generate_text` from the configuration to the reply. */
  function GenerateTextSpec(info: ModelInfo, req: Request, inputLength: nat, env: Environment,
                            gen: Generator, render: Renderer): TextRun
  {
    match GenConfig.CreateGenerationConfig(info, req.maxNewTokens, req.minNewTokens, req.doSample,
                                           req.topK, req.topP, req.temperature)
    case Err(e) => TextRun(Err(e), [])
    case Ok(config) =>
      var n := RequestedCount(req.numReturnSequences, config.doSample);
      var stop := Stopping.CreateStoppingCriteria(inputLength, req.stoppingPatterns, info.extraEosTokens,
                                                  env.defaultPatterns);
      match ChosenBatchSize(info, req, inputLength, env)
      case Err(e) => TextRun(Err(e), [])
      case Ok(chosen) =>
        var first := Executor.OomSafeRun(gen, config, stop.criteria, 0, Min(chosen, n));
        match first.outcome
        case Err(e) => TextRun(Err(e), first.tried)
        case Ok(batch) =>
          match Planner.BatchPlan(n, batch.size)
          case Err(e) => TextRun(Err(e), first.tried)
          case Ok(plan) =>
            var c := Collect(Pass(gen, config, stop, inputLength, render), plan, 0, batch.outputs, [], first.tried);
            match c.texts
            case Err(e) => TextRun(Err(e), c.requested)
            case Ok(texts) => TextRun(Finish(n, texts), c.requested)
  }

  /** `generate_text` as the source runs it: configuration, collapse of greedy
      multi-sequence requests, stopping criteria, batch size (estimated only when
      not given, then clamped to the request), the OOM-safe first batch, the plan
      at the effective batch size, and one pass per remaining entry. */
  method GenerateText(info: ModelInfo, req: Request, inputLength: nat, env: Environment,
                      gen: Generator, render: Renderer)
    returns (reply: Result<Reply, Error>, requested: seq<int>)
    ensures TextRun(reply, requested) == GenerateTextSpec(info, req, inputLength, env, gen, render)
  {
    var created := GenConfig.CreateGenerationConfig(info, req.maxNewTokens, req.minNewTokens, req.doSample,
                                                   req.topK, req.topP, req.temperature);
    if created.Err? {
      return Err(created.error), [];
    }
    var config := created.value;
    var n := req.numReturnSequences;
    if n > 1 && !config.doSample {
      n := 1;
    }
    var stop := Stopping.CreateStoppingCriteria(inputLength, req.stoppingPatterns, info.extraEosTokens,
                                                env.defaultPatterns);
    var batchSize: int;
    if req.batchSize.None? {
      var estimate := Estimator.InferBestBatchSize(info, inputLength, req.maxNewTokens, env.totalMemory, env.lookup);
      if estimate.Err? {
        return Err(estimate.error), [];
      }
      batchSize := estimate.value;
    } else {
      batchSize := req.batchSize.value;
    }
    batchSize := Min(batchSize, n);
    var outcome, tried, events := Executor.OomSafeBatchGeneration(gen, config, stop.criteria, 0, batchSize);
    requested := tried;
    if outcome.Err? {
      return Err(outcome.error), requested;
    }
    var first := outcome.value.outputs;
    batchSize := outcome.value.size;
    var planned := Planner.BatchPlan(n, batchSize);
    if planned.Err? {
      return Err(planned.error), requested;
    }
    var texts;
    texts, requested := RunPlan(Pass(gen, config, stop, inputLength, render), planned.value, first, requested);
    if texts.Err? {
      return Err(texts.error), requested;
    }
    reply := Finish(n, texts.value);
  }

  /** The loop over the plan: the first entry takes the batch already generated,
      each later entry makes one `generate` call; texts are appended in plan order. */
  method RunPlan(p: Pass, plan: seq<int>, first: seq<TokenSeq>, tried: seq<int>)
    returns (texts: Result<seq<string>, Error>, requested: seq<int>)
    ensures Collected(texts, requested) == Collect(p, plan, 0, first, [], tried)
  {
    var done: seq<string> := [];
    requested := tried;
    for i := 0 to |plan|
      invariant Collect(p, plan, i, first, done, requested) == Collect(p, plan, 0, first, [], tried)
    {
      var outs: seq<TokenSeq>;
      if i == 0 {
        outs := first;
      } else {
        var out := p.gen(Call(|requested|, p.config, p.stop.criteria, plan[i]));
        requested := requested + [plan[i]];
        if out.OutOfMemoryError? {
          return Err(OutOfMemory), requested;
        } else if out.OtherError? {
          return Err(Raised(out.code)), requested;
        }
        outs := out.outputs;
      }
      done := done + Rendered(p, outs);
    }
    texts := Ok(done);
  }

  /** Passes only append: the texts and calls so far are a prefix of the final ones. */
  lemma {:induction false} CollectExtends(p: Pass, plan: seq<int>, i: nat, first: seq<TokenSeq>,
                                          texts: seq<string>, requested: seq<int>)
    requires i <= |plan|
    ensures var c := Collect(p, plan, i, first, texts, requested);
            && requested <= c.requested
            && (c.texts.Ok? ==> texts <= c.texts.value)
    decreases |plan| - i
  {
    if i < |plan| {
      if i == 0 {
        CollectExtends(p, plan, 1, first, texts + Rendered(p, first), requested);
      } else {
        var out := p.gen(Call(|requested|, p.config, p.stop.criteria, plan[i]));
        if out.Generated? {
          CollectExtends(p, plan, i + 1, first, texts + Rendered(p, out.outputs), requested + [plan[i]]);
        }
      }
    }
  }

  /** From entry `i >= 1` on, a run that succeeds makes exactly one call per
      entry, at the entry's size, in plan order. */
  lemma {:induction false} CollectCalls(p: Pass, plan: seq<int>, i: nat, first: seq<TokenSeq>,
                                        texts: seq<string>, requested: seq<int>)
    requires 1 <= i <= |plan|
    ensures var c := Collect(p, plan, i, first, texts, requested);
            c.texts.Ok? ==> c.requested == requested + plan[i..]
    decreases |plan| - i
  {
    if i < |plan| {
      var out := p.gen(Call(|requested|, p.config, p.stop.criteria, plan[i]));
      if out.Generated? {
        CollectCalls(p, plan, i + 1, first, texts + Rendered(p, out.outputs), requested + [plan[i]]);
        assert plan[i..] == [plan[i]] + plan[i + 1..];
      }
    } else {
      assert plan[i..] == [];
    }
  }

  /** From entry `i >= 1` on, with a well-behaved model, a run that succeeds adds
      as many texts as the remaining entries sum to. */
  lemma {:induction false} CollectLength(p: Pass, plan: seq<int>, i: nat, first: seq<TokenSeq>,
                                         texts: seq<string>, requested: seq<int>)
    requires WellBehaved(p.gen)
    requires 1 <= i <= |plan|
    ensures var c := Collect(p, plan, i, first, texts, requested);
            c.texts.Ok? ==> |c.texts.value| == |texts| + Planner.Sum(plan[i..])
    decreases |plan| - i
  {
    if i < |plan| {
      var call := Call(|requested|, p.config, p.stop.criteria, plan[i]);
      var out := p.gen(call);
      if out.Generated? {
        assert |out.outputs| == plan[i];
        CollectLength(p, plan, i + 1, first, texts + Rendered(p, out.outputs), requested + [plan[i]]);
        assert plan[i..][1..] == plan[i + 1..];
      }
    } else {
      assert plan[i..] == [];
    }
  }

  /** The first entry of the plan is the batch the executor already produced: it
      comes first in the output and makes no new call. */
  lemma FirstBatchReused(p: Pass, plan: seq<int>, first: seq<TokenSeq>, requested: seq<int>)
    requires |plan| >= 1
    ensures var c := Collect(p, plan, 0, first, [], requested);
            c.texts.Ok? ==> Rendered(p, first) <= c.texts.value && c.requested == requested + plan[1..]
  {
    assert [] + Rendered(p, first) == Rendered(p, first);
    CollectExtends(p, plan, 1, first, Rendered(p, first), requested);
    CollectCalls(p, plan, 1, first, Rendered(p, first), requested);
  }

  /** A configuration error is raised before any `generate` call. */
  lemma ConfigurationErrorMakesNoCall(info: ModelInfo, req: Request, inputLength: nat, env: Environment,
                                      gen: Generator, render: Renderer)
    requires GenConfig.CreateGenerationConfig(info, req.maxNewTokens, req.minNewTokens, req.doSample,
                                              req.topK, req.topP, req.temperature).Err?
    ensures var run := GenerateTextSpec(info, req, inputLength, env, gen, render);
            run.reply.Err? && run.requested == []
  {
  }

  /** The first call asks for the chosen batch size clamped to the request. */
  lemma FirstCallClamped(info: ModelInfo, req: Request, inputLength: nat, env: Environment,
                         gen: Generator, render: Renderer)
    ensures var run := GenerateTextSpec(info, req, inputLength, env, gen, render);
            var n := RequestedCount(req.numReturnSequences, req.doSample && req.temperature != 0.0);
            run.requested != [] ==>
              && ChosenBatchSize(info, req, inputLength, env).Ok?
              && run.requested[0] == Min(ChosenBatchSize(info, req, inputLength, env).value, n)
  {
    var created := GenConfig.CreateGenerationConfig(info, req.maxNewTokens, req.minNewTokens, req.doSample,
                                                   req.topK, req.topP, req.temperature);
    if created.Ok? && ChosenBatchSize(info, req, inputLength, env).Ok? {
      var config := created.value;
      var n := RequestedCount(req.numReturnSequences, config.doSample);
      var stop := Stopping.CreateStoppingCriteria(inputLength, req.stoppingPatterns, info.extraEosTokens,
                                                  env.defaultPatterns);
      var b := Min(ChosenBatchSize(info, req, inputLength, env).value, n);
      var first := Executor.OomSafeRun(gen, config, stop.criteria, 0, b);
      Executor.RetryChain(gen, config, stop.criteria, 0, b);
      if first.outcome.Ok? && Planner.BatchPlan(n, first.outcome.value.size).Ok? {
        var plan := Planner.BatchPlan(n, first.outcome.value.size).value;
        CollectExtends(Pass(gen, config, stop, inputLength, render), plan, 0, first.outcome.value.outputs, [],
                       first.tried);
      }
    }
  }

  /** No call asks for more than `bound` sequences. */
  predicate AtMost(calls: seq<int>, bound: int) {
    forall k :: 0 <= k < |calls| ==> calls[k] <= bound
  }

  /** From entry `i` on, a pass never asks for more than `bound` when no called
      entry of the plan and no earlier call does. */
  lemma {:induction false} CollectCallsBounded(p: Pass, plan: seq<int>, i: nat, first: seq<TokenSeq>,
                                               texts: seq<string>, requested: seq<int>, bound: int)
    requires i <= |plan|
    requires |plan| == 0 || AtMost(plan[1..], bound)
    requires AtMost(requested, bound)
    ensures AtMost(Collect(p, plan, i, first, texts, requested).requested, bound)
    decreases |plan| - i
  {
    if i < |plan| {
      if i == 0 {
        CollectCallsBounded(p, plan, 1, first, texts + Rendered(p, first), requested, bound);
      } else {
        var out := p.gen(Call(|requested|, p.config, p.stop.criteria, plan[i]));
        var more := requested + [plan[i]];
        assert plan[i] == plan[1..][i - 1];
        assert AtMost(more, bound) by {
          forall k | 0 <= k < |more| ensures more[k] <= bound {
            if k < |requested| { assert more[k] == requested[k]; }
          }
        }
        if out.Generated? {
          CollectCallsBounded(p, plan, i + 1, first, texts + Rendered(p, out.outputs), more, bound);
        }
      }
    }
  }

  /** Once the first call asks for at least one sequence, no later call of the
      request (executor retry or plan pass) asks for more than it. Below one an
      out-of-memory error retries at 1, which is more. */
  lemma NoCallAboveFirst(info: ModelInfo, req: Request, inputLength: nat, env: Environment,
                         gen: Generator, render: Renderer)
    ensures var run := GenerateTextSpec(info, req, inputLength, env, gen, render);
            run.requested != [] && run.requested[0] >= 1 ==> AtMost(run.requested, run.requested[0])
  {
    var run := GenerateTextSpec(info, req, inputLength, env, gen, render);
    var created := GenConfig.CreateGenerationConfig(info, req.maxNewTokens, req.minNewTokens, req.doSample,
                                                   req.topK, req.topP, req.temperature);
    if created.Ok? && ChosenBatchSize(info, req, inputLength, env).Ok? {
      var config := created.value;
      var n := RequestedCount(req.numReturnSequences, config.doSample);
      var stop := Stopping.CreateStoppingCriteria(inputLength, req.stoppingPatterns, info.extraEosTokens,
                                                  env.defaultPatterns);
      var b := Min(ChosenBatchSize(info, req, inputLength, env).value, n);
      var first := Executor.OomSafeRun(gen, config, stop.criteria, 0, b);
      Executor.RetryChain(gen, config, stop.criteria, 0, b);
      if b >= 1 {
        Executor.AttemptsDecrease(gen, config, stop.criteria, 0, b);
        assert AtMost(first.tried, b);
      }
      if first.outcome.Ok? && Planner.BatchPlan(n, first.outcome.value.size).Ok? {
        var size := first.outcome.value.size;
        var plan := Planner.BatchPlan(n, size).value;
        var p := Pass(gen, config, stop, inputLength, render);
        var c := Collect(p, plan, 0, first.outcome.value.outputs, [], first.tried);
        assert run.requested == c.requested;
        CollectExtends(p, plan, 0, first.outcome.value.outputs, [], first.tried);
        assert run.requested[0] == b;
        if b >= 1 {
          Executor.EffectiveBatchSize(gen, config, stop.criteria, 0, b);
          Planner.PlanProperties(n, size);
          assert |plan| == 0 || AtMost(plan[1..], b) by {
            forall k | 0 <= k < |plan[1..]| ensures plan[1..][k] <= b {
              assert plan[1..][k] == plan[k + 1];
            }
          }
          CollectCallsBounded(p, plan, 0, first.outcome.value.outputs, [], first.tried, b);
        }
      } else {
        assert run.requested == first.tried;
      }
    }
  }

  /** With a model that returns as many sequences as asked, a successful request
      for at least one sequence returns exactly the requested count (one under
      greedy decoding), as a single text exactly when that count is one. */
  lemma GenerateTextCount(info: ModelInfo, req: Request, inputLength: nat, env: Environment,
                          gen: Generator, render: Renderer)
    requires WellBehaved(gen)
    requires req.numReturnSequences >= 1
    ensures var run := GenerateTextSpec(info, req, inputLength, env, gen, render);
            var n := RequestedCount(req.numReturnSequences, req.doSample && req.temperature != 0.0);
            run.reply.Ok? ==>
              && (run.reply.value.Single? <==> n == 1)
              && (run.reply.value.Many? ==> |run.reply.value.texts| == n)
  {
    var created := GenConfig.CreateGenerationConfig(info, req.maxNewTokens, req.minNewTokens, req.doSample,
                                                   req.topK, req.topP, req.temperature);
    if created.Ok? && ChosenBatchSize(info, req, inputLength, env).Ok? {
      var config := created.value;
      var n := RequestedCount(req.numReturnSequences, config.doSample);
      var stop := Stopping.CreateStoppingCriteria(inputLength, req.stoppingPatterns, info.extraEosTokens,
                                                  env.defaultPatterns);
      var b := Min(ChosenBatchSize(info, req, inputLength, env).value, n);
      var first := Executor.OomSafeRun(gen, config, stop.criteria, 0, b);
      if first.outcome.Ok? && Planner.BatchPlan(n, first.outcome.value.size).Ok? {
        var size := first.outcome.value.size;
        var outs := first.outcome.value.outputs;
        Executor.EffectiveBatchSize(gen, config, stop.criteria, 0, b);
        assert |outs| == size;
        if size <= 0 {
          Planner.NonPositiveBatchSizeFails(n, size);
        }
        assert 1 <= size <= n;
        Planner.PlanProperties(n, size);
        var plan := Planner.BatchPlan(n, size).value;
        var p := Pass(gen, config, stop, inputLength, render);
        assert [] + Rendered(p, outs) == Rendered(p, outs);
        CollectLength(p, plan, 1, outs, Rendered(p, outs), first.tried);
        assert Planner.Sum(plan) == plan[0] + Planner.Sum(plan[1..]);
      }
    }
  }
}
