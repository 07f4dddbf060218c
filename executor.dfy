/** The OOM-tolerant executor (`oom_safe_batch_generation`): run `generate` and,
    on an out-of-memory error, release memory and retry with 80% of the batch. */
module Executor {
  import opened Wrappers
  import opened Types

  /** `max(1, floor(0.8 * b))`, computed exactly on integers. */
  function Shrink(b: int): (r: int)
    ensures r >= 1
    ensures r == 1 || r as real <= 0.8 * b as real
    ensures 0.8 * b as real < (r + 1) as real
    ensures b >= 2 ==> r < b
  {
    var f := (4 * b) / 5;
    if f < 1 then 1 else f
  }

  /** Bounds the number of retries: it falls at every retry (a non-positive
      size retries at 1). */
  function Budget(b: int): nat {
    if b >= 1 then b else 2
  }

  /** The side effects of the executor, in the order they happen. */
  datatype Event = Attempted(size: int) | Warned(from: int, to: int) | Released

  /** A successful batch and the batch size it was generated at. */
  datatype Batch = Batch(outputs: seq<TokenSeq>, size: int)

  /** The outcome, the batch sizes tried in order (one `generate` call each),
      and the event log. */
  datatype Execution = Execution(outcome: Result<Batch, Error>, tried: seq<int>, events: seq<Event>)

  /** The executor as the source writes it: a tail recursion, the `index`-th
      call of the request being made at batch size `b`. */
  function OomSafeRun(gen: Generator, config: GenerationConfig, criteria: Option<Criteria>,
                      index: nat, b: int): Execution
    decreases Budget(b)
  {
    match gen(Call(index, config, criteria, b))
    case Generated(outs) => Execution(Ok(Batch(outs, b)), [b], [Attempted(b)])
    case OtherError(code) => Execution(Err(Raised(code)), [b], [Attempted(b)])
    case OutOfMemoryError =>
      if b == 1 then Execution(Err(OutOfMemoryAtBatchSizeOne), [b], [Attempted(b)])
      else
        var next := Shrink(b);
        var rest := OomSafeRun(gen, config, criteria, index + 1, next);
        Execution(rest.outcome, [b] + rest.tried, [Attempted(b), Warned(b, next), Released] + rest.events)
  }

  /** `x` preceded by the attempts and events already made. */
  function After(tried: seq<int>, events: seq<Event>, x: Execution): Execution {
    Execution(x.outcome, tried + x.tried, events + x.events)
  }

  /** The executor as a loop. */
  method OomSafeBatchGeneration(gen: Generator, config: GenerationConfig, criteria: Option<Criteria>,
                                index: nat, batchSize: int)
    returns (outcome: Result<Batch, Error>, tried: seq<int>, events: seq<Event>)
    ensures Execution(outcome, tried, events) == OomSafeRun(gen, config, criteria, index, batchSize)
  {
    var b, i := batchSize, index;
    tried, events := [], [];
    while true
      invariant OomSafeRun(gen, config, criteria, index, batchSize)
                == After(tried, events, OomSafeRun(gen, config, criteria, i, b))
      decreases Budget(b)
    {
      ghost var here := OomSafeRun(gen, config, criteria, i, b);
      var out := gen(Call(i, config, criteria, b));
      if out.Generated? {
        outcome, tried, events := Ok(Batch(out.outputs, b)), tried + [b], events + [Attempted(b)];
        return;
      } else if out.OtherError? {
        outcome, tried, events := Err(Raised(out.code)), tried + [b], events + [Attempted(b)];
        return;
      } else if b == 1 {
        outcome, tried, events := Err(OutOfMemoryAtBatchSizeOne), tried + [b], events + [Attempted(b)];
        return;
      }
      var next := Shrink(b);
      ghost var rest := OomSafeRun(gen, config, criteria, i + 1, next);
      assert here == Execution(rest.outcome, [b] + rest.tried, [Attempted(b), Warned(b, next), Released] + rest.events);
      AfterStep(tried, events, [b], [Attempted(b), Warned(b, next), Released], rest);
      tried, events := tried + [b], events + [Attempted(b), Warned(b, next), Released];
      b, i := next, i + 1;
    }
  }

  lemma AfterStep(tried: seq<int>, events: seq<Event>, t: seq<int>, e: seq<Event>, x: Execution)
    ensures After(tried, events, Execution(x.outcome, t + x.tried, e + x.events))
            == After(tried + t, events + e, x)
  {
    assert tried + (t + x.tried) == (tried + t) + x.tried;
    assert events + (e + x.events) == (events + e) + x.events;
  }

  /** One retry step of the recursion. */
  lemma RetryStep(gen: Generator, config: GenerationConfig, criteria: Option<Criteria>, index: nat, b: int)
    requires gen(Call(index, config, criteria, b)).OutOfMemoryError? && b != 1
    ensures OomSafeRun(gen, config, criteria, index, b)
            == After([b], [Attempted(b), Warned(b, Shrink(b)), Released],
                     OomSafeRun(gen, config, criteria, index + 1, Shrink(b)))
  {
  }

  /** The recursion ends after one attempt unless that attempt ran out of memory above size 1. */
  lemma FinalStep(gen: Generator, config: GenerationConfig, criteria: Option<Criteria>, index: nat, b: int)
    requires !(gen(Call(index, config, criteria, b)).OutOfMemoryError? && b != 1)
    ensures var x := OomSafeRun(gen, config, criteria, index, b);
            x.tried == [b] && x.events == [Attempted(b)]
  {
  }

  /** Every attempt of `t` but the last ran out of memory at a size other than 1,
      and the next one is at the shrunk size. */
  ghost predicate ShrinksAfterEachOom(gen: Generator, config: GenerationConfig, criteria: Option<Criteria>,
                                      index: nat, t: seq<int>)
  {
    forall k :: 0 <= k < |t| - 1 ==>
      && gen(Call(index + k, config, criteria, t[k])).OutOfMemoryError?
      && t[k] != 1
      && t[k + 1] == Shrink(t[k])
  }

  /** What the last attempt of `t` decides. */
  ghost predicate LastAttemptDecides(gen: Generator, config: GenerationConfig, criteria: Option<Criteria>,
                                     index: nat, t: seq<int>, outcome: Result<Batch, Error>)
    requires |t| >= 1
  {
    var last := t[|t| - 1];
    match gen(Call(index + |t| - 1, config, criteria, last))
    case Generated(outs) => outcome == Ok(Batch(outs, last))
    case OtherError(code) => outcome == Err(Raised(code))
    case OutOfMemoryError => last == 1 && outcome == Err(OutOfMemoryAtBatchSizeOne)
  }

  /** The retries of the executor: the first attempt is at the given size and
      every attempt but the last ran out of memory at a size other than 1 and
      was followed by one at the shrunk size. */
  lemma {:induction false} RetryChain(gen: Generator, config: GenerationConfig, criteria: Option<Criteria>,
                                      index: nat, b: int)
    ensures var x := OomSafeRun(gen, config, criteria, index, b);
            && |x.tried| >= 1 && x.tried[0] == b
            && ShrinksAfterEachOom(gen, config, criteria, index, x.tried)
    decreases Budget(b)
  {
    var x := OomSafeRun(gen, config, criteria, index, b);
    if gen(Call(index, config, criteria, b)).OutOfMemoryError? && b != 1 {
      var next := Shrink(b);
      RetryStep(gen, config, criteria, index, b);
      RetryChain(gen, config, criteria, index + 1, next);
      var rest := OomSafeRun(gen, config, criteria, index + 1, next);
      assert x.tried == [b] + rest.tried;
      forall k | 1 <= k < |x.tried| - 1
        ensures gen(Call(index + k, config, criteria, x.tried[k])).OutOfMemoryError?
        ensures x.tried[k] != 1 && x.tried[k + 1] == Shrink(x.tried[k])
      {
        assert x.tried[k] == rest.tried[k - 1] && x.tried[k + 1] == rest.tried[k];
        assert index + k == (index + 1) + (k - 1);
      }
    } else {
      FinalStep(gen, config, criteria, index, b);
    }
  }

  /** The last attempt decides the outcome: the batch it generated, the error it
      raised, or, only at size 1, the unrecoverable out-of-memory error. */
  lemma {:induction false} LastAttempt(gen: Generator, config: GenerationConfig, criteria: Option<Criteria>,
                                       index: nat, b: int)
    ensures var x := OomSafeRun(gen, config, criteria, index, b);
            |x.tried| >= 1 && LastAttemptDecides(gen, config, criteria, index, x.tried, x.outcome)
    decreases Budget(b)
  {
    if gen(Call(index, config, criteria, b)).OutOfMemoryError? && b != 1 {
      var next := Shrink(b);
      RetryStep(gen, config, criteria, index, b);
      LastAttempt(gen, config, criteria, index + 1, next);
      var rest := OomSafeRun(gen, config, criteria, index + 1, next);
      LastAttemptShift(gen, config, criteria, index, b, rest.tried, rest.outcome);
    } else {
      FinalStep(gen, config, criteria, index, b);
    }
  }

  /** Prefixing an attempt, one call earlier, does not change what the last attempt decides. */
  lemma LastAttemptShift(gen: Generator, config: GenerationConfig, criteria: Option<Criteria>,
                         index: nat, b: int, t: seq<int>, outcome: Result<Batch, Error>)
    requires |t| >= 1 && LastAttemptDecides(gen, config, criteria, index + 1, t, outcome)
    ensures LastAttemptDecides(gen, config, criteria, index, [b] + t, outcome)
  {
    assert ([b] + t)[|t|] == t[|t| - 1];
    assert index + |[b] + t| - 1 == (index + 1) + |t| - 1;
  }

  /** Starting from a positive size, the attempted sizes fall strictly, stay
      between 1 and the initial size, and there are at most that many attempts. */
  lemma {:induction false} AttemptsDecrease(gen: Generator, config: GenerationConfig, criteria: Option<Criteria>,
                                            index: nat, b: int)
    requires b >= 1
    ensures var t := OomSafeRun(gen, config, criteria, index, b).tried;
            && |t| <= b
            && (forall k :: 0 <= k < |t| ==> 1 <= t[k] <= b)
            && (forall k, l :: 0 <= k < l < |t| ==> t[l] < t[k])
    decreases b
  {
    var t := OomSafeRun(gen, config, criteria, index, b).tried;
    if gen(Call(index, config, criteria, b)).OutOfMemoryError? && b != 1 {
      var next := Shrink(b);
      RetryStep(gen, config, criteria, index, b);
      AttemptsDecrease(gen, config, criteria, index + 1, next);
      var rest := OomSafeRun(gen, config, criteria, index + 1, next).tried;
      assert t == [b] + rest;
      forall k, l | 0 <= k < l < |t| ensures t[l] < t[k] {
        if k > 0 {
          assert t[k] == rest[k - 1] && t[l] == rest[l - 1];
        } else {
          assert t[l] == rest[l - 1];
        }
      }
    } else {
      FinalStep(gen, config, criteria, index, b);
    }
  }

  /** Starting from a size below 1, there is at most one retry, at size 1. */
  lemma NonPositiveStart(gen: Generator, config: GenerationConfig, criteria: Option<Criteria>,
                         index: nat, b: int)
    requires b < 1
    ensures var t := OomSafeRun(gen, config, criteria, index, b).tried;
            t == [b] || (|t| == 2 && t[0] == b && t[1] == 1)
  {
    if gen(Call(index, config, criteria, b)).OutOfMemoryError? {
      assert Shrink(b) == 1;
    }
  }

  /** The returned batch size is the one the last, successful call ran at; from
      a positive initial size it lies between 1 and that size, otherwise it is
      the initial size or 1. */
  lemma EffectiveBatchSize(gen: Generator, config: GenerationConfig, criteria: Option<Criteria>,
                           index: nat, b: int)
    ensures var x := OomSafeRun(gen, config, criteria, index, b);
            x.outcome.Ok? ==>
              && x.outcome.value.size == x.tried[|x.tried| - 1]
              && gen(Call(index + |x.tried| - 1, config, criteria, x.outcome.value.size))
                 == Generated(x.outcome.value.outputs)
              && (b >= 1 ==> 1 <= x.outcome.value.size <= b)
              && (b < 1 ==> x.outcome.value.size == b || x.outcome.value.size == 1)
  {
    LastAttempt(gen, config, criteria, index, b);
    if b >= 1 {
      AttemptsDecrease(gen, config, criteria, index, b);
    } else {
      NonPositiveStart(gen, config, criteria, index, b);
    }
  }

  /** No retry happens after an error other than out-of-memory, nor after an
      out-of-memory error at size 1. */
  lemma NoRetry(gen: Generator, config: GenerationConfig, criteria: Option<Criteria>, index: nat, b: int)
    ensures gen(Call(index, config, criteria, b)).OtherError? ==>
              OomSafeRun(gen, config, criteria, index, b)
              == Execution(Err(Raised(gen(Call(index, config, criteria, b)).code)), [b], [Attempted(b)])
    ensures b == 1 && gen(Call(index, config, criteria, b)).OutOfMemoryError? ==>
              OomSafeRun(gen, config, criteria, index, b)
              == Execution(Err(OutOfMemoryAtBatchSizeOne), [b], [Attempted(b)])
  {
  }

  /** The log of a run that tried the sizes `t`: each attempt, and between two
      attempts the size-reduction warning followed by the release of device memory. */
  function RetryLog(t: seq<int>): seq<Event> {
    if |t| <= 1 then (if t == [] then [] else [Attempted(t[0])])
    else [Attempted(t[0]), Warned(t[0], t[1]), Released] + RetryLog(t[1..])
  }

  /** The executor's log is the retry log of the sizes it tried. */
  lemma {:induction false} ReleaseBeforeEveryRetry(gen: Generator, config: GenerationConfig,
                                                   criteria: Option<Criteria>, index: nat, b: int)
    ensures var x := OomSafeRun(gen, config, criteria, index, b);
            x.events == RetryLog(x.tried)
    decreases Budget(b)
  {
    if gen(Call(index, config, criteria, b)).OutOfMemoryError? && b != 1 {
      var next := Shrink(b);
      RetryStep(gen, config, criteria, index, b);
      ReleaseBeforeEveryRetry(gen, config, criteria, index + 1, next);
      RetryChain(gen, config, criteria, index + 1, next);
      var rest := OomSafeRun(gen, config, criteria, index + 1, next);
      assert ([b] + rest.tried)[1..] == rest.tried;
    } else {
      FinalStep(gen, config, criteria, index, b);
    }
  }

  /** In a retry log, attempt `k` sits at position `3k`; it is followed, unless it
      is the last, by the warning from its size to the next and then the release. */
  lemma {:induction false} RetryLogOrder(t: seq<int>)
    requires |t| >= 1
    ensures var log := RetryLog(t);
            && |log| == 3 * |t| - 2
            && (forall k :: 0 <= k < |t| ==> log[3 * k] == Attempted(t[k]))
            && (forall k :: 0 <= k < |t| - 1 ==>
                  log[3 * k + 1] == Warned(t[k], t[k + 1]) && log[3 * k + 2] == Released)
  {
    if |t| > 1 {
      var rest := RetryLog(t[1..]);
      RetryLogOrder(t[1..]);
      var log := RetryLog(t);
      assert log == [Attempted(t[0]), Warned(t[0], t[1]), Released] + rest;
      forall k | 1 <= k < |t| ensures log[3 * k] == Attempted(t[k]) {
        assert log[3 * k] == rest[3 * (k - 1)];
      }
      forall k | 1 <= k < |t| - 1
        ensures log[3 * k + 1] == Warned(t[k], t[k + 1]) && log[3 * k + 2] == Released
      {
        assert log[3 * k + 1] == rest[3 * (k - 1) + 1];
        assert log[3 * k + 2] == rest[3 * (k - 1) + 2];
      }
    }
  }

  /** A generator that runs out of memory above `limit` sequences and otherwise
      returns that many empty sequences. */
  function OutOfMemoryAbove(limit: int): Generator {
    (c: Call) => if c.numReturnSequences > limit || c.numReturnSequences < 0 then OutOfMemoryError
                 else Generated(seq(c.numReturnSequences, _ => []))
  }

  /** Failing at 10 and at 8, the executor succeeds at 6. */
  lemma ShrinkExample(config: GenerationConfig, criteria: Option<Criteria>)
    ensures var x := OomSafeRun(OutOfMemoryAbove(6), config, criteria, 0, 10);
            x.tried == [10, 8, 6] && x.outcome.Ok? && x.outcome.value.size == 6
  {
    assert Shrink(10) == 8 && Shrink(8) == 6;
    var x2 := OomSafeRun(OutOfMemoryAbove(6), config, criteria, 2, 6);
    assert x2.tried == [6];
    var x1 := OomSafeRun(OutOfMemoryAbove(6), config, criteria, 1, 8);
    assert x1.tried == [8, 6];
  }
}
