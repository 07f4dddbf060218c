/** Entities shared by the scheduler: errors, the generation configuration,
    the stopping criteria handed to `generate`, and the `generate` oracle. */
module Types {
  import opened Wrappers

  /** The three places where a special token id may be declared, most specific
      first: the model's generation defaults, its static configuration, the tokenizer. */
  datatype TokenIdSources = TokenIdSources(generationConfig: Option<int>, modelConfig: Option<int>, tokenizer: Option<int>)

  /** What the scheduler reads from the wrapped model; none of it changes during a request.
      `parameterCount` is in billions, `maxMemoryFootprint` in GiB. */
  datatype ModelInfo = ModelInfo(
    eos: TokenIdSources,
    bos: TokenIdSources,
    pad: TokenIdSources,
    quantization8Bits: bool,
    quantization4Bits: bool,
    dtypeName: string,
    parameterCount: real,
    maxMemoryFootprint: real,
    extraEosTokens: seq<string>)

  /** A generated sequence of token ids (prompt included, as `generate` returns it). */
  type TokenSeq = seq<int>

  /** Everything the scheduler can raise. */
  datatype Error =
    | MissingEosTokenId                  // no level declares an end-of-sequence id
    | MissingBosTokenId                  // no level declares a beginning-of-sequence id
    | DtypeWithoutDot                    // `str(dtype).split('.', 1)[1]` raises IndexError
    | ZeroDivision                       // a Python `//` or `%` of integers by zero
    | NonFiniteEstimate                  // `int()` of an infinite or NaN float quotient
    | PlanSumMismatch                    // `assert sum(batch_sizes) == num_return_sequences` fails
    | OutOfMemoryAtBatchSizeOne          // the executor gives up: OOM even with one sequence
    | OutOfMemory                        // an OOM raised by a later batch, which is not retried
    | Raised(code: int)                  // any other error of `generate`, re-raised unchanged
    | EmptyOutput                        // `generated_text[0]` on an empty list

  /** The resolved configuration passed to each `generate` call. The sampling
      parameters are present exactly when sampling is on. */
  datatype Sampling = Sampling(topK: Option<int>, topP: Option<real>, temperature: real)

  datatype GenerationConfig = GenerationConfig(
    eosTokenId: int,
    bosTokenId: int,
    padTokenId: int,
    maxNewTokens: int,
    minNewTokens: int,
    doSample: bool,
    sampling: Option<Sampling>)

  /** The text-pattern stopping criterion: the patterns it watches (none when
      only the extra eos tokens are watched) and the extra eos tokens. */
  datatype Criteria = TextPatternStopping(inputLength: nat, patterns: Option<seq<string>>, extraEos: seq<string>)

  /** One call of the model's `generate`: its position among the calls of the
      request, and the arguments it receives besides the (fixed) input. */
  datatype Call = Call(index: nat, config: GenerationConfig, criteria: Option<Criteria>, numReturnSequences: int)

  /** What one `generate` call does: return token sequences, run out of
      device memory, or raise any other error. */
  datatype GenOutcome = Generated(outputs: seq<TokenSeq>) | OutOfMemoryError | OtherError(code: int)

  /** The model's `generate`, an oracle the scheduler cannot see into. */
  type Generator = Call -> GenOutcome

  /** A generator that returns as many sequences as it was asked for whenever it succeeds. */
  ghost predicate WellBehaved(gen: Generator) {
    forall c: Call :: gen(c).Generated? ==> |gen(c).outputs| == c.numReturnSequences
  }
}
