/** Resolution of the generation configuration and of the dtype category
    (`create_generation_config` and `dtype_category` of `HFModel`). */
module GenConfig {
  import opened Wrappers
  import opened Types

  /** The levels of a token id, in the order they are consulted. */
  function Levels(s: TokenIdSources): seq<Option<int>> {
    [s.generationConfig, s.modelConfig, s.tokenizer]
  }

  /** The first declared value among `levels`; none when no level declares one. */
  function FirstDeclared<T>(levels: seq<Option<T>>): (r: Option<T>)
    ensures r.None? <==> forall i :: 0 <= i < |levels| ==> levels[i].None?
  {
    if levels == [] then None
    else if levels[0].Some? then levels[0]
    else FirstDeclared(levels[1..])
  }

  /** Precedence: a declared level wins over every later one. */
  lemma {:induction false} FirstDeclaredWins<T>(levels: seq<Option<T>>, i: nat)
    requires i < |levels| && levels[i].Some?
    requires forall j :: 0 <= j < i ==> levels[j].None?
    ensures FirstDeclared(levels) == levels[i]
  {
    if i > 0 {
      assert levels[0].None?;
      forall j | 0 <= j < i - 1 ensures levels[1..][j].None? {
        assert levels[1..][j] == levels[j + 1];
      }
      FirstDeclaredWins(levels[1..], i - 1);
    }
  }

  /** The configuration passed to every `generate` call of a request.
      A temperature of exactly zero switches sampling off; eos and bos must be
      declared somewhere (eos is checked first); pad falls back to eos; the
      sampling parameters are attached only when sampling is on. */
  function CreateGenerationConfig(info: ModelInfo, maxNewTokens: int, minNewTokens: int, doSample: bool,
                                  topK: Option<int>, topP: Option<real>, temperature: real): (r: Result<GenerationConfig, Error>)
    ensures r == Err(MissingEosTokenId) <==> FirstDeclared(Levels(info.eos)).None?
    ensures r == Err(MissingBosTokenId) <==>
              FirstDeclared(Levels(info.eos)).Some? && FirstDeclared(Levels(info.bos)).None?
    ensures r.Err? ==> r.error.MissingEosTokenId? || r.error.MissingBosTokenId?
    ensures r.Ok? ==>
              && FirstDeclared(Levels(info.eos)) == Some(r.value.eosTokenId)
              && FirstDeclared(Levels(info.bos)) == Some(r.value.bosTokenId)
              && (FirstDeclared(Levels(info.pad)).Some? ==> FirstDeclared(Levels(info.pad)) == Some(r.value.padTokenId))
              && (FirstDeclared(Levels(info.pad)).None? ==> r.value.padTokenId == r.value.eosTokenId)
              && r.value.maxNewTokens == maxNewTokens && r.value.minNewTokens == minNewTokens
              && r.value.doSample == (doSample && temperature != 0.0)
              && (r.value.sampling.Some? <==> r.value.doSample)
              && (r.value.sampling.Some? ==> r.value.sampling.value == Sampling(topK, topP, temperature))
  {
    var sample := if temperature == 0.0 then false else doSample;
    match FirstDeclared(Levels(info.eos))
    case None => Err(MissingEosTokenId)
    case Some(eos) =>
      match FirstDeclared(Levels(info.bos))
      case None => Err(MissingBosTokenId)
      case Some(bos) =>
        var pad := match FirstDeclared(Levels(info.pad)) case Some(p) => p case None => eos;
        var sampling := if sample then Some(Sampling(topK, topP, temperature)) else None;
        Ok(GenerationConfig(eos, bos, pad, maxNewTokens, minNewTokens, sample, sampling))
  }

  /** The position of the first `c` in `s`, if any. */
  function FirstIndexOf(s: string, c: char): (r: Option<nat>)
    ensures r.None? <==> c !in s
    ensures r.Some? ==> r.value < |s| && s[r.value] == c && c !in s[..r.value]
  {
    if s == [] then None
    else if s[0] == c then Some(0)
    else
      match FirstIndexOf(s[1..], c)
      case None => None
      case Some(i) =>
        assert s[..i + 1] == [s[0]] + s[1..][..i];
        Some(i + 1)
  }

  /** `t` is what follows the first '.' of `s`. */
  ghost predicate AfterFirstDot(s: string, t: string) {
    |t| < |s| && s[|s| - |t| - 1] == '.' && '.' !in s[..|s| - |t| - 1] && s[|s| - |t|..] == t
  }

  /** The precision category naming a calibration table: 4-bit quantization wins
      over 8-bit, otherwise the dtype's name after its first '.' ("torch.float16"
      gives "float16"); a name without a '.' raises. */
  function DtypeCategory(info: ModelInfo): (r: Result<string, Error>)
    ensures info.quantization4Bits ==> r == Ok("int4")
    ensures !info.quantization4Bits && info.quantization8Bits ==> r == Ok("int8")
    ensures !info.quantization4Bits && !info.quantization8Bits ==>
              && (r.Ok? <==> '.' in info.dtypeName)
              && (r.Ok? ==> AfterFirstDot(info.dtypeName, r.value))
              && (r.Err? ==> r.error == DtypeWithoutDot)
  {
    if info.quantization4Bits then Ok("int4")
    else if info.quantization8Bits then Ok("int8")
    else
      match FirstIndexOf(info.dtypeName, '.')
      case None => Err(DtypeWithoutDot)
      case Some(i) => Ok(info.dtypeName[i + 1..])
  }
}
