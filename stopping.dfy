/** Resolution of the `stopping_patterns` argument of `create_stopping_criteria`. */
module Stopping {
  import opened Wrappers
  import opened Types

  /** The dynamically typed argument: a list or tuple of patterns, a boolean,
      or anything else (`None` included). */
  datatype StoppingArg = PatternList(patterns: seq<string>) | Flag(flag: bool) | OtherValue

  /** The three ways a request can stop early. */
  datatype StoppingMode = Disabled | DefaultExtendedPatterns | ExplicitPatterns(patterns: seq<string>)

  /** The argument read as a mode: a list or tuple is taken as the patterns,
      `True` selects the default extended patterns, everything else disables them. */
  function ResolveMode(arg: StoppingArg): (m: StoppingMode)
    ensures m.Disabled? <==> arg.OtherValue? || arg == Flag(false)
    ensures m.DefaultExtendedPatterns? <==> arg == Flag(true)
    ensures m.ExplicitPatterns? ==> arg == PatternList(m.patterns)
  {
    match arg
    case PatternList(ps) => ExplicitPatterns(ps)
    case Flag(b) => if b then DefaultExtendedPatterns else Disabled
    case OtherValue => Disabled
  }

  /** What `create_stopping_criteria` returns: the criteria for `generate` and the
      patterns for post-processing. */
  datatype StoppingSetup = StoppingSetup(criteria: Option<Criteria>, patterns: Option<seq<string>>)

  /** `defaults` stands for the library's extended code stop patterns. Without
      patterns, a criterion is still built when the model has extra eos tokens. */
  function CreateStoppingCriteria(inputLength: nat, arg: StoppingArg, extraEos: seq<string>,
                                  defaults: seq<string>): (r: StoppingSetup)
    ensures r.patterns == match ResolveMode(arg)
                          case Disabled => None
                          case DefaultExtendedPatterns => Some(defaults)
                          case ExplicitPatterns(ps) => Some(ps)
    ensures r.criteria.None? <==> ResolveMode(arg).Disabled? && |extraEos| == 0
    ensures r.criteria.Some? ==> r.criteria.value == TextPatternStopping(inputLength, r.patterns, extraEos)
  {
    match ResolveMode(arg)
    case ExplicitPatterns(ps) =>
      StoppingSetup(Some(TextPatternStopping(inputLength, Some(ps), extraEos)), Some(ps))
    case DefaultExtendedPatterns =>
      StoppingSetup(Some(TextPatternStopping(inputLength, Some(defaults), extraEos)), Some(defaults))
    case Disabled =>
      if |extraEos| == 0 then StoppingSetup(None, None)
      else StoppingSetup(Some(TextPatternStopping(inputLength, None, extraEos)), None)
  }
}
