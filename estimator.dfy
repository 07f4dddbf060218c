/** The batch-size estimator: `infer_best_batch_size` and its parameter-count
    heuristic. Memory is in GiB and modelled with exact reals. */
module Estimator {
  import opened Wrappers
  import opened Types
  import GenConfig

  /** A least-squares fit of a calibration table (memory against sequence
      length) with the table's scaling flag. The fit itself is computed by a
      statistics library and is taken as given. */
  datatype Fit = Fit(intercept: real, slope: real, rSquared: real, onlyScaleWithInputSize: bool)

  /** Loading the calibration table of the model for a precision category;
      `None` when the file does not exist. */
  type TableLookup = string -> Option<Fit>

  /** The share of the device memory the scheduler allows itself. */
  const MemoryShare: real := 0.85
  /** The goodness of fit below which the table is not trusted. */
  const MinRSquared: real := 0.95

  /** Python's `a // b` on floats, for a non-zero divisor. */
  function FloorDiv(a: real, b: real): int
    requires b != 0.0
  {
    (a / b).Floor
  }

  /** `//` rounds toward minus infinity, whatever the signs. */
  lemma FloorDivBounds(a: real, b: real)
    requires b != 0.0
    ensures b > 0.0 ==> FloorDiv(a, b) as real * b <= a < (FloorDiv(a, b) + 1) as real * b
    ensures b < 0.0 ==> (FloorDiv(a, b) + 1) as real * b < a <= FloorDiv(a, b) as real * b
  {
    var q := a / b;
    var f := q.Floor as real;
    var g := (q.Floor + 1) as real;
    assert f <= q < g;
    assert FloorDiv(a, b) as real == f && (FloorDiv(a, b) + 1) as real == g;
    DivMul(a, b);
    assert q * b == a;
    if b > 0.0 {
      ScaleUp(f, q, b);
      ScaleUpStrict(q, g, b);
      assert f * b <= a;
      assert a < g * b;
    } else {
      ScaleDown(f, q, b);
      ScaleDownStrict(q, g, b);
    }
  }

  lemma DivMul(a: real, b: real)
    requires b != 0.0
    ensures (a / b) * b == a
  {
  }

  lemma ScaleUp(x: real, y: real, c: real)
    requires x <= y && c > 0.0
    ensures x * c <= y * c
  {
  }

  lemma ScaleUpStrict(x: real, y: real, c: real)
    requires x < y && c > 0.0
    ensures x * c < y * c
  {
  }

  lemma ScaleDown(x: real, y: real, c: real)
    requires x <= y && c < 0.0
    ensures x * c >= y * c
  {
  }

  lemma ScaleDownStrict(x: real, y: real, c: real)
    requires x < y && c < 0.0
    ensures x * c > y * c
  {
  }

  /** The memory one sequence is assumed to need, by band of parameter count
      (in billions): below 5, below 10, below 20, and above. */
  function PerSequenceMemory(parameterCount: real): (c: real)
    ensures parameterCount < 5.0 ==> c == 0.5
    ensures 5.0 <= parameterCount < 10.0 ==> c == 1.0
    ensures 10.0 <= parameterCount < 20.0 ==> c == 2.0
    ensures 20.0 <= parameterCount ==> c == 3.0
  {
    if parameterCount < 5.0 then 0.5
    else if parameterCount < 10.0 then 1.0
    else if parameterCount < 20.0 then 2.0
    else 3.0
  }

  /** The heuristic estimate: as many sequences as fit in the available memory
      at the band's per-sequence cost, and never fewer than one (even when the
      available memory is negative). */
  function InferBestBatchSizeByHeuristics(parameterCount: real, availableMemory: real): (r: int)
    ensures r >= 1
    ensures availableMemory < (r + 1) as real * PerSequenceMemory(parameterCount)
    ensures r == 1 || r as real * PerSequenceMemory(parameterCount) <= availableMemory
  {
    var cost := PerSequenceMemory(parameterCount);
    FloorDivBounds(availableMemory, cost);
    var batch := FloorDiv(availableMemory, cost);
    if batch < 1 then 1 else batch
  }

  /** The memory left for generation on a device of `totalMemory` GiB. */
  function AvailableMemory(totalMemory: real, modelFootprint: real): real {
    totalMemory * MemoryShare - modelFootprint
  }

  /** The length the memory of one sequence is predicted at. */
  function PredictedLength(fit: Fit, inputSize: int, maxNewTokens: int): int {
    if fit.onlyScaleWithInputSize then inputSize else inputSize + maxNewTokens
  }

  /** The memory the fit predicts for one sequence. */
  function PredictedMemory(fit: Fit, inputSize: int, maxNewTokens: int): real {
    fit.intercept + fit.slope * PredictedLength(fit, inputSize, maxNewTokens) as real
  }

  /** Whether the calibration table is used: it exists and fits well enough. */
  predicate UsesFit(table: Option<Fit>) {
    table.Some? && table.value.rSquared >= MinRSquared
  }

  /** `infer_best_batch_size`: the table path divides the available memory by the
      predicted per-sequence memory, without any lower bound; a missing table or
      a poor fit falls back to the heuristic; the dtype category naming the
      table can raise, and so can a predicted memory of exactly zero (the quotient
      is then not finite). */
  function InferBestBatchSize(info: ModelInfo, inputSize: int, maxNewTokens: int, totalMemory: real,
                              lookup: TableLookup): (r: Result<int, Error>)
    ensures GenConfig.DtypeCategory(info).Err? ==> r == Err(GenConfig.DtypeCategory(info).error)
    ensures GenConfig.DtypeCategory(info).Ok? ==>
              var table := lookup(GenConfig.DtypeCategory(info).value);
              var available := AvailableMemory(totalMemory, info.maxMemoryFootprint);
              && (!UsesFit(table) ==> r == Ok(InferBestBatchSizeByHeuristics(info.parameterCount, available)))
              && (UsesFit(table) ==>
                    var need := PredictedMemory(table.value, inputSize, maxNewTokens);
                    && (r.Err? <==> need == 0.0)
                    && (r.Err? ==> r.error == NonFiniteEstimate)
                    && (need > 0.0 && r.Ok? ==> r.value as real * need <= available < (r.value + 1) as real * need)
                    && (need < 0.0 && r.Ok? ==> (r.value + 1) as real * need < available <= r.value as real * need))
  {
    var available := AvailableMemory(totalMemory, info.maxMemoryFootprint);
    match GenConfig.DtypeCategory(info)
    case Err(e) => Err(e)
    case Ok(category) =>
      var table := lookup(category);
      if !UsesFit(table) then Ok(InferBestBatchSizeByHeuristics(info.parameterCount, available))
      else
        var need := PredictedMemory(table.value, inputSize, maxNewTokens);
        // A float64 `//` by zero gives inf or NaN, which `int()` refuses.
        if need == 0.0 then Err(NonFiniteEstimate)
        else
          FloorDivBounds(available, need);
          Ok(FloorDiv(available, need))
  }

  /** Without a table, a 7-billion-parameter model with 10 GiB available gets 10. */
  lemma HeuristicExample()
    ensures InferBestBatchSizeByHeuristics(7.0, 10.0) == 10
  {
    assert (10.0 / 1.0).Floor == 10;
  }

  /** A table {10: 2.0, 20: 4.0} fits exactly (memory = 0.2 x length); at length
      10 + 10 it predicts 4 GiB a sequence, so 20 GiB available gives 5. */
  lemma CalibratedExample(info: ModelInfo, lookup: TableLookup)
    requires !info.quantization4Bits && info.quantization8Bits
    requires lookup("int8") == Some(Fit(0.0, 0.2, 1.0, false))
    requires info.maxMemoryFootprint == 14.0
    ensures InferBestBatchSize(info, 10, 10, 40.0, lookup) == Ok(5)
  {
    assert PredictedMemory(Fit(0.0, 0.2, 1.0, false), 10, 10) == 4.0;
    assert AvailableMemory(40.0, 14.0) == 20.0;
    assert (20.0 / 4.0).Floor == 5;
  }
}
