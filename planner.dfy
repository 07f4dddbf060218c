/** The multi-pass batch plan of `generate_text`: `[B] * (N // B)` followed by the
    remainder `N % B` when it is not zero, with Python's integer semantics. */
module Planner {
  import opened Wrappers
  import opened Types

  /** Python's `a // b`: rounds toward minus infinity. */
  function PyFloorDiv(a: int, b: int): int
    requires b != 0
  {
    if b > 0 then a / b else (-a) / (-b)
  }

  /** Python's `a % b`: takes the sign of the divisor. */
  function PyMod(a: int, b: int): int
    requires b != 0
  {
    a - b * PyFloorDiv(a, b)
  }

  /** Python's `[x] * k`: empty when `k` is not positive. */
  function Repeat(x: int, k: int): seq<int> {
    seq(if k > 0 then k else 0, _ => x)
  }

  function Sum(s: seq<int>): int {
    if s == [] then 0 else s[0] + Sum(s[1..])
  }

  lemma {:induction false} SumConcat(a: seq<int>, b: seq<int>)
    ensures Sum(a + b) == Sum(a) + Sum(b)
  {
    if a != [] {
      assert (a + b)[1..] == a[1..] + b;
      SumConcat(a[1..], b);
    } else {
      assert a + b == b;
    }
  }

  lemma {:induction false} SumRepeat(x: int, k: nat)
    ensures Sum(Repeat(x, k)) == x * k
  {
    if k > 0 {
      assert Repeat(x, k)[1..] == Repeat(x, k - 1);
      SumRepeat(x, k - 1);
    }
  }

  /** The batch sizes of a request for `n` sequences at batch size `b`, as the
      source computes them for any integers: a zero batch size raises on `//`,
      and the plan must pass the `sum(batch_sizes) == n` assertion. */
  function BatchPlan(n: int, b: int): (r: Result<seq<int>, Error>)
    ensures r.Ok? ==> Sum(r.value) == n
  {
    if n > b then
      if b == 0 then Err(ZeroDivision)
      else
        var full := Repeat(b, PyFloorDiv(n, b));
        var remainder := PyMod(n, b);
        var plan := if remainder != 0 then full + [remainder] else full;
        if Sum(plan) == n then Ok(plan) else Err(PlanSumMismatch)
    else Ok([n])
  }

  /** For a positive request and batch size the plan always passes: it sums to
      `n`, every entry is `b` except possibly the last, which is `n % b` when that
      is not zero; its first entry is `min(n, b)`; when `n <= b` it is `[n]`. */
  lemma PlanProperties(n: int, b: int)
    requires n >= 1 && b >= 1
    ensures BatchPlan(n, b).Ok?
    ensures var p := BatchPlan(n, b).value;
            && Sum(p) == n
            && |p| >= 1
            && p[0] == (if n < b then n else b)
            && (forall i :: 0 <= i < |p| ==> 0 < p[i] <= b)
            && (forall i :: 0 <= i < |p| - 1 ==> p[i] == b)
            && (n <= b ==> p == [n])
            && (n > b ==> |p| == n / b + (if n % b != 0 then 1 else 0))
            && (n > b && n % b != 0 ==> p[|p| - 1] == n % b && p[|p| - 1] < b)
  {
    if n > b {
      var q := n / b;
      assert PyFloorDiv(n, b) == q && PyMod(n, b) == n % b;
      assert q >= 1;
      var full := Repeat(b, q);
      SumRepeat(b, q);
      assert n == b * q + n % b;
      if n % b != 0 {
        SumConcat(full, [n % b]);
        assert Sum([n % b]) == n % b;
      }
    }
  }

  /** A request for at least one sequence at a batch size below 1 always
      raises: on `//` at size 0, on the sum assertion below 0. */
  lemma NonPositiveBatchSizeFails(n: int, b: int)
    requires n >= 1 && b <= 0
    ensures b == 0 ==> BatchPlan(n, b) == Err(ZeroDivision)
    ensures b < 0 ==> BatchPlan(n, b) == Err(PlanSumMismatch)
  {
    if b < 0 {
      var q := PyFloorDiv(n, b);
      assert q == (-n) / (-b);
      assert q < 0;
      assert Repeat(b, q) == [];
      assert b * q > 0;
      var r := PyMod(n, b);
      assert r < n;
      if r != 0 {
        assert Repeat(b, q) + [r] == [r];
        assert Sum([r]) == r;
      }
    }
  }

  /** Twenty sequences at batch size 6 take four passes. */
  lemma PlanExample()
    ensures BatchPlan(20, 6) == Ok([6, 6, 6, 2])
  {
    assert PyFloorDiv(20, 6) == 3 && PyMod(20, 6) == 2;
    assert Repeat(6, 3) + [2] == [6, 6, 6, 2];
    assert Sum([2]) == 2;
    assert Sum([6, 2]) == 8 by { assert [6, 2][1..] == [2]; }
    assert Sum([6, 6, 2]) == 14 by { assert [6, 6, 2][1..] == [6, 2]; }
    assert Sum([6, 6, 6, 2]) == 20 by { assert [6, 6, 6, 2][1..] == [6, 6, 2]; }
  }
}
