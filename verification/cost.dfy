/**
 * The cost strategies (CostFunction.java). There is one variant, the
 * quadratic cost. Where the desired vector is shorter than the result, the
 * source catches the index exception, reports it and carries on: the missing
 * entries add nothing to the cost and leave their derivative entry at 0.
 */
module Cost {
  import opened Wrappers

  datatype CostOption = Quadratic

  /** Contribution of output i: its squared error, or 0 when no desired value exists. */
  function Term(result: seq<real>, desired: seq<real>, i: nat): real
    requires i < |result|
  {
    if i < |desired| then Pow2(result[i] - desired[i]) else 0.0
  }

  /** Math.pow(x, 2). */
  function Pow2(x: real): real
  {
    x * x
  }

  /** Sum of the first n terms, accumulated in index order as the source's loop does. */
  function SquaredError(result: seq<real>, desired: seq<real>, n: nat): (c: real)
    requires n <= |result|
    ensures c >= 0.0
  {
    if n == 0 then 0.0 else SquaredError(result, desired, n - 1) + Term(result, desired, n - 1)
  }

  /** QUADRATIC calculateOriginal. */
  function QuadraticValue(result: seq<real>, desired: seq<real>): real
  {
    SquaredError(result, desired, |result|)
  }

  /** QUADRATIC calculateDerivative: 2(result[i] - desired[i]), 0 where desired has no entry. */
  function QuadraticDerivative(result: seq<real>, desired: seq<real>): (d: seq<real>)
    ensures |d| == |result|
  {
    seq(|result|, i requires 0 <= i < |result| =>
      if i < |desired| then 2.0 * (result[i] - desired[i]) else 0.0)
  }

  /** The cost of the selected variant. */
  function Value(co: CostOption, result: seq<real>, desired: seq<real>): real
  {
    match co
    case Quadratic => QuadraticValue(result, desired)
  }

  /** The derivative vector of the selected variant. */
  function DerivativeVector(co: CostOption, result: seq<real>, desired: seq<real>): (d: seq<real>)
    ensures |d| == |result|
  {
    match co
    case Quadratic => QuadraticDerivative(result, desired)
  }

  /** calculateOriginal: the loop that sums the terms into ret_val. */
  method CalculateOriginal(co: CostOption, result: seq<real>, desired: seq<real>) returns (c: real)
    ensures c == Value(co, result, desired)
    ensures c >= 0.0
  {
    c := 0.0;
    var i := 0;
    while i < |result|
      invariant 0 <= i <= |result|
      invariant c == SquaredError(result, desired, i)
    {
      if i < |desired| {
        c := c + Pow2(result[i] - desired[i]);
      }
      i := i + 1;
    }
  }

  /** calculateDerivative: fills a fresh zero vector entry by entry. */
  method CalculateDerivative(co: CostOption, result: seq<real>, desired: seq<real>) returns (d: seq<real>)
    ensures d == DerivativeVector(co, result, desired)
  {
    d := seq(|result|, _ => 0.0);
    var i := 0;
    while i < |result|
      invariant 0 <= i <= |result| && |d| == |result|
      invariant forall k :: 0 <= k < i ==> d[k] == QuadraticDerivative(result, desired)[k]
      invariant forall k :: i <= k < |result| ==> d[k] == 0.0
    {
      if i < |desired| {
        d := d[i := 2.0 * (result[i] - desired[i])];
      }
      i := i + 1;
    }
  }

  /** Desired entries beyond the result's length play no part. */
  lemma {:induction false} SquaredErrorIgnoresSurplus(result: seq<real>, desired: seq<real>, n: nat)
    requires n <= |result| <= |desired|
    ensures SquaredError(result, desired, n) == SquaredError(result, desired[..|result|], n)
  {
    if n > 0 {
      SquaredErrorIgnoresSurplus(result, desired, n - 1);
    }
  }

  lemma SurplusDesiredIgnored(result: seq<real>, desired: seq<real>)
    requires |result| <= |desired|
    ensures QuadraticValue(result, desired) == QuadraticValue(result, desired[..|result|])
    ensures QuadraticDerivative(result, desired) == QuadraticDerivative(result, desired[..|result|])
  {
    SquaredErrorIgnoresSurplus(result, desired, |result|);
  }

  /** The first n terms sum to zero exactly when the first n outputs match what is desired. */
  lemma {:induction false} SquaredErrorZero(result: seq<real>, desired: seq<real>, n: nat)
    requires n <= |result| <= |desired|
    ensures SquaredError(result, desired, n) == 0.0 <==> result[..n] == desired[..n]
  {
    if n > 0 {
      SquaredErrorZero(result, desired, n - 1);
      var t := result[n - 1] - desired[n - 1];
      assert result[..n] == result[..n - 1] + [result[n - 1]];
      assert desired[..n] == desired[..n - 1] + [desired[n - 1]];
      if result[..n] == desired[..n] {
        assert result[..n][..n - 1] == result[..n - 1];
        assert desired[..n][..n - 1] == desired[..n - 1];
        assert result[n - 1] == result[..n][n - 1] == desired[..n][n - 1] == desired[n - 1];
      } else if result[..n - 1] == desired[..n - 1] {
        Pow2Positive(t);
      } else {
        assert SquaredError(result, desired, n - 1) > 0.0;
        Pow2NonNegative(t);
      }
    }
  }

  /** A product of two positive numbers, named so that the solver keeps the fact. */
  function Product(a: real, b: real): real
  {
    a * b
  }

  lemma ProductPositive(a: real, b: real)
    requires a > 0.0 && b > 0.0
    ensures Product(a, b) > 0.0
  {
  }

  lemma Pow2Positive(t: real)
    requires t != 0.0
    ensures Pow2(t) > 0.0
  {
    if t > 0.0 {
      ProductPositive(t, t);
    } else {
      ProductPositive(-t, -t);
      assert Product(t, t) == Product(-t, -t);
    }
  }

  lemma Pow2NonNegative(t: real)
    ensures Pow2(t) >= 0.0
  {
    if t != 0.0 {
      Pow2Positive(t);
    }
  }

  /** The quadratic cost is zero if and only if the result equals the desired vector. */
  lemma QuadraticZeroIff(result: seq<real>, desired: seq<real>)
    requires |result| <= |desired|
    ensures QuadraticValue(result, desired) == 0.0 <==> result == desired[..|result|]
  {
    SquaredErrorZero(result, desired, |result|);
    assert result[..|result|] == result;
  }

  /**
   * The derivative is the slope of the cost: moving output i by h changes the
   * cost by h times derivative entry i, plus h^2 when the output has a
   * desired value.
   */
  lemma {:induction false} SquaredErrorShift(result: seq<real>, desired: seq<real>, i: nat, h: real, n: nat)
    requires i < |result| && n <= |result|
    ensures SquaredError(result[i := result[i] + h], desired, n)
      == SquaredError(result, desired, n)
         + (if i < n && i < |desired| then 2.0 * h * (result[i] - desired[i]) + h * h else 0.0)
  {
    if n > 0 {
      SquaredErrorShift(result, desired, i, h, n - 1);
      if n - 1 == i && i < |desired| {
        var t := result[i] - desired[i];
        assert Pow2(t + h) == Pow2(t) + 2.0 * h * t + h * h;
      }
    }
  }

  lemma DerivativeIsSlope(result: seq<real>, desired: seq<real>, i: nat, h: real)
    requires i < |result|
    ensures QuadraticValue(result[i := result[i] + h], desired)
      == QuadraticValue(result, desired) + h * QuadraticDerivative(result, desired)[i]
         + (if i < |desired| then h * h else 0.0)
  {
    SquaredErrorShift(result, desired, i, h, |result|);
  }

  /** The worked example: cost 0.08 and derivative [0.4, -0.4]. */
  lemma QuadraticExample()
    ensures QuadraticValue([0.2, 0.8], [0.0, 1.0]) == 0.08
    ensures QuadraticDerivative([0.2, 0.8], [0.0, 1.0]) == [0.4, -0.4]
  {
    var r, d := [0.2, 0.8], [0.0, 1.0];
    assert SquaredError(r, d, 1) == 0.04;
    assert SquaredError(r, d, 2) == 0.04 + 0.04;
  }

  /** getCo: the name of the enum constant. */
  function Tag(co: CostOption): string
  {
    match co
    case Quadratic => "QUADRATIC"
  }

  /** convertStringToObject: valueOf on the enum; an unknown name is None. */
  function FromTag(s: string): (r: Option<CostOption>)
    ensures r.Some? ==> Tag(r.value) == s
    ensures r.None? ==> forall co :: Tag(co) != s
  {
    if s == "QUADRATIC" then Some(Quadratic) else None
  }
}
