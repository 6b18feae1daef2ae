/**
 * The linear-algebra helpers of src/Other/Util.java. Vectors and matrices
 * are sequences of reals; a matrix is a sequence of rows, which may have
 * different lengths as Java's double[][] may. Every helper that builds a
 * fresh result with an accumulator loop is specified by a pure function and
 * implemented by a method with that loop.
 */
module Util {
  import opened Activation
  import Constants

  type Vector = seq<real>
  type Matrix = seq<seq<real>>

  // ---------------------------------------------------------------- sums

  /** Sum of the entries, accumulated from the front. */
  function Sum(e: Vector): real
  {
    if |e| == 0 then 0.0 else Sum(e[..|e| - 1]) + e[|e| - 1]
  }

  /** getAvgError: the mean of the entries. */
  function Average(e: Vector): real
    requires |e| > 0
  {
    Sum(e) / |e| as real
  }

  /** getAvgError: the summing loop followed by one division. */
  method GetAvgError(e: Vector) returns (avg: real)
    requires |e| > 0
    ensures avg == Average(e)
  {
    var sum := 0.0;
    var i := 0;
    while i < |e|
      invariant 0 <= i <= |e|
      invariant sum == Sum(e[..i])
    {
      assert e[..i + 1][..i] == e[..i];
      sum := sum + e[i];
      i := i + 1;
    }
    assert e[..i] == e;
    avg := sum / |e| as real;
  }

  /** A sum of entries that all lie in [lo, hi] lies in [n lo, n hi]. */
  lemma {:induction false} SumBounds(e: Vector, lo: real, hi: real)
    requires forall i :: 0 <= i < |e| ==> lo <= e[i] <= hi
    ensures |e| as real * lo <= Sum(e) <= |e| as real * hi
  {
    if |e| > 0 {
      SumBounds(e[..|e| - 1], lo, hi);
    }
  }

  /** The average lies between the least and the greatest error. */
  lemma AverageBounds(e: Vector, lo: real, hi: real)
    requires |e| > 0
    requires forall i :: 0 <= i < |e| ==> lo <= e[i] <= hi
    ensures lo <= Average(e) <= hi
  {
    SumBounds(e, lo, hi);
    var n := |e| as real;
    assert n * lo <= Sum(e) <= n * hi;
    DivideBounds(Sum(e), n, lo, hi);
  }

  lemma DivideBounds(s: real, n: real, lo: real, hi: real)
    requires n > 0.0 && n * lo <= s <= n * hi
    ensures lo <= s / n <= hi
  {
  }

  /** The average of n copies of one error is that error. */
  lemma AverageOfConstant(e: Vector, c: real)
    requires |e| > 0
    requires forall i :: 0 <= i < |e| ==> e[i] == c
    ensures Average(e) == c
  {
    AverageBounds(e, c, c);
  }

  // ---------------------------------------------------------- dot product

  /** dotProduct: the sum of a[i] * b[i] over the indices of a; b must be at least as long. */
  function Dot(a: Vector, b: Vector): real
    requires |a| <= |b|
  {
    if |a| == 0 then 0.0 else Dot(a[..|a| - 1], b) + a[|a| - 1] * b[|a| - 1]
  }

  /** dotProduct: the accumulator loop. */
  method DotProduct(a: Vector, b: Vector) returns (r: real)
    requires |a| <= |b|
    ensures r == Dot(a, b)
  {
    r := 0.0;
    var i := 0;
    while i < |a|
      invariant 0 <= i <= |a|
      invariant r == Dot(a[..i], b)
    {
      assert a[..i + 1][..i] == a[..i];
      r := r + a[i] * b[i];
      i := i + 1;
    }
    assert a[..i] == a;
  }

  /** Entries of b beyond the length of a play no part. */
  lemma {:induction false} DotIgnoresSurplus(a: Vector, b: Vector)
    requires |a| <= |b|
    ensures Dot(a, b) == Dot(a, b[..|a|])
  {
    if |a| > 0 {
      var a', n := a[..|a| - 1], |a| - 1;
      DotIgnoresSurplus(a', b);
      DotIgnoresSurplus(a', b[..|a|]);
      assert b[..|a|][..n] == b[..n];
    }
  }

  /** On vectors of equal length the dot product is symmetric. */
  lemma {:induction false} DotSymmetric(a: Vector, b: Vector)
    requires |a| == |b|
    ensures Dot(a, b) == Dot(b, a)
  {
    if |a| > 0 {
      var n := |a| - 1;
      DotSymmetric(a[..n], b[..n]);
      DotIgnoresSurplus(a[..n], b);
      DotIgnoresSurplus(b[..n], a);
    }
  }

  /** Scaling the first vector scales the dot product. */
  lemma {:induction false} DotScaleLeft(a: Vector, b: Vector, c: real)
    requires |a| <= |b|
    ensures Dot(Scale(c, a), b) == c * Dot(a, b)
  {
    if |a| > 0 {
      var n := |a| - 1;
      assert forall k :: 0 <= k < n ==> Scale(c, a)[..n][k] == Scale(c, a[..n])[k];
      assert Scale(c, a)[..n] == Scale(c, a[..n]);
      DotScaleLeft(a[..n], b, c);
      Distribute(c, Dot(a[..n], b), a[n], b[n]);
    }
  }

  lemma Distribute(c: real, x: real, y: real, z: real)
    ensures c * (x + y * z) == c * x + (c * y) * z
  {
  }

  /** c times every entry of a. */
  function Scale(c: real, a: Vector): (r: Vector)
    ensures |r| == |a|
  {
    seq(|a|, i requires 0 <= i < |a| => c * a[i])
  }

  // -------------------------------------------------------- outer product

  /**
   * outerProduct: a matrix with one row per entry of b and one column per
   * entry of a; row j is a scaled by b[j].
   */
  function Outer(a: Vector, b: Vector): (m: Matrix)
    ensures |m| == |b|
    ensures forall j :: 0 <= j < |b| ==> |m[j]| == |a|
  {
    seq(|b|, j requires 0 <= j < |b| => Scale(b[j], a))
  }

  /** outerProduct: a zero matrix filled column by column, as the nested loops do. */
  method OuterProduct(a: Vector, b: Vector) returns (m: Matrix)
    ensures m == Outer(a, b)
  {
    m := seq(|b|, _ => seq(|a|, _ => 0.0));
    var i := 0;
    while i < |a|
      invariant 0 <= i <= |a|
      invariant |m| == |b| && forall j :: 0 <= j < |b| ==> |m[j]| == |a|
      invariant forall j, k :: 0 <= j < |b| && 0 <= k < i ==> m[j][k] == a[k] * b[j]
      invariant forall j, k :: 0 <= j < |b| && i <= k < |a| ==> m[j][k] == 0.0
    {
      var j := 0;
      while j < |b|
        invariant 0 <= j <= |b|
        invariant |m| == |b| && forall j' :: 0 <= j' < |b| ==> |m[j']| == |a|
        invariant forall j', k :: 0 <= j' < |b| && 0 <= k < i ==> m[j'][k] == a[k] * b[j']
        invariant forall j' :: 0 <= j' < j ==> m[j'][i] == a[i] * b[j']
        invariant forall j', k :: 0 <= j' < |b| && i < k < |a| ==> m[j'][k] == 0.0
        invariant forall j' :: j <= j' < |b| ==> m[j'][i] == 0.0
      {
        m := m[j := m[j][i := a[i] * b[j]]];
        j := j + 1;
      }
      i := i + 1;
    }
    forall j | 0 <= j < |b|
      ensures m[j] == Outer(a, b)[j]
    {
      assert forall k :: 0 <= k < |a| ==> m[j][k] == Outer(a, b)[j][k];
    }
  }

  /** Each entry is the product of the matching entries of the two vectors. */
  lemma OuterEntry(a: Vector, b: Vector, j: nat, i: nat)
    requires j < |b| && i < |a|
    ensures Outer(a, b)[j][i] == a[i] * b[j]
  {
  }

  /** The outer product of b and a is the transpose of the outer product of a and b. */
  lemma OuterTranspose(a: Vector, b: Vector)
    ensures forall j, i :: 0 <= j < |b| && 0 <= i < |a| ==> Outer(a, b)[j][i] == Outer(b, a)[i][j]
  {
  }

  /** Row j of the outer product, dotted with c, is b[j] times a dotted with c. */
  lemma {:induction false} OuterRowDot(a: Vector, b: Vector, c: Vector, j: nat)
    requires j < |b| && |a| <= |c|
    ensures Dot(Outer(a, b)[j], c) == b[j] * Dot(a, c)
  {
    assert Outer(a, b)[j] == Scale(b[j], a);
    DotScaleLeft(a, c, b[j]);
  }

  // ------------------------------------------------------ backpropagation

  /** calculatedCdz: entry i is af'(a[i]) * b[i]; b must be at least as long as a. */
  function DCdz(a: Vector, b: Vector, af: ActivationOption): (r: Vector)
    requires |a| <= |b|
    ensures |r| == |a|
  {
    seq(|a|, i requires 0 <= i < |a| => Derivative(af, a[i]) * b[i])
  }

  /** calculatedCdz: the loop that fills a fresh vector. */
  method CalculateDCdz(a: Vector, b: Vector, af: ActivationOption) returns (r: Vector)
    requires |a| <= |b|
    ensures r == DCdz(a, b, af)
  {
    r := seq(|a|, _ => 0.0);
    var i := 0;
    while i < |a|
      invariant 0 <= i <= |a| && |r| == |a|
      invariant forall k :: 0 <= k < i ==> r[k] == Derivative(af, a[k]) * b[k]
    {
      r := r[i := Derivative(af, a[i]) * b[i]];
      i := i + 1;
    }
    assert forall k :: 0 <= k < |a| ==> r[k] == DCdz(a, b, af)[k];
  }

  /**
   * Through a ReLU layer the gradient passes unchanged where the activation
   * is positive and is blocked elsewhere.
   */
  lemma DCdzReluGate(a: Vector, b: Vector, i: nat)
    requires |a| <= |b| && i < |a|
    ensures a[i] > 0.0 ==> DCdz(a, b, ReLU)[i] == b[i]
    ensures a[i] <= 0.0 ==> DCdz(a, b, ReLU)[i] == 0.0
  {
  }

  /** Every row of w is at most as long as v. */
  predicate RowsFit(w: Matrix, v: Vector)
  {
    forall i :: 0 <= i < |w| ==> |w[i]| <= |v|
  }

  /** calculatedCda: entry i is the dot product of row i of w with v. */
  function DCda(w: Matrix, v: Vector): (r: Vector)
    requires RowsFit(w, v)
    ensures |r| == |w|
  {
    seq(|w|, i requires 0 <= i < |w| => Dot(w[i], v))
  }

  /** calculatedCda: one dotProduct call per row. */
  method CalculateDCda(w: Matrix, v: Vector) returns (r: Vector)
    requires RowsFit(w, v)
    ensures r == DCda(w, v)
  {
    r := seq(|w|, _ => 0.0);
    var i := 0;
    while i < |r|
      invariant 0 <= i <= |w| && |r| == |w|
      invariant forall k :: 0 <= k < i ==> r[k] == Dot(w[k], v)
    {
      var d := DotProduct(w[i], v);
      r := r[i := d];
      i := i + 1;
    }
  }

  /** Pulled back through an outer product, row j of the gradient is b[j] times a dotted with c. */
  lemma {:induction false} DCdaOfOuter(a: Vector, b: Vector, c: Vector)
    requires |a| <= |c|
    ensures RowsFit(Outer(a, b), c)
    ensures DCda(Outer(a, b), c) == Scale(Dot(a, c), b)
  {
    forall j | 0 <= j < |b|
      ensures DCda(Outer(a, b), c)[j] == Scale(Dot(a, c), b)[j]
    {
      OuterRowDot(a, b, c, j);
    }
  }

  // ------------------------------------------------------ regularisation

  /** One entry after L2 regularisation: x less the fraction L2RegConstant of itself. */
  function Shrink(x: real): (y: real)
    ensures y == (1.0 - Constants.L2RegConstant) * x
    ensures (y == 0.0) == (x == 0.0) && (y > 0.0) == (x > 0.0)
  {
    x - x * Constants.L2RegConstant
  }

  /** The entries of a rectangular array as a matrix. */
  function Contents(arr: array2<real>): (m: Matrix)
    reads arr
    ensures |m| == arr.Length0
    ensures forall i :: 0 <= i < arr.Length0 ==> |m[i]| == arr.Length1
  {
    seq(arr.Length0, i requires 0 <= i < arr.Length0 reads arr =>
      seq(arr.Length1, j requires 0 <= j < arr.Length1 reads arr => arr[i, j]))
  }

  /**
   * l2RegularizeMatrix: shrinks every entry in place and hands back the same
   * array. The model takes the rectangular arrays the source calls it on.
   */
  method L2RegularizeMatrix(arr: array2<real>) returns (r: array2<real>)
    modifies arr
    ensures r == arr
    ensures forall i, j :: 0 <= i < arr.Length0 && 0 <= j < arr.Length1 ==>
      arr[i, j] == Shrink(old(arr[i, j]))
  {
    var i := 0;
    while i < arr.Length0
      invariant 0 <= i <= arr.Length0
      invariant forall i', j :: 0 <= i' < arr.Length0 && 0 <= j < arr.Length1 ==>
        arr[i', j] == if i' < i then Shrink(old(arr[i', j])) else old(arr[i', j])
    {
      var j := 0;
      while j < arr.Length1
        invariant 0 <= j <= arr.Length1
        invariant forall i', j' :: 0 <= i' < arr.Length0 && 0 <= j' < arr.Length1 ==>
          arr[i', j'] == if i' < i || (i' == i && j' < j) then Shrink(old(arr[i', j'])) else old(arr[i', j'])
      {
        arr[i, j] := arr[i, j] - arr[i, j] * Constants.L2RegConstant;
        j := j + 1;
      }
      i := i + 1;
    }
    r := arr;
  }

  // ------------------------------------------------------------ flatten

  /** Total number of entries of a matrix. */
  function Size(m: Matrix): nat
  {
    if |m| == 0 then 0 else Size(m[..|m| - 1]) + |m[|m| - 1]|
  }

  /** flattenArr: the rows one after the other. */
  function Flatten(m: Matrix): (r: Vector)
    ensures |r| == Size(m)
  {
    if |m| == 0 then [] else Flatten(m[..|m| - 1]) + m[|m| - 1]
  }

  /** Entry j of row i sits at offset Size(rows before i) + j: row-major order. */
  lemma {:induction false} FlattenRowMajor(m: Matrix, i: nat, j: nat)
    requires i < |m| && j < |m[i]|
    ensures Size(m[..i]) + j < |Flatten(m)|
    ensures Flatten(m)[Size(m[..i]) + j] == m[i][j]
  {
    var n := |m| - 1;
    assert m[..n] + [m[n]] == m;
    if i < n {
      assert m[..n][..i] == m[..i];
      FlattenRowMajor(m[..n], i, j);
      SizeGrows(m, n);
    } else {
      assert m[..i] == m[..n];
    }
  }

  /** A prefix never has more entries than the whole. */
  lemma {:induction false} SizeGrows(m: Matrix, k: nat)
    requires k <= |m|
    ensures Size(m[..k]) <= Size(m)
  {
    if k < |m| {
      assert m[..|m| - 1][..k] == m[..k];
      SizeGrows(m[..|m| - 1], k);
    } else {
      assert m[..k] == m;
    }
  }

  /** A matrix whose rows all have n entries flattens to |m| * n entries. */
  lemma {:induction false} FlattenUniformRows(m: Matrix, n: nat)
    requires forall i :: 0 <= i < |m| ==> |m[i]| == n
    ensures |Flatten(m)| == |m| * n
  {
    if |m| > 0 {
      FlattenUniformRows(m[..|m| - 1], n);
    }
  }
}
