/** Signal energy: the sum of squared samples and the mean square, from which RMS levels are compared. */
module Level {

  /** Σ x² over the buffer. */
  function SumOfSquares(s: seq<real>): (r: real)
    ensures r >= 0.0
  {
    if s == [] then 0.0 else SumOfSquares(s[..|s| - 1]) + s[|s| - 1] * s[|s| - 1]
  }

  lemma {:induction false} ZeroSum(s: seq<real>)
    requires forall i :: 0 <= i < |s| ==> s[i] == 0.0
    ensures SumOfSquares(s) == 0.0
  {
    if s != [] {
      ZeroSum(s[..|s| - 1]);
    }
  }

  lemma {:induction false} SumAtLeastSquare(s: seq<real>, i: nat)
    requires i < |s|
    ensures SumOfSquares(s) >= s[i] * s[i]
  {
    var init := s[..|s| - 1];
    if i < |s| - 1 {
      SumAtLeastSquare(init, i);
    }
  }

  /** `np.mean(x**2)`, or `getAudioLevel` before its square root: the sum of squares accumulated in a loop, over n. */
  method MeanSquare(buffer: seq<real>) returns (ms: real)
    requires |buffer| > 0
    ensures ms == SumOfSquares(buffer) / |buffer| as real
  {
    var sum := 0.0;
    for i := 0 to |buffer|
      invariant sum == SumOfSquares(buffer[..i])
    {
      assert buffer[..i + 1][..i] == buffer[..i];
      sum := sum + buffer[i] * buffer[i];
    }
    assert buffer[..|buffer|] == buffer;
    ms := sum / |buffer| as real;
  }

  /** Multiplying both sides by a positive count keeps the order. */
  lemma ScaleOrder(a: real, b: real, n: real)
    requires n > 0.0
    ensures a * n > b * n <==> a > b
    ensures a * n < b * n <==> a < b
  {
    if a > b {
      assert (a - b) * n > 0.0;
    } else if a < b {
      assert (b - a) * n > 0.0;
    }
  }

  /** Comparing Σx² with 0.0001 · n is comparing the mean square with 0.0001. */
  lemma MeanSquareOrder(s: seq<real>, ms: real)
    requires |s| > 0 && ms == SumOfSquares(s) / |s| as real
    ensures SumOfSquares(s) > 0.0001 * |s| as real <==> ms > 0.0001
    ensures SumOfSquares(s) < 0.0001 * |s| as real <==> ms < 0.0001
  {
    var n := |s| as real;
    assert SumOfSquares(s) == ms * n;
    ScaleOrder(ms, 0.0001, n);
  }

  /** For a non-negative level, its square passes 0.0001 exactly when it passes 0.01. */
  lemma SquareOrder(e: real)
    requires e >= 0.0
    ensures e * e > 0.0001 <==> e > 0.01
    ensures e * e < 0.0001 <==> e < 0.01
  {
    if e > 0.01 {
      assert e * e > e * 0.01;
    } else if e < 0.01 {
      assert e * e <= e * 0.01;
    }
  }
}
