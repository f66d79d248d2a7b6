/** The full discrete convolution `signal.convolve(y1, y2, mode='full') * dt`
    and its time axis `arange(len) * dt`. */
module Convolution {

  /** The k-th summand of entry n: y1[k] * y2[n - k] where both samples exist,
      and zero where either index falls outside its sequence (implicit zero padding). */
  function Term(y1: seq<real>, y2: seq<real>, n: int, k: int): real
  {
    if 0 <= k < |y1| && 0 <= n - k < |y2| then y1[k] * y2[n - k] else 0.0
  }

  /** The sum of Term(y1, y2, n, k) for lo <= k < hi. */
  function PartialSum(y1: seq<real>, y2: seq<real>, n: int, lo: int, hi: int): real
    decreases hi - lo
  {
    if hi <= lo then 0.0 else PartialSum(y1, y2, n, lo, hi - 1) + Term(y1, y2, n, hi - 1)
  }

  /** Entry n of the unscaled full convolution: the sum over every valid k of y1[k] * y2[n - k]. */
  function FullAt(y1: seq<real>, y2: seq<real>, n: int): real
  {
    PartialSum(y1, y2, n, 0, |y1|)
  }

  /** The length of the full result; an empty operand gives an empty result. */
  function FullLength(y1: seq<real>, y2: seq<real>): nat
  {
    if |y1| == 0 || |y2| == 0 then 0 else |y1| + |y2| - 1
  }

  /** The full convolution scaled by dt (a rectangle-rule approximation of the integral). */
  function Convolve(y1: seq<real>, y2: seq<real>, dt: real): (r: seq<real>)
    ensures |y1| > 0 && |y2| > 0 ==> |r| == |y1| + |y2| - 1
    ensures |y1| == 0 || |y2| == 0 ==> r == []
    ensures forall n :: 0 <= n < |r| ==> r[n] == FullAt(y1, y2, n) * dt
  {
    seq(FullLength(y1, y2), n requires 0 <= n < FullLength(y1, y2) => FullAt(y1, y2, n) * dt)
  }

  /** The time axis of the result, `arange(len) * dt`. */
  function ConvTimeAxis(len: nat, dt: real): (t: seq<real>)
    ensures |t| == len
    ensures forall n :: 0 <= n < len ==> t[n] == (n as real) * dt
  {
    seq(len, n requires 0 <= n < len => (n as real) * dt)
  }

  /** Every summand in [lo, hi) vanishes. */
  predicate ZeroOn(y1: seq<real>, y2: seq<real>, n: int, lo: int, hi: int)
  {
    forall k :: lo <= k < hi ==> Term(y1, y2, n, k) == 0.0
  }

  /** Peeling the lowest summand off a partial sum. */
  lemma {:induction false} SplitLow(y1: seq<real>, y2: seq<real>, n: int, lo: int, hi: int)
    requires lo < hi
    ensures PartialSum(y1, y2, n, lo, hi) == Term(y1, y2, n, lo) + PartialSum(y1, y2, n, lo + 1, hi)
    decreases hi - lo
  {
    if lo + 1 < hi {
      SplitLow(y1, y2, n, lo, hi - 1);
    }
  }

  /** Vanishing summands above hi add nothing. */
  lemma {:induction false} ExtendHigh(y1: seq<real>, y2: seq<real>, n: int, lo: int, hi: int, top: int)
    requires lo <= hi <= top
    requires ZeroOn(y1, y2, n, hi, top)
    ensures PartialSum(y1, y2, n, lo, top) == PartialSum(y1, y2, n, lo, hi)
    decreases top - hi
  {
    if hi < top {
      ExtendHigh(y1, y2, n, lo, hi, top - 1);
    }
  }

  /** Vanishing summands below lo add nothing. */
  lemma {:induction false} ExtendLow(y1: seq<real>, y2: seq<real>, n: int, bottom: int, lo: int, hi: int)
    requires bottom <= lo <= hi
    requires ZeroOn(y1, y2, n, bottom, lo)
    ensures PartialSum(y1, y2, n, bottom, hi) == PartialSum(y1, y2, n, lo, hi)
    decreases lo - bottom
  {
    if bottom < lo {
      SplitLow(y1, y2, n, bottom, hi);
      ExtendLow(y1, y2, n, bottom + 1, lo, hi);
    }
  }

  /** Reindexing k as n - k swaps the roles of the two operands. */
  lemma {:induction false} Reflect(y1: seq<real>, y2: seq<real>, n: int, lo: int, hi: int)
    requires lo <= hi
    ensures PartialSum(y1, y2, n, lo, hi) == PartialSum(y2, y1, n, n - hi + 1, n - lo + 1)
    decreases hi - lo
  {
    if lo < hi {
      Reflect(y1, y2, n, lo, hi - 1);
      SplitLow(y2, y1, n, n - hi + 1, n - lo + 1);
      assert Term(y2, y1, n, n - hi + 1) == Term(y1, y2, n, hi - 1);
    }
  }

  /** Every entry of the convolution is symmetric in its operands. */
  lemma FullAtCommutes(y1: seq<real>, y2: seq<real>, n: int)
    ensures FullAt(y1, y2, n) == FullAt(y2, y1, n)
  {
    var low := if n - |y1| + 1 < 0 then n - |y1| + 1 else 0;
    var high := if n + 1 > |y2| then n + 1 else |y2|;
    Reflect(y1, y2, n, 0, |y1|);
    ExtendLow(y2, y1, n, low, n - |y1| + 1, n + 1);
    ExtendHigh(y2, y1, n, low, n + 1, high);
    ExtendLow(y2, y1, n, low, 0, |y2|);
    ExtendHigh(y2, y1, n, low, |y2|, high);
  }

  /** Entry n sums exactly the products y1[k] * y2[n - k] whose two indices
      are both in range: k runs from max(0, n - |y2| + 1) to min(|y1|, n + 1). */
  lemma FullAtOverValidIndices(y1: seq<real>, y2: seq<real>, n: int)
    ensures var lo := if n - |y2| + 1 > 0 then n - |y2| + 1 else 0;
            var hi := if n + 1 < |y1| then n + 1 else |y1|;
            (lo <= hi ==> FullAt(y1, y2, n) == PartialSum(y1, y2, n, lo, hi)) &&
            (lo > hi ==> FullAt(y1, y2, n) == 0.0) &&
            forall k :: lo <= k < hi ==> 0 <= k < |y1| && 0 <= n - k < |y2| && Term(y1, y2, n, k) == y1[k] * y2[n - k]
  {
    var lo := if n - |y2| + 1 > 0 then n - |y2| + 1 else 0;
    var hi := if n + 1 < |y1| then n + 1 else |y1|;
    if lo <= hi {
      ExtendHigh(y1, y2, n, 0, hi, |y1|);
      ExtendLow(y1, y2, n, 0, lo, hi);
    } else {
      ExtendHigh(y1, y2, n, 0, 0, |y1|);
    }
  }

  /** The full convolution is commutative. */
  lemma ConvolveCommutes(y1: seq<real>, y2: seq<real>, dt: real)
    ensures Convolve(y1, y2, dt) == Convolve(y2, y1, dt)
  {
    forall n | 0 <= n < FullLength(y1, y2)
      ensures Convolve(y1, y2, dt)[n] == Convolve(y2, y1, dt)[n]
    {
      FullAtCommutes(y1, y2, n);
    }
  }

  /** Entries outside [0, |y1| + |y2| - 1) would all be zero: the full result
      drops no non-zero entry. */
  lemma FullAtOutsideIsZero(y1: seq<real>, y2: seq<real>, n: int)
    requires n < 0 || n >= |y1| + |y2| - 1
    ensures FullAt(y1, y2, n) == 0.0
  {
    ExtendHigh(y1, y2, n, 0, 0, |y1|);
  }

  /** The first entry pairs the two first samples only. */
  lemma ConvolveFirst(y1: seq<real>, y2: seq<real>, dt: real)
    requires |y1| > 0 && |y2| > 0
    ensures Convolve(y1, y2, dt)[0] == y1[0] * y2[0] * dt
  {
    ExtendHigh(y1, y2, 0, 0, 1, |y1|);
  }

  /** The last entry pairs the two last samples only. */
  lemma ConvolveLast(y1: seq<real>, y2: seq<real>, dt: real)
    requires |y1| > 0 && |y2| > 0
    ensures Convolve(y1, y2, dt)[|y1| + |y2| - 2] == y1[|y1| - 1] * y2[|y2| - 1] * dt
  {
    var n := |y1| + |y2| - 2;
    ExtendLow(y1, y2, n, 0, |y1| - 1, |y1|);
  }

  /** `a * y`, element by element. */
  function Scale(a: real, y: seq<real>): (r: seq<real>)
    ensures |r| == |y|
  {
    seq(|y|, i requires 0 <= i < |y| => a * y[i])
  }

  lemma {:induction false} PartialSumScales(a: real, y1: seq<real>, y2: seq<real>, n: int, lo: int, hi: int)
    ensures PartialSum(Scale(a, y1), y2, n, lo, hi) == a * PartialSum(y1, y2, n, lo, hi)
    decreases hi - lo
  {
    if lo < hi {
      PartialSumScales(a, y1, y2, n, lo, hi - 1);
      assert Term(Scale(a, y1), y2, n, hi - 1) == a * Term(y1, y2, n, hi - 1);
    }
  }

  /** Scaling one operand scales the convolution by the same factor. */
  lemma ConvolveScales(a: real, y1: seq<real>, y2: seq<real>, dt: real)
    ensures Convolve(Scale(a, y1), y2, dt) == Scale(a, Convolve(y1, y2, dt))
  {
    var lhs := Convolve(Scale(a, y1), y2, dt);
    var rhs := Scale(a, Convolve(y1, y2, dt));
    assert |lhs| == |rhs|;
    forall n | 0 <= n < |lhs|
      ensures lhs[n] == rhs[n]
    {
      PartialSumScales(a, y1, y2, n, 0, |y1|);
      var x := FullAt(y1, y2, n);
      assert lhs[n] == (a * x) * dt;
      assert rhs[n] == a * (x * dt);
    }
  }

  /** The direct method: one accumulation over k for each output index n. */
  method ConvolveDirect(y1: seq<real>, y2: seq<real>, dt: real) returns (r: seq<real>)
    ensures r == Convolve(y1, y2, dt)
  {
    var len := FullLength(y1, y2);
    var out := new real[len];
    var n := 0;
    while n < len
      invariant 0 <= n <= len
      invariant forall m :: 0 <= m < n ==> out[m] == FullAt(y1, y2, m) * dt
    {
      var acc := 0.0;
      var k := 0;
      while k < |y1|
        invariant 0 <= k <= |y1|
        invariant acc == PartialSum(y1, y2, n, 0, k)
      {
        if 0 <= n - k < |y2| {
          acc := acc + y1[k] * y2[n - k];
        }
        k := k + 1;
      }
      out[n] := acc * dt;
      n := n + 1;
    }
    r := out[..];
    assert forall m :: 0 <= m < len ==> r[m] == Convolve(y1, y2, dt)[m];
  }
}
