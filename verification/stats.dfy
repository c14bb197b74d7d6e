/** Arithmetic the KPI engine does on float columns: sums, means over a
    trailing window, and division, where a zero divisor yields an infinity or
    NaN instead of failing. */
module Stats {

  /** A float column value. Finite values are exact reals: rounding is not modelled. */
  datatype Float = Finite(v: real) | PosInf | NegInf | NaN

  /** Element-wise division of float columns: `x / 0.0` is `inf`, `-inf` or `NaN`. */
  function Divide(a: real, b: real): (r: Float)
    ensures r.Finite? <==> b != 0.0
    ensures r.Finite? ==> r.v * b == a
    ensures r == PosInf <==> b == 0.0 && a > 0.0
    ensures r == NegInf <==> b == 0.0 && a < 0.0
    ensures r == NaN <==> b == 0.0 && a == 0.0
  {
    if b != 0.0 then Finite(a / b)
    else if a > 0.0 then PosInf
    else if a < 0.0 then NegInf
    else NaN
  }

  /** `x >= t`, false for NaN. */
  predicate AtLeast(x: Float, t: real) {
    match x
    case Finite(v) => v >= t
    case PosInf => true
    case NegInf => false
    case NaN => false
  }

  /** `x <= t`, false for NaN. */
  predicate AtMost(x: Float, t: real) {
    match x
    case Finite(v) => v <= t
    case PosInf => false
    case NegInf => true
    case NaN => false
  }

  function Sum(s: seq<real>): real {
    if |s| == 0 then 0.0 else Sum(s[..|s| - 1]) + s[|s| - 1]
  }

  lemma {:induction false} SumHead(s: seq<real>)
    requires |s| > 0
    ensures Sum(s) == s[0] + Sum(s[1..])
    decreases |s|
  {
    if |s| > 1 {
      assert s[1..][..|s| - 2] == s[1..|s| - 1];
      assert s[..|s| - 1][1..] == s[1..|s| - 1];
      SumHead(s[..|s| - 1]);
    }
  }

  /** `Series.mean()`: NaN for no values. */
  function Mean(s: seq<real>): (r: Float)
    ensures |s| == 0 <==> r == NaN
    ensures |s| > 0 ==> r.Finite? && r.v * |s| as real == Sum(s)
  {
    if |s| == 0 then NaN else Finite(Sum(s) / |s| as real)
  }

  /** The rolling window: four observations, fewer at the start of the series. */
  const Window := 4

  function WindowStart(i: nat): nat {
    if i < Window - 1 then 0 else i - (Window - 1)
  }

  /** `rolling(window=4, min_periods=1).mean()` at position `i`: the mean of the
      values at positions WindowStart(i)..i. */
  function WindowMean(s: seq<real>, i: nat): (r: real)
    requires i < |s|
    ensures i < Window - 1 ==> r * (i + 1) as real == Sum(s[..i + 1])
    ensures i >= Window - 1 ==> r * Window as real == Sum(s[i - (Window - 1)..i + 1])
  {
    Sum(s[WindowStart(i)..i + 1]) / (i + 1 - WindowStart(i)) as real
  }

  /** The first position's window holds only itself. */
  lemma FirstWindowIsOwnValue(s: seq<real>)
    requires |s| > 0
    ensures WindowMean(s, 0) == s[0]
  {
    assert s[0..1][..0] == [];
    assert Sum(s[0..1]) == Sum([]) + s[0];
  }

  /** The trailing means computed in one pass with a running window sum, which
      is how the rolling mean is evaluated: add the newest value, drop the one
      that leaves the window. */
  method RollingMeans(s: seq<real>) returns (avgs: seq<real>)
    ensures |avgs| == |s|
    ensures forall i :: 0 <= i < |s| ==> avgs[i] == WindowMean(s, i)
  {
    avgs := [];
    var windowSum := 0.0;
    var i := 0;
    while i < |s|
      invariant 0 <= i <= |s|
      invariant |avgs| == i
      invariant forall j :: 0 <= j < i ==> avgs[j] == WindowMean(s, j)
      invariant windowSum == Sum(s[WindowStart(i)..i])
    {
      var lo := WindowStart(i);
      assert s[lo..i + 1][..i - lo] == s[lo..i];
      var full := windowSum + s[i];
      avgs := avgs + [full / (i + 1 - lo) as real];
      if i + 1 >= Window {
        SumHead(s[lo..i + 1]);
        assert s[lo..i + 1][1..] == s[lo + 1..i + 1];
        windowSum := full - s[lo];
      } else {
        windowSum := full;
      }
      i := i + 1;
    }
  }
}
