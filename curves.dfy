/** The module-level helpers of measureresult.py: point-wise transforms of one
    curve and the nearest-frequency lookup. Every helper is a pure function of
    its arguments; Python's `map`, `zip` and comprehensions become sequence
    comprehensions. */
module Curves {
  import opened Outcomes
  import opened RealSeqs

  /** Library mathematics the source calls and the model does not compute:
      `pow(10, x / 20)` (dB to linear magnitude), `math.sqrt` and `round(x, 2)`. */
  datatype MathLib = MathLib(dbToLinear: real -> real, sqrt: real -> real, round2: real -> real)

  /** What the reduction relies on from `math.sqrt`: never negative, zero only at zero. */
  ghost predicate SqrtSound(sqrt: real -> real)
  {
    forall x: real {:trigger sqrt(x)} :: 0.0 <= x ==> 0.0 <= sqrt(x) && (sqrt(x) == 0.0 <==> x == 0.0)
  }

  /** Frequencies in configuration are GHz; the sweep axis is Hz. */
  const HZ_PER_GHZ: real := 1000000000.0

  /** VSWR of a linear reflection magnitude r: (1 + r) / (1 - r). */
  function VswrOf(r: real): real
    requires r != 1.0
  {
    (1.0 + r) / (1.0 - r)
  }

  /** The reflection magnitude a VSWR value stands for: (v - 1) / (v + 1). */
  function ReflectionOf(v: real): real
    requires v != -1.0
  {
    (v - 1.0) / (v + 1.0)
  }

  /** `calc_vswr`: every dB magnitude m becomes VswrOf(10^(m/20)). The divisions run
      point by point, so any point whose linear magnitude is exactly 1 raises. */
  function CalcVswr(mags: seq<real>, toLinear: real -> real): (r: Result<seq<real>>)
    ensures r.Ok? <==> forall i :: 0 <= i < |mags| ==> toLinear(mags[i]) != 1.0
    ensures r.Err? ==> r.error == ZeroDivision
    ensures r.Ok? ==> |r.value| == |mags|
    ensures r.Ok? ==> forall i :: 0 <= i < |mags| ==>
      r.value[i] != -1.0 && ReflectionOf(r.value[i]) == toLinear(mags[i])
  {
    if forall i :: 0 <= i < |mags| ==> toLinear(mags[i]) != 1.0 then
      var out := seq(|mags|, i requires 0 <= i < |mags| => VswrOf(toLinear(mags[i])));
      assert forall i :: 0 <= i < |mags| ==> out[i] != -1.0 && ReflectionOf(out[i]) == toLinear(mags[i]) by {
        forall i | 0 <= i < |mags| ensures out[i] != -1.0 && ReflectionOf(out[i]) == toLinear(mags[i]) {
          VswrRoundTrip(toLinear(mags[i]));
        }
      }
      Ok(out)
    else
      Err(ZeroDivision)
  }

  /** VswrOf and ReflectionOf are inverse: the VSWR determines the magnitude it came from. */
  lemma VswrRoundTrip(r: real)
    requires r != 1.0
    ensures VswrOf(r) != -1.0
    ensures ReflectionOf(VswrOf(r)) == r
  {
    var d := 1.0 - r;
    var v := VswrOf(r);
    assert v * d == 1.0 + r;
    assert (v + 1.0) * d == 2.0;
    assert (v - 1.0) * d == 2.0 * r;
    assert v + 1.0 != 0.0;
    var q := ReflectionOf(v);
    assert q * (v + 1.0) == v - 1.0;
    assert q * (v + 1.0) * d == (v - 1.0) * d;
    assert q * 2.0 == 2.0 * r;
  }

  /** 0 dB is a pole: a magnitude whose linear value is 1 makes `calc_vswr` raise. */
  lemma VswrPole(mags: seq<real>, toLinear: real -> real, i: nat)
    requires i < |mags| && mags[i] == 0.0 && toLinear(0.0) == 1.0
    ensures CalcVswr(mags, toLinear) == Err(ZeroDivision)
  {
  }

  /** For a passive reflection (0 <= r < 1) the VSWR is at least 1 and grows with r,
      so with a monotone dB-to-linear conversion it grows with the dB magnitude. */
  lemma VswrIncreasing(r1: real, r2: real)
    requires 0.0 <= r1 < r2 < 1.0
    ensures 1.0 <= VswrOf(r1) < VswrOf(r2)
  {
    var d1, d2 := 1.0 - r1, 1.0 - r2;
    var v1, v2 := VswrOf(r1), VswrOf(r2);
    assert v1 * d1 == 1.0 + r1;
    assert v2 * d2 == 1.0 + r2;
    assert v1 == 2.0 / d1 - 1.0;
    assert v2 == 2.0 / d2 - 1.0;
    assert 0.0 < d2 < d1 <= 1.0;
    assert 2.0 / d1 < 2.0 / d2;
    assert 2.0 / d1 >= 2.0;
  }

  /** `calc_error`: point-wise difference against a reference curve, truncated by `zip`
      to the shorter of the two; adding the reference back restores the curve. */
  function CalcError(curve: seq<real>, zero: seq<real>): (r: seq<real>)
    ensures |r| == if |curve| <= |zero| then |curve| else |zero|
    ensures forall i :: 0 <= i < |r| ==> r[i] + zero[i] == curve[i]
  {
    var n := if |curve| <= |zero| then |curve| else |zero|;
    seq(n, i requires 0 <= i < n => curve[i] - zero[i])
  }

  /** `calc_rmse_amp`: sqrt of the mean of squares; an empty list divides by zero. */
  function CalcRmseAmp(values: seq<real>, sqrt: real -> real): (r: Result<real>)
    ensures r.Err? <==> values == []
    ensures r.Err? ==> r.error == ZeroDivision
    ensures r.Ok? && SqrtSound(sqrt) ==>
      r.value >= 0.0 && (r.value == 0.0 <==> forall i :: 0 <= i < |values| ==> values[i] == 0.0)
  {
    if values == [] then Err(ZeroDivision)
    else
      MeanSquareZeroIff(values);
      Ok(sqrt(MeanSquare(values)))
  }

  /** `shift_vals`: add one constant to every point. */
  function ShiftVals(values: seq<real>, shift: real): (r: seq<real>)
    ensures |r| == |values|
  {
    seq(|values|, i requires 0 <= i < |values| => values[i] + shift)
  }

  /** `mul_vals`: multiply every point by one constant. */
  function MulVals(values: seq<real>, factor: real): (r: seq<real>)
    ensures |r| == |values|
  {
    seq(|values|, i requires 0 <= i < |values| => values[i] * factor)
  }

  /** Shifting back by the same amount restores the curve. */
  lemma ShiftRoundTrip(values: seq<real>, shift: real)
    ensures ShiftVals(ShiftVals(values, shift), -shift) == values
  {
    assert forall i :: 0 <= i < |values| ==> ShiftVals(ShiftVals(values, shift), -shift)[i] == values[i];
  }

  /** Scaling back by the reciprocal restores the curve (every drawn multiplier is non-zero). */
  lemma MulRoundTrip(values: seq<real>, factor: real)
    requires factor != 0.0
    ensures MulVals(MulVals(values, factor), 1.0 / factor) == values
  {
    forall i | 0 <= i < |values|
      ensures MulVals(MulVals(values, factor), 1.0 / factor)[i] == values[i]
    {
      var x := values[i];
      assert x * factor * (1.0 / factor) == x * (factor * (1.0 / factor));
    }
  }

  /** A shift moves the mean by the same amount. */
  lemma ShiftMean(values: seq<real>, shift: real)
    requires values != []
    ensures Mean(ShiftVals(values, shift)) == Mean(values) + shift
  {
    var shifted := ShiftVals(values, shift);
    var n := |values| as real;
    forall i | 0 <= i < |values| ensures values[i] == shifted[i] - shift { }
    SumOfDifferences(shifted, values, shift);
    assert Sum(shifted) == Sum(values) + n * shift;
    assert Sum(shifted) / n == Sum(values) / n + (n * shift) / n;
  }

  /** A factor scales the sum by the same factor. */
  lemma MulSum(values: seq<real>, factor: real)
    ensures Sum(MulVals(values, factor)) == Sum(values) * factor
  {
    SumOfScaled(values, MulVals(values, factor), factor);
  }

  /** |a - b|. */
  function Distance(a: real, b: real): real
  {
    Abs(a - b)
  }

  /** i is where Python's `min(range(len(freqs)), key=...)` lands: a closest point to
      target, and no earlier point is as close. */
  ghost predicate IsNearest(freqs: seq<real>, target: real, i: nat)
  {
    && i < |freqs|
    && (forall j :: 0 <= j < |freqs| ==> Distance(freqs[i], target) <= Distance(freqs[j], target))
    && (forall j :: 0 <= j < i ==> Distance(freqs[i], target) < Distance(freqs[j], target))
  }

  /** Left-to-right argmin over a non-empty axis: a later point replaces the best so far
      only when strictly closer. */
  function NearestIndex(freqs: seq<real>, target: real): (i: nat)
    requires freqs != []
    ensures IsNearest(freqs, target, i)
  {
    if |freqs| == 1 then 0
    else
      var prefix := freqs[..|freqs| - 1];
      var best := NearestIndex(prefix, target);
      assert forall j :: 0 <= j < |prefix| ==> prefix[j] == freqs[j];
      if Distance(freqs[|freqs| - 1], target) < Distance(freqs[best], target) then |freqs| - 1 else best
  }

  /** `_find_freq_index`: the target is given in GHz; an empty axis raises. */
  function FindFreqIndex(freqs: seq<real>, ghz: real): (r: Result<nat>)
    ensures r.Err? <==> freqs == []
    ensures r.Err? ==> r.error == EmptyAxis
    ensures r.Ok? ==> IsNearest(freqs, ghz * HZ_PER_GHZ, r.value)
  {
    if freqs == [] then Err(EmptyAxis) else Ok(NearestIndex(freqs, ghz * HZ_PER_GHZ))
  }

  /** The nearest index with ties to the smallest is unique, so the lookup is determined. */
  lemma NearestUnique(freqs: seq<real>, target: real, i: nat, k: nat)
    requires IsNearest(freqs, target, i) && IsNearest(freqs, target, k)
    ensures i == k
  {
    EarlierIsFarther(freqs, target, i, k);
    EarlierIsFarther(freqs, target, k, i);
  }

  /** Any point before the nearest one is strictly farther, so it is not the nearest. */
  lemma EarlierIsFarther(freqs: seq<real>, target: real, j: nat, k: nat)
    requires IsNearest(freqs, target, k)
    ensures j < k ==> !IsNearest(freqs, target, j)
  {
    if j < k {
      assert Distance(freqs[k], target) < Distance(freqs[j], target);
    }
  }

  /** On the axis 1, 2, 3 GHz: 2.4 GHz resolves to index 1, 0.5 GHz to 0, and 10 GHz
      clamps to the last index 2. */
  lemma FindFreqIndexExamples()
    ensures FindFreqIndex([1e9, 2e9, 3e9], 2.4) == Ok(1)
    ensures FindFreqIndex([1e9, 2e9, 3e9], 0.5) == Ok(0)
    ensures FindFreqIndex([1e9, 2e9, 3e9], 10.0) == Ok(2)
  {
    var axis := [1e9, 2e9, 3e9];
    assert IsNearest(axis, 2.4 * HZ_PER_GHZ, 1);
    NearestUnique(axis, 2.4 * HZ_PER_GHZ, FindFreqIndex(axis, 2.4).value, 1);
    assert IsNearest(axis, 0.5 * HZ_PER_GHZ, 0);
    NearestUnique(axis, 0.5 * HZ_PER_GHZ, FindFreqIndex(axis, 0.5).value, 0);
    assert IsNearest(axis, 10.0 * HZ_PER_GHZ, 2);
    NearestUnique(axis, 10.0 * HZ_PER_GHZ, FindFreqIndex(axis, 10.0).value, 2);
  }
}
