/** Sums, minima, slices and `zip(*curves)` over sequences of reals, with the
    Python semantics the measurement code relies on. */
module RealSeqs {

  function Sum(xs: seq<real>): real
  {
    if xs == [] then 0.0 else xs[0] + Sum(xs[1..])
  }

  /** `statistics.mean`: exact over reals. */
  function Mean(xs: seq<real>): real
    requires xs != []
  {
    Sum(xs) / (|xs| as real)
  }

  /** `sum(pow(v, 2) for v in xs)`. */
  function SumSq(xs: seq<real>): real
  {
    if xs == [] then 0.0 else xs[0] * xs[0] + SumSq(xs[1..])
  }

  function MeanSquare(xs: seq<real>): real
    requires xs != []
  {
    SumSq(xs) / (|xs| as real)
  }

  function Abs(x: real): (r: real)
    ensures r >= 0.0 && (r == x || r == -x)
  {
    if x < 0.0 then -x else x
  }

  /** `min(xs)` over a non-empty sequence. */
  function MinOf(xs: seq<real>): (m: real)
    requires xs != []
    ensures m in xs
    ensures forall i :: 0 <= i < |xs| ==> m <= xs[i]
  {
    if |xs| == 1 then xs[0]
    else
      var rest := MinOf(xs[1..]);
      if rest < xs[0] then rest else xs[0]
  }

  /** Length of the shortest curve. */
  function MinLen(curves: seq<seq<real>>): (n: nat)
    requires curves != []
    ensures forall k :: 0 <= k < |curves| ==> n <= |curves[k]|
    ensures exists k :: 0 <= k < |curves| && n == |curves[k]|
  {
    if |curves| == 1 then |curves[0]|
    else
      var rest := MinLen(curves[1..]);
      if rest < |curves[0]| then rest else |curves[0]|
  }

  /** Number of tuples `zip(*curves)` yields: none for no curves, else the shortest length. */
  function ZipLen(curves: seq<seq<real>>): nat
  {
    if curves == [] then 0 else MinLen(curves)
  }

  /** The values of every curve at point p, in curve order. */
  function Column(curves: seq<seq<real>>, p: nat): (col: seq<real>)
    requires forall k :: 0 <= k < |curves| ==> p < |curves[k]|
    ensures |col| == |curves|
    ensures forall k {:trigger col[k]} :: 0 <= k < |curves| ==> col[k] == curves[k][p]
  {
    seq(|curves|, k requires 0 <= k < |curves| => curves[k][p])
  }

  /** `list(zip(*curves))`: one tuple per point, truncated to the shortest curve. */
  function Transpose(curves: seq<seq<real>>): (cols: seq<seq<real>>)
    ensures |cols| == ZipLen(curves)
    ensures forall p :: 0 <= p < |cols| ==> cols[p] == Column(curves, p)
  {
    if curves == [] then []
    else seq(MinLen(curves), p requires 0 <= p < MinLen(curves) => Column(curves, p))
  }

  /** Python's `s[lo:hi]` for 0 <= lo <= hi: clipped to the sequence, never an error. */
  function Slice(s: seq<real>, lo: nat, hi: nat): (r: seq<real>)
    requires lo <= hi
    ensures |r| == (if hi <= |s| then hi - lo else if lo <= |s| then |s| - lo else 0)
    ensures forall i :: 0 <= i < |r| ==> r[i] == s[lo + i]
  {
    if |s| <= lo then [] else if |s| <= hi then s[lo..] else s[lo..hi]
  }

  /** `xs.index(v)`: the first position holding v. */
  function IndexOf(xs: seq<real>, v: real): (i: nat)
    requires v in xs
    ensures i < |xs| && xs[i] == v
    ensures forall j :: 0 <= j < i ==> xs[j] != v
  {
    if xs[0] == v then 0 else 1 + IndexOf(xs[1..], v)
  }

  /** Subtracting one constant from every value lowers the sum by n times it. */
  lemma {:induction false} SumOfDifferences(xs: seq<real>, ys: seq<real>, c: real)
    requires |xs| == |ys|
    requires forall i :: 0 <= i < |xs| ==> ys[i] == xs[i] - c
    ensures Sum(ys) == Sum(xs) - (|xs| as real) * c
  {
    if xs != [] {
      SumOfDifferences(xs[1..], ys[1..], c);
    }
  }

  /** Scaling every value by m scales the sum by m. */
  lemma {:induction false} SumOfScaled(xs: seq<real>, ys: seq<real>, m: real)
    requires |xs| == |ys|
    requires forall i :: 0 <= i < |xs| ==> ys[i] == xs[i] * m
    ensures Sum(ys) == Sum(xs) * m
  {
    if xs != [] {
      SumOfScaled(xs[1..], ys[1..], m);
    }
  }

  /** Products of two values of one sign, plus something non-negative, are positive.
      (Stated over two variables: the solver handles `a * b` better than `a * a`.) */
  lemma ProductPlusPositive(a: real, b: real, t: real)
    requires (a > 0.0 && b > 0.0) || (a < 0.0 && b < 0.0)
    requires t >= 0.0
    ensures a * b + t > 0.0
  {
    if a < 0.0 {
      assert a * b == (-a) * (-b);
    }
  }

  lemma {:induction false} SumSqNonNegative(xs: seq<real>)
    ensures SumSq(xs) >= 0.0
  {
    if xs != [] {
      SumSqNonNegative(xs[1..]);
    }
  }

  lemma {:induction false} SumSqPositive(xs: seq<real>, i: nat)
    requires i < |xs| && xs[i] != 0.0
    ensures SumSq(xs) > 0.0
  {
    SumSqNonNegative(xs[1..]);
    if i == 0 {
      ProductPlusPositive(xs[0], xs[0], SumSq(xs[1..]));
    } else {
      SumSqPositive(xs[1..], i - 1);
      assert SumSq(xs) == xs[0] * xs[0] + SumSq(xs[1..]);
    }
  }

  lemma {:induction false} SumSqZero(xs: seq<real>)
    requires forall i :: 0 <= i < |xs| ==> xs[i] == 0.0
    ensures SumSq(xs) == 0.0
  {
    if xs != [] {
      SumSqZero(xs[1..]);
    }
  }

  /** A sum of squares is never negative, and is zero exactly when every value is. */
  lemma SumSqZeroIff(xs: seq<real>)
    ensures SumSq(xs) >= 0.0
    ensures SumSq(xs) == 0.0 <==> forall i :: 0 <= i < |xs| ==> xs[i] == 0.0
  {
    SumSqNonNegative(xs);
    if i :| 0 <= i < |xs| && xs[i] != 0.0 {
      SumSqPositive(xs, i);
    } else {
      SumSqZero(xs);
    }
  }

  lemma QuotientSign(s: real, n: real)
    requires n > 0.0
    ensures s >= 0.0 ==> s / n >= 0.0
    ensures s > 0.0 ==> s / n > 0.0
    ensures s == 0.0 ==> s / n == 0.0
  {
  }

  /** The mean square is never negative, and is zero exactly when every value is. */
  lemma MeanSquareZeroIff(xs: seq<real>)
    requires xs != []
    ensures MeanSquare(xs) >= 0.0
    ensures MeanSquare(xs) == 0.0 <==> forall i :: 0 <= i < |xs| ==> xs[i] == 0.0
  {
    SumSqZeroIff(xs);
    SumSqNonNegative(xs);
    QuotientSign(SumSq(xs), |xs| as real);
  }
}
