/** The per-state reductions of `MeasureResult`, as functions of the curves they read:
    de-interleaving the instrument buffers, VSWR curves, mean-centred S21 errors,
    per-point RMSE, the three-point border minima and the uniform adjustments. */
module Reduction {
  import opened Outcomes
  import opened RealSeqs
  import opened Curves
  import opened Passband

  /** Blocks of one instrument buffer: frequency axis, S11, S21 and S22 magnitudes. */
  const FREQ_BLOCK: nat := 0
  const S11_BLOCK: nat := 1
  const S21_BLOCK: nat := 3
  const S22_BLOCK: nat := 7
  /** `range(9)`: the blocks the ingest loop visits per buffer. */
  const BLOCKS: nat := 9

  /** `pars[k * points: k * points + points]`: block k, clipped to the buffer. */
  function Block(buf: seq<real>, k: nat, points: nat): (r: seq<real>)
    ensures |r| <= points
    ensures |r| == points || k * points + |r| == |buf| || (|r| == 0 && |buf| <= k * points)
    ensures forall i :: 0 <= i < |r| ==> k * points + i < |buf| && r[i] == buf[k * points + i]
  {
    Slice(buf, k * points, k * points + points)
  }

  /** A buffer with all nine blocks present yields full-length blocks; a shorter one
      yields shorter (possibly empty) blocks without any error. */
  lemma BlockLength(buf: seq<real>, k: nat, points: nat)
    requires k < BLOCKS
    ensures BLOCKS * points <= |buf| ==> |Block(buf, k, points)| == points
    ensures |buf| <= k * points ==> Block(buf, k, points) == []
  {
    if BLOCKS * points <= |buf| {
      BlockEnd(k, points);
    }
  }

  /** No block is longer than block 0, the frequency axis, of the same buffer. */
  lemma BlockNoLongerThanAxis(buf: seq<real>, k: nat, points: nat)
    ensures |Block(buf, k, points)| <= |Block(buf, FREQ_BLOCK, points)|
  {
    var r := Block(buf, k, points);
    if r != [] {
      assert k * points + (|r| - 1) < |buf|;
    }
  }

  lemma BlockEnd(k: nat, points: nat)
    requires k < BLOCKS
    ensures k * points + points <= BLOCKS * points
  {
    assert (BLOCKS - k) * points >= points;
  }

  /** Block k of every buffer, in buffer order. */
  function BlockOfEach(bufs: seq<seq<real>>, k: nat, points: nat): (r: seq<seq<real>>)
    ensures |r| == |bufs|
    ensures forall j :: 0 <= j < |bufs| ==> r[j] == Block(bufs[j], k, points)
  {
    seq(|bufs|, j requires 0 <= j < |bufs| => Block(bufs[j], k, points))
  }

  /** `[calc_vswr(s) for s in curves]`: the first curve with a pole raises. */
  function VswrCurves(curves: seq<seq<real>>, toLinear: real -> real): (r: Result<seq<seq<real>>>)
    ensures r.Ok? <==> forall k, i :: 0 <= k < |curves| && 0 <= i < |curves[k]| ==> toLinear(curves[k][i]) != 1.0
    ensures r.Err? ==> r.error == ZeroDivision
    ensures r.Ok? ==> |r.value| == |curves| && forall k :: 0 <= k < |curves| ==> Ok(r.value[k]) == CalcVswr(curves[k], toLinear)
  {
    if curves == [] then Ok([])
    else
      match CalcVswr(curves[0], toLinear)
      case Err(e) => Err(e)
      case Ok(head) =>
        match VswrCurves(curves[1..], toLinear)
        case Err(e) =>
          assert forall k :: 1 <= k < |curves| ==> curves[k] == curves[1..][k - 1];
          Err(e)
        case Ok(tail) =>
          assert forall k :: 1 <= k < |curves| ==> curves[k] == curves[1..][k - 1];
          Ok([head] + tail)
  }

  /** `[statistics.mean(vs) for vs in zip(*s21s)]`: the mean over states at every point. */
  function Means(s21s: seq<seq<real>>): (r: seq<real>)
    ensures |r| == ZipLen(s21s)
    ensures forall p :: 0 <= p < |r| ==> r[p] == Mean(Column(s21s, p))
  {
    var cols := Transpose(s21s);
    seq(|cols|, p requires 0 <= p < |cols| => Mean(cols[p]))
  }

  /** `_calc_s21_err`: every state's S21 minus the mean over states, point by point. */
  function S21Errors(s21s: seq<seq<real>>): (r: seq<seq<real>>)
    ensures |r| == |s21s|
    ensures forall k :: 0 <= k < |r| ==> |r[k]| == ZipLen(s21s)
    ensures forall k, p {:trigger r[k][p]} :: 0 <= k < |r| && 0 <= p < |r[k]| ==> r[k][p] + Means(s21s)[p] == s21s[k][p]
  {
    var means := Means(s21s);
    seq(|s21s|, k requires 0 <= k < |s21s| => CalcError(s21s[k], means))
  }

  /** n times the mean of n values is their sum. */
  lemma MeanTimesCount(xs: seq<real>)
    requires xs != []
    ensures (|xs| as real) * Mean(xs) == Sum(xs)
  {
    var n := |xs| as real;
    assert n * (Sum(xs) / n) == Sum(xs);
  }

  lemma {:induction false} SumConstant(xs: seq<real>, c: real)
    requires forall i :: 0 <= i < |xs| ==> xs[i] == c
    ensures Sum(xs) == (|xs| as real) * c
  {
    if xs != [] {
      SumConstant(xs[1..], c);
    }
  }

  /** The errors of all states at point p: the S21 values there minus their mean. */
  lemma ErrorColumn(s21s: seq<seq<real>>, p: nat)
    requires p < ZipLen(s21s)
    ensures |Column(S21Errors(s21s), p)| == |Column(s21s, p)| && Column(s21s, p) != []
    ensures forall k :: 0 <= k < |s21s| ==> Column(S21Errors(s21s), p)[k] == Column(s21s, p)[k] - Mean(Column(s21s, p))
  {
    var all := S21Errors(s21s);
    forall k | 0 <= k < |s21s| ensures Column(all, p)[k] == Column(s21s, p)[k] - Means(s21s)[p] {
      assert all[k][p] + Means(s21s)[p] == s21s[k][p];
    }
  }

  lemma MeanOfConstant(xs: seq<real>, c: real)
    requires xs != []
    requires forall i :: 0 <= i < |xs| ==> xs[i] == c
    ensures Mean(xs) == c
  {
    SumConstant(xs, c);
    var n := |xs| as real;
    assert (n * c) / n == c;
  }

  /** Values minus their mean sum to zero. */
  lemma CenteredSumZero(col: seq<real>, errs: seq<real>)
    requires col != [] && |errs| == |col|
    requires forall i :: 0 <= i < |col| ==> errs[i] == col[i] - Mean(col)
    ensures Sum(errs) == 0.0
  {
    SumOfDifferences(col, errs, Mean(col));
    MeanTimesCount(col);
  }

  /** Values minus their mean are all zero exactly when the values are all equal. */
  lemma CenteredZeroIff(col: seq<real>, errs: seq<real>)
    requires col != [] && |errs| == |col|
    requires forall i :: 0 <= i < |col| ==> errs[i] == col[i] - Mean(col)
    ensures (forall i :: 0 <= i < |errs| ==> errs[i] == 0.0) <==> (forall i :: 0 <= i < |col| ==> col[i] == col[0])
  {
    if forall i :: 0 <= i < |col| ==> col[i] == col[0] {
      MeanOfConstant(col, col[0]);
    }
  }

  /** Mean-centring: at every point the errors of all states sum to zero. */
  lemma ErrorsSumToZero(s21s: seq<seq<real>>, p: nat)
    requires p < ZipLen(s21s)
    ensures Sum(Column(S21Errors(s21s), p)) == 0.0
  {
    ErrorColumn(s21s, p);
    CenteredSumZero(Column(s21s, p), Column(S21Errors(s21s), p));
  }

  /** The states agree at point p. */
  ghost predicate StatesAgree(s21s: seq<seq<real>>, p: nat)
    requires forall k :: 0 <= k < |s21s| ==> p < |s21s[k]|
  {
    forall k :: 0 <= k < |s21s| ==> s21s[k][p] == s21s[0][p]
  }

  /** The errors at a point are all zero exactly when every state has the same S21 there. */
  lemma ErrorsZeroIff(s21s: seq<seq<real>>, p: nat)
    requires p < ZipLen(s21s)
    ensures (forall k :: 0 <= k < |s21s| ==> S21Errors(s21s)[k][p] == 0.0) <==> StatesAgree(s21s, p)
  {
    var col, errs := Column(s21s, p), Column(S21Errors(s21s), p);
    ErrorColumn(s21s, p);
    CenteredZeroIff(col, errs);
    assert forall k :: 0 <= k < |s21s| ==> errs[k] == S21Errors(s21s)[k][p] && col[k] == s21s[k][p];
  }

  /** If every state is the same curve, every error is zero. */
  lemma IdenticalStatesZeroErrors(s21s: seq<seq<real>>)
    requires forall k :: 0 <= k < |s21s| ==> s21s[k] == s21s[0]
    ensures forall k, p :: 0 <= k < |s21s| && 0 <= p < ZipLen(s21s) ==> S21Errors(s21s)[k][p] == 0.0
  {
    forall k, p | 0 <= k < |s21s| && 0 <= p < ZipLen(s21s)
      ensures S21Errors(s21s)[k][p] == 0.0
    {
      ErrorsZeroIff(s21s, p);
    }
  }

  /** `[shift_vals(s, d) for s in curves]`. */
  function ShiftAll(curves: seq<seq<real>>, d: real): (r: seq<seq<real>>)
    ensures |r| == |curves|
    ensures forall k :: 0 <= k < |curves| ==> r[k] == ShiftVals(curves[k], d)
  {
    seq(|curves|, k requires 0 <= k < |curves| => ShiftVals(curves[k], d))
  }

  /** `[mul_vals(s, m) for s in curves]`. */
  function MulAll(curves: seq<seq<real>>, m: real): (r: seq<seq<real>>)
    ensures |r| == |curves|
    ensures forall k :: 0 <= k < |curves| ==> r[k] == MulVals(curves[k], m)
  {
    seq(|curves|, k requires 0 <= k < |curves| => MulVals(curves[k], m))
  }

  /** Curves of equal lengths have the same number of common points. */
  lemma ZipLenOfSameLengths(a: seq<seq<real>>, b: seq<seq<real>>)
    requires |a| == |b|
    requires forall k :: 0 <= k < |a| ==> |a[k]| == |b[k]|
    ensures ZipLen(a) == ZipLen(b)
  {
    if a != [] {
      var ka :| 0 <= ka < |a| && MinLen(a) == |a[ka]|;
      var kb :| 0 <= kb < |b| && MinLen(b) == |b[kb]|;
      assert MinLen(a) <= |a[kb]| && MinLen(b) <= |b[ka]|;
    }
  }

  /** A uniform S21 shift (the adjust step on S21) leaves the errors unchanged: the
      means move by the same amount. */
  lemma ShiftKeepsErrors(s21s: seq<seq<real>>, d: real)
    ensures S21Errors(ShiftAll(s21s, d)) == S21Errors(s21s)
  {
    var shifted := ShiftAll(s21s, d);
    ZipLenOfSameLengths(shifted, s21s);
    var a, b := S21Errors(shifted), S21Errors(s21s);
    forall p | 0 <= p < ZipLen(s21s)
      ensures Means(shifted)[p] == Means(s21s)[p] + d
    {
      assert Column(shifted, p) == ShiftVals(Column(s21s, p), d);
      ShiftMean(Column(s21s, p), d);
    }
    forall k | 0 <= k < |s21s| ensures a[k] == b[k] {
      forall p | 0 <= p < |a[k]| ensures a[k][p] == b[k][p] {
        assert a[k][p] + Means(shifted)[p] == shifted[k][p];
      }
    }
  }

  /** Number of tuples `zip(*errs, means)` yields: the means alone when there are no
      error curves, otherwise the shortest of all. */
  function TupleCount(errs: seq<seq<real>>, nMeans: nat): (n: nat)
    ensures n <= nMeans
    ensures forall k :: 0 <= k < |errs| ==> n <= |errs[k]|
    ensures errs == [] ==> n == nMeans
    ensures n == nMeans || exists k :: 0 <= k < |errs| && n == |errs[k]|
  {
    if errs == [] then nMeans
    else if MinLen(errs) <= nMeans then MinLen(errs) else nMeans
  }

  /** The values `_calc_s21_rmse` appends: one RMSE per tuple of `zip(*errs, means)`, or
      a division by zero when there are means but no error curves. */
  function RmseValues(errs: seq<seq<real>>, means: seq<real>, sqrt: real -> real): (r: Result<seq<real>>)
    ensures r.Err? <==> errs == [] && means != []
    ensures r.Err? ==> r.error == ZeroDivision
    ensures r.Ok? ==> |r.value| == TupleCount(errs, |means|)
    ensures r.Ok? ==> forall p :: 0 <= p < |r.value| ==> CalcRmseAmp(Column(errs, p), sqrt) == Ok(r.value[p])
  {
    var n := TupleCount(errs, |means|);
    if errs == [] && means != [] then Err(ZeroDivision)
    else Ok(seq(n, p requires 0 <= p < n => CalcRmseAmp(Column(errs, p), sqrt).value))
  }

  /** On the errors of `_calc_s21_err` the RMSE never fails, gives one value per point,
      is never negative, and is zero exactly where every state has the same S21. */
  lemma RmseOfErrorsDefined(s21s: seq<seq<real>>, sqrt: real -> real)
    ensures var r := RmseValues(S21Errors(s21s), Means(s21s), sqrt);
      r.Ok? && |r.value| == ZipLen(s21s)
  {
    var errs := S21Errors(s21s);
    if s21s == [] {
      assert Means(s21s) == [];
    } else {
      assert TupleCount(errs, ZipLen(s21s)) == ZipLen(s21s) by {
        var k :| 0 <= k < |errs| && MinLen(errs) == |errs[k]|;
      }
    }
  }

  lemma RmseOfErrors(s21s: seq<seq<real>>, sqrt: real -> real)
    requires SqrtSound(sqrt)
    ensures var r := RmseValues(S21Errors(s21s), Means(s21s), sqrt);
      && r.Ok?
      && |r.value| == ZipLen(s21s)
      && forall p :: 0 <= p < |r.value| ==> r.value[p] >= 0.0 && (r.value[p] == 0.0 <==> StatesAgree(s21s, p))
  {
    var errs := S21Errors(s21s);
    var r := RmseValues(errs, Means(s21s), sqrt);
    RmseOfErrorsDefined(s21s, sqrt);
    if s21s != [] {
      forall p | 0 <= p < |r.value|
        ensures r.value[p] >= 0.0 && (r.value[p] == 0.0 <==> StatesAgree(s21s, p))
      {
        ErrorsZeroIff(s21s, p);
        var col := Column(errs, p);
        assert forall k :: 0 <= k < |s21s| ==> col[k] == errs[k][p];
      }
    }
  }

  /** `lo + abs(hi - lo) // 2` from `_calc_stats`. */
  function MidIndex(lo: nat, hi: nat): nat
  {
    lo + (if lo <= hi then hi - lo else lo - hi) / 2
  }

  /** `low + (high - low) // 2` from the report, with Python's floor division. It is
      never negative, so Python's negative indexing cannot arise at the report's lookup. */
  function ReportMid(lo: nat, hi: nat): nat
  {
    lo + (hi - lo) / 2
  }

  /** With lo <= hi both mid formulas give the lower middle of [lo, hi]; with hi < lo
      `_calc_stats` moves past lo (away from hi) while the report stays between them,
      so the two disagree exactly when the borders are reversed. */
  lemma MidIndexBetween(lo: nat, hi: nat)
    ensures lo <= hi ==> lo <= MidIndex(lo, hi) <= hi && 2 * MidIndex(lo, hi) <= lo + hi <= 2 * MidIndex(lo, hi) + 1
    ensures hi < lo ==> lo <= MidIndex(lo, hi) && hi <= ReportMid(lo, hi) < lo
    ensures MidIndex(lo, hi) == ReportMid(lo, hi) <==> lo <= hi
  {
  }

  /** Borders at indices 9 and 0: `_calc_stats` reads point 13 as the middle. */
  lemma MidIndexReversedExample()
    ensures MidIndex(9, 0) == 13 && ReportMid(9, 0) == 4
  {
  }

  /** The list comprehension at measureresult.py:159: the worst-case S21 at lo, mid and
      hi, or an IndexError when one of them lies beyond the common points. */
  function BorderMins(s21s: seq<seq<real>>, lo: nat, hi: nat): (r: Result<seq<real>>)
    ensures r.Ok? <==> lo < ZipLen(s21s) && MidIndex(lo, hi) < ZipLen(s21s) && hi < ZipLen(s21s)
    ensures r.Err? ==> r.error == IndexOutOfRange
    ensures r.Ok? ==> r.value == [WorstCase(s21s)[lo], WorstCase(s21s)[MidIndex(lo, hi)], WorstCase(s21s)[hi]]
  {
    var vs := Transpose(s21s);
    var mid := MidIndex(lo, hi);
    if |vs| <= lo || |vs| <= mid || |vs| <= hi then Err(IndexOutOfRange)
    else Ok([MinOf(vs[lo]), MinOf(vs[mid]), MinOf(vs[hi])])
  }

  /** What `_calc_stats` assigns before it returns or raises; None marks a field the
      run never reaches. */
  datatype StatsUpdate = StatsUpdate(lo: Option<nat>, hi: Option<nat>, mins: Option<seq<real>>, status: Status)

  /** `_calc_stats`: the lower border index is stored before Fborder2 is looked up, the
      upper one before the minima are computed. */
  function BorderStats(params: map<string, real>, freqs: seq<real>, s21s: seq<seq<real>>): (u: StatsUpdate)
    ensures !("Fborder1" in params) ==> u == StatsUpdate(None, None, None, Raised(MissingKey("Fborder1")))
    ensures "Fborder1" in params && freqs == [] ==> u == StatsUpdate(None, None, None, Raised(EmptyAxis))
    ensures "Fborder1" in params && freqs != [] && !("Fborder2" in params) ==>
      u.hi.None? && u.status == Raised(MissingKey("Fborder2"))
    ensures u.lo.Some? ==> "Fborder1" in params && IsNearest(freqs, params["Fborder1"] * HZ_PER_GHZ, u.lo.value)
    ensures u.hi.Some? ==> u.lo.Some? && "Fborder2" in params && IsNearest(freqs, params["Fborder2"] * HZ_PER_GHZ, u.hi.value)
    ensures u.mins.Some? <==> u.status.Done?
    ensures u.mins.Some? ==> u.hi.Some? && BorderMins(s21s, u.lo.value, u.hi.value) == Ok(u.mins.value)
    ensures u.hi.Some? && u.status.Raised? ==> u.status.error == IndexOutOfRange
    ensures "Fborder1" in params && freqs != [] ==> u.lo.Some?
    ensures "Fborder1" in params && "Fborder2" in params && freqs != [] ==>
      u.hi.Some? && (u.status.Done? <==> BorderMins(s21s, u.lo.value, u.hi.value).Ok?)
  {
    if !("Fborder1" in params) then StatsUpdate(None, None, None, Raised(MissingKey("Fborder1")))
    else match FindFreqIndex(freqs, params["Fborder1"])
      case Err(e) => StatsUpdate(None, None, None, Raised(e))
      case Ok(lo) =>
        if !("Fborder2" in params) then StatsUpdate(Some(lo), None, None, Raised(MissingKey("Fborder2")))
        else
          var hi := FindFreqIndex(freqs, params["Fborder2"]).value;
          match BorderMins(s21s, lo, hi)
          case Err(e) => StatsUpdate(Some(lo), Some(hi), None, Raised(e))
          case Ok(m) => StatsUpdate(Some(lo), Some(hi), Some(m), Done)
  }
}
