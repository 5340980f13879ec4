/** `MeasureResult`: the object the measurement controller fills with one run's raw
    sweeps. Setting `raw_data` resets it, de-interleaves the buffers (or reads the
    calibration set in adjust mode), and runs the reduction pipeline, which sets
    `ready` only when every step finishes. Each step is a method that changes the
    fields it names and is specified by the functions of Reduction, Passband and
    Calibration; a step that raises leaves the assignments made before the raise. */
module MeasureResults {
  import opened Outcomes
  import opened RealSeqs
  import opened Curves
  import opened Passband
  import opened Reduction
  import opened Calibration

  /** `_current`: absent before the first run, 0 after `_init`, then the readings. */
  datatype Currents = Unset | Zero | Readings(amps: seq<real>)

  /** The values `_adjust_data` draws with `random.uniform`, passed in. */
  datatype Draws = Draws(s21Shift: real, vswrInShift: real, vswrOutShift: real, errMul: real)

  /** The S11, S21 or S22 curve of every sweep. */
  function S11Of(sweeps: seq<Sweep>): (r: seq<seq<real>>)
    ensures |r| == |sweeps| && forall j :: 0 <= j < |sweeps| ==> r[j] == sweeps[j].s11
  {
    seq(|sweeps|, j requires 0 <= j < |sweeps| => sweeps[j].s11)
  }

  function S21Of(sweeps: seq<Sweep>): (r: seq<seq<real>>)
    ensures |r| == |sweeps| && forall j :: 0 <= j < |sweeps| ==> r[j] == sweeps[j].s21
  {
    seq(|sweeps|, j requires 0 <= j < |sweeps| => sweeps[j].s21)
  }

  function S22Of(sweeps: seq<Sweep>): (r: seq<seq<real>>)
    ensures |r| == |sweeps| && forall j :: 0 <= j < |sweeps| ==> r[j] == sweeps[j].s22
  {
    seq(|sweeps|, j requires 0 <= j < |sweeps| => sweeps[j].s22)
  }

  /** Both ports' curves convert to VSWR without a pole. */
  ghost predicate VswrConverts(toLinear: real -> real, s11s: seq<seq<real>>, s22s: seq<seq<real>>)
  {
    VswrCurves(s11s, toLinear).Ok? && VswrCurves(s22s, toLinear).Ok?
  }

  /** The curves s11', s21', s22' and axis f' that de-interleaving the buffers `s2p` leaves
      when it starts from curves s11, s21, s22 and axis f: each curve gains one block per
      buffer, and the axis is the last buffer's block 0 (measureresult.py:239-249). */
  ghost predicate Deinterleaved(s2p: seq<seq<real>>, points: nat,
    s11: seq<seq<real>>, s21: seq<seq<real>>, s22: seq<seq<real>>, f: seq<real>,
    s11': seq<seq<real>>, s21': seq<seq<real>>, s22': seq<seq<real>>, f': seq<real>)
  {
    && s11' == s11 + BlockOfEach(s2p, S11_BLOCK, points)
    && s21' == s21 + BlockOfEach(s2p, S21_BLOCK, points)
    && s22' == s22 + BlockOfEach(s2p, S22_BLOCK, points)
    && f' == (if s2p == [] then f else Block(s2p[|s2p| - 1], FREQ_BLOCK, points))
  }

  /** De-interleaving onto cleared curves: curve k holds block k of each buffer, in
      buffer order, and the axis is empty only when there are no buffers. */
  lemma DeinterleavedFresh(s2p: seq<seq<real>>, points: nat,
    s11: seq<seq<real>>, s21: seq<seq<real>>, s22: seq<seq<real>>, f: seq<real>)
    requires Deinterleaved(s2p, points, [], [], [], [], s11, s21, s22, f)
    ensures |s11| == |s21| == |s22| == |s2p|
    ensures forall j :: 0 <= j < |s2p| ==>
      && s11[j] == Block(s2p[j], S11_BLOCK, points)
      && s21[j] == Block(s2p[j], S21_BLOCK, points)
      && s22[j] == Block(s2p[j], S22_BLOCK, points)
    ensures s2p == [] ==> f == []
    ensures s2p != [] ==> f == Block(s2p[|s2p| - 1], FREQ_BLOCK, points)
  {
    assert s11 == BlockOfEach(s2p, S11_BLOCK, points) by {
      assert [] + BlockOfEach(s2p, S11_BLOCK, points) == BlockOfEach(s2p, S11_BLOCK, points);
    }
    assert s21 == BlockOfEach(s2p, S21_BLOCK, points) by {
      assert [] + BlockOfEach(s2p, S21_BLOCK, points) == BlockOfEach(s2p, S21_BLOCK, points);
    }
    assert s22 == BlockOfEach(s2p, S22_BLOCK, points) by {
      assert [] + BlockOfEach(s2p, S22_BLOCK, points) == BlockOfEach(s2p, S22_BLOCK, points);
    }
  }

  /** What measureresult.py:105-112 leave when they finish: the VSWR curves of both
      ports and the mean-centred S21 errors. */
  ghost predicate CurvesReduced(toLinear: real -> real, s11s: seq<seq<real>>, s22s: seq<seq<real>>,
    s21s: seq<seq<real>>, vswrIn: seq<seq<real>>, vswrOut: seq<seq<real>>, errs: seq<seq<real>>)
  {
    && VswrCurves(s11s, toLinear) == Ok(vswrIn)
    && VswrCurves(s22s, toLinear) == Ok(vswrOut)
    && errs == S21Errors(s21s)
  }

  /** Every tuple of errors and means has an RMSE. */
  ghost predicate RmseDefined(sqrt: real -> real, errs: seq<seq<real>>, s21s: seq<seq<real>>)
  {
    RmseValues(errs, Means(s21s), sqrt).Ok?
  }

  /** Neither the border statistics nor the edge search raises. */
  ghost predicate StatisticsSucceed(round2: real -> real, params: map<string, real>, freqs: seq<real>, s21s: seq<seq<real>>)
  {
    BorderStats(params, freqs, s21s).status.Done? && WorstLoss(params, freqs, s21s, round2).status.Done?
  }

  /** What measureresult.py:115-117 leave when they finish: the RMSE values appended
      after `rmseBefore`, the border indices and minima, and both edges. */
  ghost predicate StatisticsStored(m: MathLib, params: map<string, real>, freqs: seq<real>, s21s: seq<seq<real>>,
    errs: seq<seq<real>>, rmseBefore: seq<real>, rmse: seq<real>, lo: nat, hi: nat, mins: seq<real>, kpMin: Edge, kpMax: Edge)
  {
    && RmseValues(errs, Means(s21s), m.sqrt).Ok?
    && rmse == rmseBefore + RmseValues(errs, Means(s21s), m.sqrt).value
    && BorderStats(params, freqs, s21s) == StatsUpdate(Some(lo), Some(hi), Some(mins), Done)
    && WorstLoss(params, freqs, s21s, m.round2) == EdgeUpdate(Some(kpMin), Some(kpMax), Done)
  }

  /** RmseDefined unfolded, for callers that keep its body hidden.
      Empty body: the definition is visible here, and callers that verify under
      `hide *` (to keep their proofs small) use this lemma in its place. */
  lemma RmseDefinedIff(sqrt: real -> real, errs: seq<seq<real>>, s21s: seq<seq<real>>)
    ensures RmseDefined(sqrt, errs, s21s) <==> RmseValues(errs, Means(s21s), sqrt).Ok?
  {
  }

  /** The three stores of measureresult.py:115-117 together make StatisticsStored.
      Empty body: the definition is visible here, and callers that verify under
      `hide *` (to keep their proofs small) use this lemma in its place. */
  lemma StatisticsStoredIntro(m: MathLib, params: map<string, real>, freqs: seq<real>, s21s: seq<seq<real>>,
    errs: seq<seq<real>>, rmseBefore: seq<real>, rmse: seq<real>, lo: nat, hi: nat, mins: seq<real>, kpMin: Edge, kpMax: Edge)
    requires RmseValues(errs, Means(s21s), m.sqrt).Ok?
    requires rmse == rmseBefore + RmseValues(errs, Means(s21s), m.sqrt).value
    requires BorderStats(params, freqs, s21s) == StatsUpdate(Some(lo), Some(hi), Some(mins), Done)
    requires WorstLoss(params, freqs, s21s, m.round2) == EdgeUpdate(Some(kpMin), Some(kpMax), Done)
    ensures StatisticsStored(m, params, freqs, s21s, errs, rmseBefore, rmse, lo, hi, mins, kpMin, kpMax)
  {
  }

  /** The errors `_calc_s21_err` stores always have an RMSE at every point. */
  lemma ErrorsHaveRmse(m: MathLib, s21s: seq<seq<real>>)
    ensures RmseDefined(m.sqrt, S21Errors(s21s), s21s)
  {
    RmseOfErrorsDefined(s21s, m.sqrt);
  }

  /** The exception measureresult.py:116-117 let through: the border statistics' own,
      otherwise the edge search's. */
  ghost function BordersOutcome(round2: real -> real, params: map<string, real>, freqs: seq<real>, s21s: seq<seq<real>>): Status
  {
    var b := BorderStats(params, freqs, s21s).status;
    if b.Raised? then b else WorstLoss(params, freqs, s21s, round2).status
  }

  /** The outcome of measureresult.py:115-117: ZeroDivision from the RMSE step, otherwise
      what the border statistics and the edge search let through. */
  ghost function StatisticsOutcome(m: MathLib, params: map<string, real>, freqs: seq<real>,
    s21s: seq<seq<real>>, errs: seq<seq<real>>): Status
  {
    if RmseDefined(m.sqrt, errs, s21s) then BordersOutcome(m.round2, params, freqs, s21s) else Raised(ZeroDivision)
  }

  /** The outcome of measureresult.py:105-113: ZeroDivision at a VSWR pole of S11 or S22;
      otherwise, in adjust mode, the AttributeError of `_adjust_data('err')`. */
  ghost function CurvesOutcome(toLinear: real -> real, adjust: bool, s11s: seq<seq<real>>, s22s: seq<seq<real>>): Status
  {
    if !VswrConverts(toLinear, s11s, s22s) then Raised(ZeroDivision)
    else if adjust then Raised(MissingAttribute("_s21s_ph_err"))
    else Done
  }

  /** The outcome of `_process`: the first step that raises decides the exception. */
  ghost function ProcessOutcome(m: MathLib, adjust: bool, params: map<string, real>, freqs: seq<real>,
    s11s: seq<seq<real>>, s22s: seq<seq<real>>, s21s: seq<seq<real>>, errs: seq<seq<real>>): Status
  {
    var c := CurvesOutcome(m.dbToLinear, adjust, s11s, s22s);
    if c.Raised? then c else StatisticsOutcome(m, params, freqs, s21s, errs)
  }

  /** BordersOutcome unfolded.
      Empty body: the definition is visible here, and callers that verify under
      `hide *` (to keep their proofs small) use this lemma in its place. */
  lemma BordersOutcomeUnfolds(round2: real -> real, params: map<string, real>, freqs: seq<real>, s21s: seq<seq<real>>)
    ensures BordersOutcome(round2, params, freqs, s21s) ==
      if BorderStats(params, freqs, s21s).status.Raised? then BorderStats(params, freqs, s21s).status
      else WorstLoss(params, freqs, s21s, round2).status
  {
  }

  /** StatisticsOutcome unfolded.
      Empty body: the definition is visible here, and callers that verify under
      `hide *` (to keep their proofs small) use this lemma in its place. */
  lemma StatisticsOutcomeUnfolds(m: MathLib, params: map<string, real>, freqs: seq<real>,
    s21s: seq<seq<real>>, errs: seq<seq<real>>)
    ensures StatisticsOutcome(m, params, freqs, s21s, errs) ==
      if RmseDefined(m.sqrt, errs, s21s) then BordersOutcome(m.round2, params, freqs, s21s) else Raised(ZeroDivision)
  {
  }

  /** ProcessOutcome unfolded.
      Empty body: the definition is visible here, and callers that verify under
      `hide *` (to keep their proofs small) use this lemma in its place. */
  lemma ProcessOutcomeUnfolds(m: MathLib, adjust: bool, params: map<string, real>, freqs: seq<real>,
    s11s: seq<seq<real>>, s22s: seq<seq<real>>, s21s: seq<seq<real>>, errs: seq<seq<real>>)
    ensures ProcessOutcome(m, adjust, params, freqs, s11s, s22s, s21s, errs) ==
      if CurvesOutcome(m.dbToLinear, adjust, s11s, s22s).Raised? then CurvesOutcome(m.dbToLinear, adjust, s11s, s22s)
      else StatisticsOutcome(m, params, freqs, s21s, errs)
  {
  }

  /** The statistics and the edges finish together exactly when both succeed; what they
      raise is a missing key, an empty axis or an IndexError, in source order. */
  lemma BordersOutcomeIff(round2: real -> real, params: map<string, real>, freqs: seq<real>, s21s: seq<seq<real>>)
    ensures BordersOutcome(round2, params, freqs, s21s).Done? <==> StatisticsSucceed(round2, params, freqs, s21s)
    ensures var o := BordersOutcome(round2, params, freqs, s21s);
      o.Raised? ==> o.error in {MissingKey("Fborder1"), EmptyAxis, MissingKey("Fborder2"), MissingKey("kp"), IndexOutOfRange}
    ensures !("Fborder1" in params) ==> BordersOutcome(round2, params, freqs, s21s) == Raised(MissingKey("Fborder1"))
  {
    var b := BorderStats(params, freqs, s21s);
    if b.status.Done? {
      assert "Fborder1" in params && "Fborder2" in params && freqs != [];
    }
  }

  /** `_process` on curves whose errors were just computed: outside adjust mode it finishes
      exactly when the curves convert and the statistics succeed; in adjust mode it raises
      ZeroDivision or AttributeError; every exception it lets through is one of the steps'. */
  lemma ProcessOutcomeIff(m: MathLib, adjust: bool, params: map<string, real>, freqs: seq<real>,
    s11s: seq<seq<real>>, s22s: seq<seq<real>>, s21s: seq<seq<real>>)
    ensures var o := ProcessOutcome(m, adjust, params, freqs, s11s, s22s, s21s, S21Errors(s21s));
      && (o.Done? <==> !adjust && VswrConverts(m.dbToLinear, s11s, s22s) && StatisticsSucceed(m.round2, params, freqs, s21s))
      && (adjust ==> o.Raised? && o.error in {ZeroDivision, MissingAttribute("_s21s_ph_err")})
      && (o.Raised? ==> o.error in {ZeroDivision, MissingAttribute("_s21s_ph_err"), MissingKey("Fborder1"),
            EmptyAxis, MissingKey("Fborder2"), MissingKey("kp"), IndexOutOfRange})
  {
    ErrorsHaveRmse(m, s21s);
    BordersOutcomeIff(m.round2, params, freqs, s21s);
  }

  /** After a finished reduction the RMSE list gains one value per common point of the
      S21 curves; each is non-negative, and zero exactly where every state has the same
      S21 (with a square root that is sound). */
  lemma StoredRmse(m: MathLib, params: map<string, real>, freqs: seq<real>, s21s: seq<seq<real>>,
    rmseBefore: seq<real>, rmse: seq<real>, lo: nat, hi: nat, mins: seq<real>, kpMin: Edge, kpMax: Edge)
    requires SqrtSound(m.sqrt)
    requires StatisticsStored(m, params, freqs, s21s, S21Errors(s21s), rmseBefore, rmse, lo, hi, mins, kpMin, kpMax)
    ensures |rmse| == |rmseBefore| + ZipLen(s21s)
    ensures rmse[..|rmseBefore|] == rmseBefore
    ensures forall p :: 0 <= p < ZipLen(s21s) ==>
      rmse[|rmseBefore| + p] >= 0.0 && (rmse[|rmseBefore| + p] == 0.0 <==> StatesAgree(s21s, p))
  {
    RmseOfErrors(s21s, m.sqrt);
    var vals := RmseValues(S21Errors(s21s), Means(s21s), m.sqrt).value;
    assert forall p :: 0 <= p < |vals| ==> rmse[|rmseBefore| + p] == vals[p];
  }

  /** After a finished reduction the border indices are the points nearest Fborder1 and
      Fborder2, the minima are taken at them, and each edge is `'n/a'` or the rounded
      frequency of a point (measureresult.py:152-182). */
  lemma StoredBorders(m: MathLib, params: map<string, real>, freqs: seq<real>, s21s: seq<seq<real>>,
    errs: seq<seq<real>>, rmseBefore: seq<real>, rmse: seq<real>, lo: nat, hi: nat, mins: seq<real>, kpMin: Edge, kpMax: Edge)
    requires StatisticsStored(m, params, freqs, s21s, errs, rmseBefore, rmse, lo, hi, mins, kpMin, kpMax)
    ensures "Fborder1" in params && IsNearest(freqs, params["Fborder1"] * HZ_PER_GHZ, lo)
    ensures "Fborder2" in params && IsNearest(freqs, params["Fborder2"] * HZ_PER_GHZ, hi)
    ensures BorderMins(s21s, lo, hi) == Ok(mins)
    ensures kpMin == NotAvailable <==> kpMax == NotAvailable
  {
  }

  /** Reading one more file appends its curves, after whatever the lists held before. */
  lemma SweepsSnoc(a11: seq<seq<real>>, a21: seq<seq<real>>, a22: seq<seq<real>>, sweeps: seq<Sweep>, sweep: Sweep)
    ensures a11 + S11Of(sweeps) + [sweep.s11] == a11 + S11Of(sweeps + [sweep])
    ensures a21 + S21Of(sweeps) + [sweep.s21] == a21 + S21Of(sweeps + [sweep])
    ensures a22 + S22Of(sweeps) + [sweep.s22] == a22 + S22Of(sweeps + [sweep])
  {
    assert forall j :: 0 <= j < |sweeps| ==> (sweeps + [sweep])[j] == sweeps[j];
    assert S11Of(sweeps + [sweep]) == S11Of(sweeps) + [sweep.s11];
    assert S21Of(sweeps + [sweep]) == S21Of(sweeps) + [sweep.s21];
    assert S22Of(sweeps + [sweep]) == S22Of(sweeps) + [sweep.s22];
  }

  /** The ingest loop's result, folded into Deinterleaved.
      Empty body: the definition is visible here, and callers that verify under
      `hide *` (to keep their proofs small) use this lemma in its place. */
  lemma DeinterleavedIntro(s2p: seq<seq<real>>, points: nat,
    s11: seq<seq<real>>, s21: seq<seq<real>>, s22: seq<seq<real>>, f: seq<real>,
    s11': seq<seq<real>>, s21': seq<seq<real>>, s22': seq<seq<real>>, f': seq<real>)
    requires s11' == s11 + BlockOfEach(s2p, S11_BLOCK, points)
    requires s21' == s21 + BlockOfEach(s2p, S21_BLOCK, points)
    requires s22' == s22 + BlockOfEach(s2p, S22_BLOCK, points)
    requires f' == if s2p == [] then f else Block(s2p[|s2p| - 1], FREQ_BLOCK, points)
    ensures Deinterleaved(s2p, points, s11, s21, s22, f, s11', s21', s22', f')
  {
  }

  /** After de-interleaving onto cleared curves the axis is at least as long as the
      common points of the S21 curves: the last buffer gives both the axis and an S21
      curve no longer than it. */
  lemma IngestedAxisCoversS21(s2p: seq<seq<real>>, points: nat,
    s11: seq<seq<real>>, s21: seq<seq<real>>, s22: seq<seq<real>>, f: seq<real>)
    requires Deinterleaved(s2p, points, [], [], [], [], s11, s21, s22, f)
    ensures ZipLen(s21) <= |f|
  {
    DeinterleavedFresh(s2p, points, s11, s21, s22, f);
    if s2p != [] {
      var last := |s2p| - 1;
      BlockNoLongerThanAxis(s2p[last], S21_BLOCK, points);
      assert ZipLen(s21) <= |s21[last]|;
    }
  }

  /** So on ingested sweeps the edge search, with its keys present, always finishes, and
      the border fallback is taken only on a single-point axis. */
  lemma IngestedEdgesFinish(s2p: seq<seq<real>>, points: nat,
    s11: seq<seq<real>>, s21: seq<seq<real>>, s22: seq<seq<real>>, f: seq<real>,
    params: map<string, real>, round2: real -> real)
    requires Deinterleaved(s2p, points, [], [], [], [], s11, s21, s22, f)
    requires LookupsSucceed(params, f)
    ensures WorstLoss(params, f, s21, round2).status.Done?
    ensures |f| >= 2 ==> |PassingRuns(WorstCase(s21), params["kp"])| < |f|
  {
    IngestedAxisCoversS21(s2p, points, s11, s21, s22, f);
    WorstLossFinishes(params, f, s21, round2);
    if |f| >= 2 {
      NoFallbackOnLongAxis(WorstCase(s21), params["kp"], |f|);
    }
  }

  /** A calibration run read without failure leaves an axis, the last file's, at least
      as long as the common points of its S21 curves. */
  lemma LoadedAxisCoversS21(files: CalibrationFiles, dir: string, onlyMain: bool)
    ensures var r := IdealRun(files, dir, onlyMain);
      r.failure.None? ==> r.sweeps != [] && ZipLen(S21Of(r.sweeps)) <= |r.sweeps[|r.sweeps| - 1].freqs|
  {
    var r := IdealRun(files, dir, onlyMain);
    if r.failure.None? {
      CompleteRunSizes(files, dir, onlyMain);
      IdealRunUnfolds(files, dir, onlyMain);
      var states := SelectedStates(onlyMain, STATE_COUNT);
      var last := |r.sweeps| - 1;
      assert ReadState(files, dir, states[last]) == Ok(r.sweeps[last]);
      assert |r.sweeps[last].s21| == |r.sweeps[last].freqs|;
      assert ZipLen(S21Of(r.sweeps)) <= |S21Of(r.sweeps)[last]|;
    }
  }

  /** The curves and axis that reading the calibration set leaves, starting from s11,
      s21, s22 and f: each file's curves appended; on a failure the axis is kept and
      the reduction is not reached; otherwise the axis is the last file's and the
      reduction shifts S21 in adjust mode (measureresult.py:184-218). */
  ghost predicate Calibrated(files: CalibrationFiles, dir: string, onlyMain: bool, adjust: bool, shift: real,
    s11: seq<seq<real>>, s21: seq<seq<real>>, s22: seq<seq<real>>, f: seq<real>,
    s11': seq<seq<real>>, s21': seq<seq<real>>, s22': seq<seq<real>>, f': seq<real>)
  {
    var r := IdealRun(files, dir, onlyMain);
    && s11' == s11 + S11Of(r.sweeps)
    && s22' == s22 + S22Of(r.sweeps)
    && (r.failure.Some? ==> s21' == s21 + S21Of(r.sweeps) && f' == f)
    && (r.failure.None? ==>
          && r.sweeps != [] && f' == r.sweeps[|r.sweeps| - 1].freqs
          && s21' == if adjust then ShiftAll(s21 + S21Of(r.sweeps), shift) else s21 + S21Of(r.sweeps))
  }

  /** The calibration load's and the reduction's results, folded into Calibrated.
      Empty body: the definition is visible here, and callers that verify under
      `hide *` (to keep their proofs small) use this lemma in its place. */
  lemma CalibratedIntro(files: CalibrationFiles, dir: string, onlyMain: bool, adjust: bool, shift: real,
    s11: seq<seq<real>>, s21: seq<seq<real>>, s22: seq<seq<real>>, f: seq<real>,
    s11': seq<seq<real>>, s21': seq<seq<real>>, s22': seq<seq<real>>, f': seq<real>)
    requires var r := IdealRun(files, dir, onlyMain);
      && s11' == s11 + S11Of(r.sweeps)
      && s22' == s22 + S22Of(r.sweeps)
      && (r.failure.Some? ==> s21' == s21 + S21Of(r.sweeps) && f' == f)
      && (r.failure.None? ==>
            && r.sweeps != [] && f' == r.sweeps[|r.sweeps| - 1].freqs
            && s21' == if adjust then ShiftAll(s21 + S21Of(r.sweeps), shift) else s21 + S21Of(r.sweeps))
    ensures Calibrated(files, dir, onlyMain, adjust, shift, s11, s21, s22, f, s11', s21', s22', f')
  {
  }

  /** Reading the calibration set onto cleared curves: the curves are exactly the
      files' curves, in state order, the S21 ones shifted once the run was read in full
      in adjust mode; the axis is the last file's, or empty after a failure. */
  lemma CalibratedFresh(files: CalibrationFiles, dir: string, onlyMain: bool, shift: real,
    s11: seq<seq<real>>, s21: seq<seq<real>>, s22: seq<seq<real>>, f: seq<real>)
    requires Calibrated(files, dir, onlyMain, true, shift, [], [], [], [], s11, s21, s22, f)
    ensures var r := IdealRun(files, dir, onlyMain);
      && s11 == S11Of(r.sweeps) && s22 == S22Of(r.sweeps)
      && (r.failure.Some? ==> s21 == S21Of(r.sweeps) && f == [])
      && (r.failure.None? ==> s21 == ShiftAll(S21Of(r.sweeps), shift) && f == r.sweeps[|r.sweeps| - 1].freqs)
  {
    var r := IdealRun(files, dir, onlyMain);
    assert [] + S11Of(r.sweeps) == S11Of(r.sweeps);
    assert [] + S21Of(r.sweeps) == S21Of(r.sweeps);
    assert [] + S22Of(r.sweeps) == S22Of(r.sweeps);
  }

  /** What measureresult.py:105-113 leave in the VSWR and error curves on every path,
      starting from vswrIn0, vswrOut0 and errs0: a raising conversion keeps the fields it
      has not reached; outside adjust mode a finished run holds the reductions; in adjust
      mode both VSWR sets are shifted and the errors scaled before the raise. */
  ghost predicate CurvesAssigned(toLinear: real -> real, adjust: bool, d: Draws,
    s11s: seq<seq<real>>, s22s: seq<seq<real>>, s21s: seq<seq<real>>,
    vswrIn0: seq<seq<real>>, vswrOut0: seq<seq<real>>, errs0: seq<seq<real>>,
    vswrIn: seq<seq<real>>, vswrOut: seq<seq<real>>, errs: seq<seq<real>>)
  {
    && (VswrCurves(s11s, toLinear).Err? ==> vswrIn == vswrIn0 && vswrOut == vswrOut0 && errs == errs0)
    && (VswrCurves(s11s, toLinear).Ok? && VswrCurves(s22s, toLinear).Err? ==>
          Ok(vswrIn) == VswrCurves(s11s, toLinear) && vswrOut == vswrOut0 && errs == errs0)
    && (VswrConverts(toLinear, s11s, s22s) && !adjust ==>
          CurvesReduced(toLinear, s11s, s22s, s21s, vswrIn, vswrOut, errs))
    && (VswrConverts(toLinear, s11s, s22s) && adjust ==>
          && vswrIn == ShiftAll(VswrCurves(s11s, toLinear).value, d.vswrInShift)
          && vswrOut == ShiftAll(VswrCurves(s22s, toLinear).value, d.vswrOutShift)
          && errs == MulAll(S21Errors(s21s), d.errMul))
  }

  /** What measureresult.py:115-117 assign on every path, starting from lo0 … kpMax0:
      whatever BorderStats assigns, then, once it has finished, whatever WorstLoss
      assigns; the edges are untouched when the border statistics raise. */
  ghost predicate BordersAssigned(round2: real -> real, params: map<string, real>, freqs: seq<real>,
    s21s: seq<seq<real>>, lo0: nat, hi0: nat, mins0: seq<real>, kpMin0: Edge, kpMax0: Edge,
    lo: nat, hi: nat, mins: seq<real>, kpMin: Edge, kpMax: Edge)
  {
    var u := BorderStats(params, freqs, s21s);
    var w := WorstLoss(params, freqs, s21s, round2);
    && lo == u.lo.GetOr(lo0) && hi == u.hi.GetOr(hi0) && mins == u.mins.GetOr(mins0)
    && kpMin == (if u.status.Done? then w.kpMin.GetOr(kpMin0) else kpMin0)
    && kpMax == (if u.status.Done? then w.kpMax.GetOr(kpMax0) else kpMax0)
  }

  /** The two steps' stores, folded into BordersAssigned.
      Empty body: the definition is visible here, and callers that verify under
      `hide *` (to keep their proofs small) use this lemma in its place. */
  lemma BordersAssignedIntro(round2: real -> real, params: map<string, real>, freqs: seq<real>,
    s21s: seq<seq<real>>, lo0: nat, hi0: nat, mins0: seq<real>, kpMin0: Edge, kpMax0: Edge,
    lo: nat, hi: nat, mins: seq<real>, kpMin: Edge, kpMax: Edge)
    requires var u := BorderStats(params, freqs, s21s);
      && lo == (if u.lo.Some? then u.lo.value else lo0)
      && hi == (if u.hi.Some? then u.hi.value else hi0)
      && mins == (if u.mins.Some? then u.mins.value else mins0)
    requires BorderStats(params, freqs, s21s).status.Raised? ==> kpMin == kpMin0 && kpMax == kpMax0
    requires BorderStats(params, freqs, s21s).status.Done? ==>
      var w := WorstLoss(params, freqs, s21s, round2);
      && kpMin == (if w.kpMin.Some? then w.kpMin.value else kpMin0)
      && kpMax == (if w.kpMax.Some? then w.kpMax.value else kpMax0)
    ensures BordersAssigned(round2, params, freqs, s21s, lo0, hi0, mins0, kpMin0, kpMax0, lo, hi, mins, kpMin, kpMax)
  {
  }

  /** StatisticsSucceed unfolded, for callers that keep its body hidden.
      Empty body: the definition is visible here, and callers that verify under
      `hide *` (to keep their proofs small) use this lemma in its place. */
  lemma StatisticsSucceedIff(round2: real -> real, params: map<string, real>, freqs: seq<real>, s21s: seq<seq<real>>)
    ensures StatisticsSucceed(round2, params, freqs, s21s) <==>
      BorderStats(params, freqs, s21s).status.Done? && WorstLoss(params, freqs, s21s, round2).status.Done?
  {
  }

  /** The statistics steps on every path once the RMSE is defined: the RMSE values
      appended after rmse0, then the border and edge assignments. */
  ghost predicate StatisticsAssigned(m: MathLib, params: map<string, real>, freqs: seq<real>, s21s: seq<seq<real>>,
    errs: seq<seq<real>>, rmse0: seq<real>, lo0: nat, hi0: nat, mins0: seq<real>, kpMin0: Edge, kpMax0: Edge,
    rmse: seq<real>, lo: nat, hi: nat, mins: seq<real>, kpMin: Edge, kpMax: Edge)
  {
    && RmseValues(errs, Means(s21s), m.sqrt).Ok?
    && rmse == rmse0 + RmseValues(errs, Means(s21s), m.sqrt).value
    && BordersAssigned(m.round2, params, freqs, s21s, lo0, hi0, mins0, kpMin0, kpMax0, lo, hi, mins, kpMin, kpMax)
  }

  /** The RMSE and border results, folded into StatisticsAssigned.
      Empty body: the definition is visible here, and callers that verify under
      `hide *` (to keep their proofs small) use this lemma in its place. */
  lemma StatisticsAssignedIntro(m: MathLib, params: map<string, real>, freqs: seq<real>, s21s: seq<seq<real>>,
    errs: seq<seq<real>>, rmse0: seq<real>, lo0: nat, hi0: nat, mins0: seq<real>, kpMin0: Edge, kpMax0: Edge,
    rmse: seq<real>, lo: nat, hi: nat, mins: seq<real>, kpMin: Edge, kpMax: Edge)
    requires RmseValues(errs, Means(s21s), m.sqrt).Ok?
    requires rmse == rmse0 + RmseValues(errs, Means(s21s), m.sqrt).value
    requires BordersAssigned(m.round2, params, freqs, s21s, lo0, hi0, mins0, kpMin0, kpMax0, lo, hi, mins, kpMin, kpMax)
    ensures StatisticsAssigned(m, params, freqs, s21s, errs, rmse0, lo0, hi0, mins0, kpMin0, kpMax0,
      rmse, lo, hi, mins, kpMin, kpMax)
  {
  }

  /** When both statistics steps finish, what they assign is what StatisticsStored
      describes, whatever the fields held before. */
  lemma AssignedThenStored(m: MathLib, params: map<string, real>, freqs: seq<real>, s21s: seq<seq<real>>,
    errs: seq<seq<real>>, rmse0: seq<real>, lo0: nat, hi0: nat, mins0: seq<real>, kpMin0: Edge, kpMax0: Edge,
    rmse: seq<real>, lo: nat, hi: nat, mins: seq<real>, kpMin: Edge, kpMax: Edge)
    requires StatisticsAssigned(m, params, freqs, s21s, errs, rmse0, lo0, hi0, mins0, kpMin0, kpMax0,
      rmse, lo, hi, mins, kpMin, kpMax)
    requires StatisticsSucceed(m.round2, params, freqs, s21s)
    ensures StatisticsStored(m, params, freqs, s21s, errs, rmse0, rmse, lo, hi, mins, kpMin, kpMax)
  {
  }

  /** The values the `stats` report interpolates, in the order it computes them. */
  datatype ReportValues = ReportValues(
    statFreq: real, vswrInAtStat: real, vswrOutAtStat: real, s21AtStat: real,
    f1: real, f2: real, f3: real, cur1: real, cur2: real)

  class MeasureResult {
    var secondaryParams: map<string, real>
    var freqs: seq<real>
    var s21s: seq<seq<real>>
    var s21sErr: seq<seq<real>>
    var s21sRmse: seq<real>
    var s11s: seq<seq<real>>
    var s22s: seq<seq<real>>
    var vswrIn: seq<seq<real>>
    var vswrOut: seq<seq<real>>
    var s21Mins: seq<real>
    var vswrInMax: seq<real>
    var vswrOutMax: seq<real>
    var s21RmseValues: seq<real>
    var s21ErrMax: seq<real>
    var kpFreqMin: Edge
    var kpFreqMax: Edge
    var minFreqIndex: nat
    var maxFreqIndex: nat
    var adjust: bool
    var onlyMainStates: bool
    var adjustDir: string
    var ready: bool
    var idealPhase: Option<seq<real>>
    var current: Currents

    /** Every curve and statistics list is empty. */
    predicate Cleared()
      reads this
    {
      && secondaryParams == map[] && freqs == [] && s21s == [] && s21sErr == [] && s21sRmse == []
      && s11s == [] && s22s == [] && vswrIn == [] && vswrOut == []
      && s21Mins == [] && vswrInMax == [] && vswrOutMax == [] && s21RmseValues == [] && s21ErrMax == []
    }

    /** `__bool__`. */
    predicate Truthy()
      reads this
    {
      ready
    }

    /** `__init__`: empty lists, edges and border indices 0, the +25 corner, not ready. */
    constructor ()
      ensures Cleared()
      ensures kpFreqMin == Value(0.0) && kpFreqMax == Value(0.0)
      ensures minFreqIndex == 0 && maxFreqIndex == 0
      ensures !adjust && !onlyMainStates && adjustDir == ADJUST_DIRS[1] && !ready
      ensures idealPhase == None && current == Unset
      ensures !Truthy()
    {
      secondaryParams, freqs := map[], [];
      s21s, s21sErr, s21sRmse, s11s, s22s := [], [], [], [], [];
      vswrIn, vswrOut := [], [];
      s21Mins, vswrInMax, vswrOutMax, s21RmseValues, s21ErrMax := [], [], [], [], [];
      kpFreqMin, kpFreqMax := Value(0.0), Value(0.0);
      minFreqIndex, maxFreqIndex := 0, 0;
      adjust, onlyMainStates := false, false;
      adjustDir := ADJUST_DIRS[1];
      ready := false;
      idealPhase, current := None, Unset;
    }

    /** `_init`: empties the lists and resets the edges and the currents; `ready`, the
        border indices and the mode flags keep their values. */
    method Init()
      modifies this`secondaryParams, this`freqs, this`s21s, this`s21sErr, this`s21sRmse
      modifies this`s11s, this`s22s, this`vswrIn, this`vswrOut
      modifies this`s21Mins, this`vswrInMax, this`vswrOutMax, this`s21RmseValues, this`s21ErrMax
      modifies this`kpFreqMin, this`kpFreqMax, this`current
      ensures Cleared()
      ensures kpFreqMin == Value(0.0) && kpFreqMax == Value(0.0) && current == Zero
      ensures ready == old(ready) && minFreqIndex == old(minFreqIndex) && maxFreqIndex == old(maxFreqIndex)
    {
      ClearCurves();
      ClearStatistics();
      kpFreqMin, kpFreqMax := Value(0.0), Value(0.0);
      current := Zero;
    }

    /** measureresult.py:82-91. */
    method ClearCurves()
      modifies this`secondaryParams, this`freqs, this`s21s, this`s21sErr, this`s21sRmse
      modifies this`s11s, this`s22s, this`vswrIn, this`vswrOut
      ensures secondaryParams == map[] && freqs == [] && s21s == [] && s21sErr == [] && s21sRmse == []
      ensures s11s == [] && s22s == [] && vswrIn == [] && vswrOut == []
    {
      secondaryParams, freqs := map[], [];
      s21s, s21sErr, s21sRmse, s11s, s22s := [], [], [], [], [];
      vswrIn, vswrOut := [], [];
    }

    /** measureresult.py:93-97. */
    method ClearStatistics()
      modifies this`s21Mins, this`vswrInMax, this`vswrOutMax, this`s21RmseValues, this`s21ErrMax
      ensures s21Mins == [] && vswrInMax == [] && vswrOutMax == [] && s21RmseValues == [] && s21ErrMax == []
    {
      s21Mins, vswrInMax, vswrOutMax, s21RmseValues, s21ErrMax := [], [], [], [], [];
    }

    /** The ingest loop of the `raw_data` setter: every buffer is cut into nine blocks
        of `points` values; block 0 replaces the axis, blocks 1, 3 and 7 are appended
        to the S11, S21 and S22 curves. */
    method Ingest(points: nat, s2p: seq<seq<real>>)
      modifies this`freqs, this`s11s, this`s21s, this`s22s
      ensures s11s == old(s11s) + BlockOfEach(s2p, S11_BLOCK, points)
      ensures s21s == old(s21s) + BlockOfEach(s2p, S21_BLOCK, points)
      ensures s22s == old(s22s) + BlockOfEach(s2p, S22_BLOCK, points)
      ensures freqs == if s2p == [] then old(freqs) else Block(s2p[|s2p| - 1], FREQ_BLOCK, points)
    {
      hide *;
      var j := 0;
      while j < |s2p|
        invariant 0 <= j <= |s2p|
        invariant s11s == old(s11s) + BlockOfEach(s2p[..j], S11_BLOCK, points)
        invariant s21s == old(s21s) + BlockOfEach(s2p[..j], S21_BLOCK, points)
        invariant s22s == old(s22s) + BlockOfEach(s2p[..j], S22_BLOCK, points)
        invariant freqs == if j == 0 then old(freqs) else Block(s2p[j - 1], FREQ_BLOCK, points)
      {
        IngestBuffer(points, s2p[j]);
        assert s2p[..j + 1] == s2p[..j] + [s2p[j]];
        assert BlockOfEach(s2p[..j + 1], S11_BLOCK, points) == BlockOfEach(s2p[..j], S11_BLOCK, points) + [Block(s2p[j], S11_BLOCK, points)];
        assert BlockOfEach(s2p[..j + 1], S21_BLOCK, points) == BlockOfEach(s2p[..j], S21_BLOCK, points) + [Block(s2p[j], S21_BLOCK, points)];
        assert BlockOfEach(s2p[..j + 1], S22_BLOCK, points) == BlockOfEach(s2p[..j], S22_BLOCK, points) + [Block(s2p[j], S22_BLOCK, points)];
        j := j + 1;
      }
      assert s2p[..j] == s2p;
    }

    /** The inner loop at measureresult.py:240-249 over one buffer. */
    method IngestBuffer(points: nat, pars: seq<real>)
      modifies this`freqs, this`s11s, this`s21s, this`s22s
      ensures s11s == old(s11s) + [Block(pars, S11_BLOCK, points)]
      ensures s21s == old(s21s) + [Block(pars, S21_BLOCK, points)]
      ensures s22s == old(s22s) + [Block(pars, S22_BLOCK, points)]
      ensures freqs == Block(pars, FREQ_BLOCK, points)
    {
      for i := 0 to BLOCKS
        invariant s11s == old(s11s) + (if i > S11_BLOCK then [Block(pars, S11_BLOCK, points)] else [])
        invariant s21s == old(s21s) + (if i > S21_BLOCK then [Block(pars, S21_BLOCK, points)] else [])
        invariant s22s == old(s22s) + (if i > S22_BLOCK then [Block(pars, S22_BLOCK, points)] else [])
        invariant freqs == if i > FREQ_BLOCK then Block(pars, FREQ_BLOCK, points) else old(freqs)
      {
        var block := Block(pars, i, points);
        if i == FREQ_BLOCK {
          freqs := block;
        } else if i == S11_BLOCK {
          s11s := s11s + [block];
        } else if i == S21_BLOCK {
          s21s := s21s + [block];
        } else if i == S22_BLOCK {
          s22s := s22s + [block];
        }
      }
    }

    /** `_calc_vwsr_in`: the field is replaced only when every curve converts. */
    method CalcVswrIn(toLinear: real -> real) returns (st: Status)
      modifies this`vswrIn
      ensures st.Done? <==> VswrCurves(s11s, toLinear).Ok?
      ensures st.Done? ==> Ok(vswrIn) == VswrCurves(s11s, toLinear)
      ensures st.Raised? ==> st.error == ZeroDivision && vswrIn == old(vswrIn)
    {
      match VswrCurves(s11s, toLinear)
      case Ok(v) =>
        vswrIn := v;
        st := Done;
      case Err(e) =>
        st := Raised(e);
    }

    /** `_calc_vwsr_out`: the same for S22. */
    method CalcVswrOut(toLinear: real -> real) returns (st: Status)
      modifies this`vswrOut
      ensures st.Done? <==> VswrCurves(s22s, toLinear).Ok?
      ensures st.Done? ==> Ok(vswrOut) == VswrCurves(s22s, toLinear)
      ensures st.Raised? ==> st.error == ZeroDivision && vswrOut == old(vswrOut)
    {
      match VswrCurves(s22s, toLinear)
      case Ok(v) =>
        vswrOut := v;
        st := Done;
      case Err(e) =>
        st := Raised(e);
    }

    /** `_calc_s21_err`. */
    method CalcS21Err()
      modifies this`s21sErr
      ensures s21sErr == S21Errors(s21s)
    {
      s21sErr := S21Errors(s21s);
    }

    /** `_calc_s21_rmse`: one value appended per tuple of `zip(*s21s_err, means)`; with
        means but no error curves the first tuple divides by zero. */
    method CalcS21Rmse(sqrt: real -> real) returns (st: Status)
      modifies this`s21sRmse
      ensures st.Done? <==> RmseValues(s21sErr, Means(s21s), sqrt).Ok?
      ensures st.Done? ==> s21sRmse == old(s21sRmse) + RmseValues(s21sErr, Means(s21s), sqrt).value
      ensures st.Raised? ==> st.error == ZeroDivision && s21sRmse == old(s21sRmse)
    {
      hide *;
      var means := Means(s21s);
      var n := TupleCount(s21sErr, |means|);
      ghost var values := RmseValues(s21sErr, means, sqrt);
      var p := 0;
      while p < n
        invariant 0 <= p <= n
        invariant s21sErr == [] ==> p == 0
        invariant values.Ok? ==> s21sRmse == old(s21sRmse) + values.value[..p]
        invariant values.Err? ==> s21sRmse == old(s21sRmse)
      {
        var vs := Column(s21sErr, p);
        match CalcRmseAmp(vs, sqrt)
        case Err(e) =>
          return Raised(e);
        case Ok(v) =>
          assert values.value[..p + 1] == values.value[..p] + [v];
          s21sRmse := s21sRmse + [v];
          p := p + 1;
      }
      assert values.Ok? ==> values.value[..p] == values.value;
      st := Done;
    }

    /** `_adjust_data`: one draw per kind applied to every state and point. "err" scales
        the errors and then raises reading the never-assigned phase errors; any other
        word changes nothing. */
    method AdjustData(what: string, d: Draws) returns (st: Status)
      modifies this`s21s, this`vswrIn, this`vswrOut, this`s21sErr
      ensures what == "err" ==>
        s21sErr == MulAll(old(s21sErr), d.errMul) && st == Raised(MissingAttribute("_s21s_ph_err"))
      ensures what == "s21" ==> s21s == ShiftAll(old(s21s), d.s21Shift) && st == Done
      ensures what == "vswr" ==>
        vswrIn == ShiftAll(old(vswrIn), d.vswrInShift) && vswrOut == ShiftAll(old(vswrOut), d.vswrOutShift) && st == Done
      ensures what != "err" ==> s21sErr == old(s21sErr) && st == Done
      ensures what != "s21" ==> s21s == old(s21s)
      ensures what != "vswr" ==> vswrIn == old(vswrIn) && vswrOut == old(vswrOut)
    {
      if what == "err" {
        s21sErr := MulAll(s21sErr, d.errMul);
        st := Raised(MissingAttribute("_s21s_ph_err"));
      } else if what == "s21" {
        s21s := ShiftAll(s21s, d.s21Shift);
        st := Done;
      } else if what == "vswr" {
        vswrIn := ShiftAll(vswrIn, d.vswrInShift);
        vswrOut := ShiftAll(vswrOut, d.vswrOutShift);
        st := Done;
      } else {
        st := Done;
      }
    }

    /** `_calc_stats`: stores what BorderStats assigns, in its order. */
    method CalcStats() returns (st: Status)
      modifies this`minFreqIndex, this`maxFreqIndex, this`s21Mins
      ensures var u := BorderStats(secondaryParams, freqs, s21s);
        && st == u.status
        && minFreqIndex == (if u.lo.Some? then u.lo.value else old(minFreqIndex))
        && maxFreqIndex == (if u.hi.Some? then u.hi.value else old(maxFreqIndex))
        && s21Mins == (if u.mins.Some? then u.mins.value else old(s21Mins))
    {
      hide *;
      var u := BorderStats(secondaryParams, freqs, s21s);
      if u.lo.Some? {
        minFreqIndex := u.lo.value;
      }
      if u.hi.Some? {
        maxFreqIndex := u.hi.value;
      }
      if u.mins.Some? {
        s21Mins := u.mins.value;
      }
      st := u.status;
    }

    /** `_cal_s21_worst_loss`: stores what WorstLoss assigns, in its order. */
    method CalcS21WorstLoss(round2: real -> real) returns (st: Status)
      modifies this`kpFreqMin, this`kpFreqMax
      ensures var u := WorstLoss(secondaryParams, freqs, s21s, round2);
        && st == u.status
        && kpFreqMin == (if u.kpMin.Some? then u.kpMin.value else old(kpFreqMin))
        && kpFreqMax == (if u.kpMax.Some? then u.kpMax.value else old(kpFreqMax))
    {
      hide *;
      var u := WorstLoss(secondaryParams, freqs, s21s, round2);
      if u.kpMin.Some? {
        kpFreqMin := u.kpMin.value;
      }
      if u.kpMax.Some? {
        kpFreqMax := u.kpMax.value;
      }
      st := u.status;
    }

    /** `_process`: in adjust mode it shifts S21 and VSWR, then raises at the error
        scaling, so it never finishes; otherwise it finishes exactly when every step
        does, leaves every derived field the reduction of the inputs, and only then
        sets `ready`. */
    method Process(m: MathLib, d: Draws) returns (st: Status)
      modifies this`s21s, this`vswrIn, this`vswrOut, this`s21sErr, this`s21sRmse
      modifies this`minFreqIndex, this`maxFreqIndex, this`s21Mins, this`kpFreqMin, this`kpFreqMax, this`ready
      ensures ready == (old(ready) || st.Done?)
      ensures st == ProcessOutcome(m, adjust, secondaryParams, freqs, s11s, s22s, s21s, s21sErr)
      ensures adjust ==> st.Raised? && st.error in {ZeroDivision, MissingAttribute("_s21s_ph_err")}
      ensures adjust ==> s21s == ShiftAll(old(s21s), d.s21Shift)
      ensures !adjust ==> s21s == old(s21s)
      ensures !adjust ==> (st.Done? <==>
        VswrConverts(m.dbToLinear, s11s, s22s) && StatisticsSucceed(m.round2, secondaryParams, freqs, s21s))
      ensures st.Done? ==>
        && CurvesReduced(m.dbToLinear, s11s, s22s, s21s, vswrIn, vswrOut, s21sErr)
        && StatisticsStored(m, secondaryParams, freqs, s21s, s21sErr, old(s21sRmse), s21sRmse,
             minFreqIndex, maxFreqIndex, s21Mins, kpFreqMin, kpFreqMax)
      ensures CurvesAssigned(m.dbToLinear, adjust, d, s11s, s22s, s21s, old(vswrIn), old(vswrOut), old(s21sErr),
        vswrIn, vswrOut, s21sErr)
      ensures !adjust && VswrConverts(m.dbToLinear, s11s, s22s) ==>
        StatisticsAssigned(m, secondaryParams, freqs, s21s, s21sErr,
          old(s21sRmse), old(minFreqIndex), old(maxFreqIndex), old(s21Mins), old(kpFreqMin), old(kpFreqMax),
          s21sRmse, minFreqIndex, maxFreqIndex, s21Mins, kpFreqMin, kpFreqMax)
      ensures adjust || !VswrConverts(m.dbToLinear, s11s, s22s) ==>
        && s21sRmse == old(s21sRmse) && minFreqIndex == old(minFreqIndex) && maxFreqIndex == old(maxFreqIndex)
        && s21Mins == old(s21Mins) && kpFreqMin == old(kpFreqMin) && kpFreqMax == old(kpFreqMax)
    {
      hide *;
      st := ReduceCurves(m, d);
      ProcessOutcomeUnfolds(m, adjust, secondaryParams, freqs, s11s, s22s, s21s, s21sErr);
      if st.Raised? {
        return;
      }
      ErrorsHaveRmse(m, s21s);
      st := ReduceStatistics(m);
    }

    /** measureresult.py:105-114: VSWR of S11 and S22 and the S21 errors, with the
        adjust-mode perturbations in between. */
    method ReduceCurves(m: MathLib, d: Draws) returns (st: Status)
      modifies this`s21s, this`vswrIn, this`vswrOut, this`s21sErr
      ensures st == CurvesOutcome(m.dbToLinear, adjust, s11s, s22s)
      ensures adjust ==> st.Raised? && st.error in {ZeroDivision, MissingAttribute("_s21s_ph_err")}
      ensures adjust ==> s21s == ShiftAll(old(s21s), d.s21Shift)
      ensures !adjust ==> s21s == old(s21s)
      ensures !adjust ==> (st.Done? <==> VswrConverts(m.dbToLinear, s11s, s22s))
      ensures st.Done? ==>
        CurvesReduced(m.dbToLinear, s11s, s22s, s21s, vswrIn, vswrOut, s21sErr) && s21sErr == S21Errors(s21s)
      ensures CurvesAssigned(m.dbToLinear, adjust, d, s11s, s22s, s21s, old(vswrIn), old(vswrOut), old(s21sErr),
        vswrIn, vswrOut, s21sErr)
    {
      hide VswrCurves;
      hide S21Errors;
      hide ShiftAll;
      hide MulAll;
      if adjust {
        st := AdjustData("s21", d);
      }
      st := CalcVswrIn(m.dbToLinear);
      if st.Raised? {
        return;
      }
      st := CalcVswrOut(m.dbToLinear);
      if st.Raised? {
        return;
      }
      if adjust {
        st := AdjustData("vswr", d);
      }
      CalcS21Err();
      if adjust {
        st := AdjustData("err", d);
      }
    }

    /** measureresult.py:115-119: the RMSE, the border statistics and the edges, then
        `ready`, which is set only when all three finish. */
    method ReduceStatistics(m: MathLib) returns (st: Status)
      modifies this`s21sRmse, this`minFreqIndex, this`maxFreqIndex, this`s21Mins, this`kpFreqMin, this`kpFreqMax, this`ready
      ensures ready == (old(ready) || st.Done?)
      ensures st == StatisticsOutcome(m, secondaryParams, freqs, s21s, s21sErr)
      ensures st.Done? <==>
        RmseDefined(m.sqrt, s21sErr, s21s) && StatisticsSucceed(m.round2, secondaryParams, freqs, s21s)
      ensures st.Done? ==>
        StatisticsStored(m, secondaryParams, freqs, s21s, s21sErr, old(s21sRmse), s21sRmse,
          minFreqIndex, maxFreqIndex, s21Mins, kpFreqMin, kpFreqMax)
      ensures RmseDefined(m.sqrt, s21sErr, s21s) ==>
        StatisticsAssigned(m, secondaryParams, freqs, s21s, s21sErr,
          old(s21sRmse), old(minFreqIndex), old(maxFreqIndex), old(s21Mins), old(kpFreqMin), old(kpFreqMax),
          s21sRmse, minFreqIndex, maxFreqIndex, s21Mins, kpFreqMin, kpFreqMax)
      ensures !RmseDefined(m.sqrt, s21sErr, s21s) ==>
        && s21sRmse == old(s21sRmse) && minFreqIndex == old(minFreqIndex) && maxFreqIndex == old(maxFreqIndex)
        && s21Mins == old(s21Mins) && kpFreqMin == old(kpFreqMin) && kpFreqMax == old(kpFreqMax)
    {
      hide *;
      RmseDefinedIff(m.sqrt, s21sErr, s21s);
      StatisticsOutcomeUnfolds(m, secondaryParams, freqs, s21s, s21sErr);
      st := CalcS21Rmse(m.sqrt);
      if st.Raised? {
        return;
      }
      st := BordersAndEdges(m.round2);
      StatisticsAssignedIntro(m, secondaryParams, freqs, s21s, s21sErr,
        old(s21sRmse), old(minFreqIndex), old(maxFreqIndex), old(s21Mins), old(kpFreqMin), old(kpFreqMax),
        s21sRmse, minFreqIndex, maxFreqIndex, s21Mins, kpFreqMin, kpFreqMax);
      if st.Done? {
        StatisticsStoredIntro(m, secondaryParams, freqs, s21s, s21sErr, old(s21sRmse), s21sRmse,
          minFreqIndex, maxFreqIndex, s21Mins, kpFreqMin, kpFreqMax);
        ready := true;
      }
    }

    /** measureresult.py:116-117: the border statistics, then the edge search. */
    method BordersAndEdges(round2: real -> real) returns (st: Status)
      modifies this`minFreqIndex, this`maxFreqIndex, this`s21Mins, this`kpFreqMin, this`kpFreqMax
      ensures st == BordersOutcome(round2, secondaryParams, freqs, s21s)
      ensures st.Done? <==> StatisticsSucceed(round2, secondaryParams, freqs, s21s)
      ensures st.Done? ==>
        && BorderStats(secondaryParams, freqs, s21s) == StatsUpdate(Some(minFreqIndex), Some(maxFreqIndex), Some(s21Mins), Done)
        && WorstLoss(secondaryParams, freqs, s21s, round2) == EdgeUpdate(Some(kpFreqMin), Some(kpFreqMax), Done)
      ensures BordersAssigned(round2, secondaryParams, freqs, s21s,
        old(minFreqIndex), old(maxFreqIndex), old(s21Mins), old(kpFreqMin), old(kpFreqMax),
        minFreqIndex, maxFreqIndex, s21Mins, kpFreqMin, kpFreqMax)
    {
      hide *;
      StatisticsSucceedIff(round2, secondaryParams, freqs, s21s);
      BordersOutcomeUnfolds(round2, secondaryParams, freqs, s21s);
      st := CalcStats();
      if st.Raised? {
        BordersAssignedIntro(round2, secondaryParams, freqs, s21s,
          old(minFreqIndex), old(maxFreqIndex), old(s21Mins), old(kpFreqMin), old(kpFreqMax),
          minFreqIndex, maxFreqIndex, s21Mins, kpFreqMin, kpFreqMax);
        return;
      }
      st := CalcS21WorstLoss(round2);
      BordersAssignedIntro(round2, secondaryParams, freqs, s21s,
        old(minFreqIndex), old(maxFreqIndex), old(s21Mins), old(kpFreqMin), old(kpFreqMax),
        minFreqIndex, maxFreqIndex, s21Mins, kpFreqMin, kpFreqMax);
    }

    /** The file loop of `_load_ideal`: the selected states in ascending order, each
        file's magnitude curves appended, stopping at the first file that is missing or
        malformed; the axis is set from the last file only when every file was read. */
    method LoadIdealCurves(files: CalibrationFiles) returns (st: Status)
      modifies this`freqs, this`s11s, this`s21s, this`s22s
      ensures var r := IdealRun(files, adjustDir, onlyMainStates);
        && s11s == old(s11s) + S11Of(r.sweeps)
        && s21s == old(s21s) + S21Of(r.sweeps)
        && s22s == old(s22s) + S22Of(r.sweeps)
        && (st.Raised? <==> r.failure.Some?)
        && (r.failure.Some? ==> st.error == r.failure.value && freqs == old(freqs))
        && (r.failure.None? ==> r.sweeps != [] && freqs == r.sweeps[|r.sweeps| - 1].freqs)
    {
      hide *;
      NothingLoaded(files, adjustDir, onlyMainStates);
      var fs: seq<real> := [];
      ghost var sweeps: seq<Sweep> := [];
      for i := 0 to STATE_COUNT
        invariant LoadStates(files, adjustDir, SelectedStates(onlyMainStates, i)) == Loaded(sweeps, None)
        invariant s11s == old(s11s) + S11Of(sweeps)
        invariant s21s == old(s21s) + S21Of(sweeps)
        invariant s22s == old(s22s) + S22Of(sweeps)
        invariant sweeps != [] ==> fs == sweeps[|sweeps| - 1].freqs
        invariant freqs == old(freqs)
      {
        ghost var before := SelectedStates(onlyMainStates, i);
        SelectedStep(onlyMainStates, i);
        if !Selected(onlyMainStates, i) {
          assert before + [] == before;
          continue;
        }
        LoadStatesSnoc(files, adjustDir, before, i);
        var read := ReadStateFile(files, i);
        if read.Err? {
          RunFailsAt(files, adjustDir, onlyMainStates, i, sweeps, read.error);
          return Raised(read.error);
        }
        SweepsSnoc(old(s11s), old(s21s), old(s22s), sweeps, read.value);
        s11s := s11s + [read.value.s11];
        s21s := s21s + [read.value.s21];
        s22s := s22s + [read.value.s22];
        fs := read.value.freqs;
        sweeps := sweeps + [read.value];
      }
      RunCompletes(files, adjustDir, onlyMainStates, sweeps);
      freqs := fs;
      st := Done;
    }

    /** `_load_ideal`: the file loop, then the reduction; in adjust mode, where it is
        called, the reduction always raises, so the run never becomes ready. */
    method LoadIdeal(files: CalibrationFiles, m: MathLib, d: Draws) returns (st: Status)
      modifies this`freqs, this`s11s, this`s21s, this`s22s
      modifies this`vswrIn, this`vswrOut, this`s21sErr, this`s21sRmse
      modifies this`minFreqIndex, this`maxFreqIndex, this`s21Mins, this`kpFreqMin, this`kpFreqMax, this`ready
      ensures ready == (old(ready) || st.Done?)
      ensures adjust ==> st.Raised?
      ensures IdealRun(files, adjustDir, onlyMainStates).failure.Some? ==>
        st == Raised(IdealRun(files, adjustDir, onlyMainStates).failure.value)
      ensures IdealRun(files, adjustDir, onlyMainStates).failure.None? ==>
        st == ProcessOutcome(m, adjust, secondaryParams, freqs, s11s, s22s, s21s, s21sErr)
      ensures Calibrated(files, adjustDir, onlyMainStates, adjust, d.s21Shift,
        old(s11s), old(s21s), old(s22s), old(freqs), s11s, s21s, s22s, freqs)
      ensures IdealRun(files, adjustDir, onlyMainStates).failure.Some? ==>
        vswrIn == old(vswrIn) && vswrOut == old(vswrOut) && s21sErr == old(s21sErr)
      ensures IdealRun(files, adjustDir, onlyMainStates).failure.None? ==>
        CurvesAssigned(m.dbToLinear, adjust, d, s11s, s22s, s21s, old(vswrIn), old(vswrOut), old(s21sErr),
          vswrIn, vswrOut, s21sErr)
      ensures IdealRun(files, adjustDir, onlyMainStates).failure.None? && !adjust && VswrConverts(m.dbToLinear, s11s, s22s) ==>
        StatisticsAssigned(m, secondaryParams, freqs, s21s, s21sErr,
          old(s21sRmse), old(minFreqIndex), old(maxFreqIndex), old(s21Mins), old(kpFreqMin), old(kpFreqMax),
          s21sRmse, minFreqIndex, maxFreqIndex, s21Mins, kpFreqMin, kpFreqMax)
      ensures IdealRun(files, adjustDir, onlyMainStates).failure.Some? || adjust || !VswrConverts(m.dbToLinear, s11s, s22s) ==>
        && s21sRmse == old(s21sRmse) && minFreqIndex == old(minFreqIndex) && maxFreqIndex == old(maxFreqIndex)
        && s21Mins == old(s21Mins) && kpFreqMin == old(kpFreqMin) && kpFreqMax == old(kpFreqMax)
    {
      hide *;
      st := LoadIdealCurves(files);
      if st.Raised? {
        CalibratedIntro(files, adjustDir, onlyMainStates, adjust, d.s21Shift,
          old(s11s), old(s21s), old(s22s), old(freqs), s11s, s21s, s22s, freqs);
        return;
      }
      st := Process(m, d);
      CalibratedIntro(files, adjustDir, onlyMainStates, adjust, d.s21Shift,
        old(s11s), old(s21s), old(s22s), old(freqs), s11s, s21s, s22s, freqs);
    }

    /** One iteration's file, `{adjust_set}/s{state}.s2p`: missing, or read row by row. */
    method ReadStateFile(files: CalibrationFiles, state: nat) returns (r: Result<Sweep>)
      ensures r == ReadState(files, adjustDir, state)
    {
      if (adjustDir, state) !in files {
        return Err(MissingFile(state));
      }
      ReadPresentState(files, adjustDir, state);
      r := ReadRows(state, files[(adjustDir, state)]);
    }

    /** The `raw_data` setter: reset, store the inputs, then either read the calibration
        set (adjust mode) or de-interleave the buffers, and run the reduction. */
    method SetRawData(points: nat, s2p: seq<seq<real>>, ideal: seq<real>, params: map<string, real>,
                      readings: seq<real>, files: CalibrationFiles, m: MathLib, d: Draws)
      returns (st: Status)
      modifies this
      ensures secondaryParams == params && idealPhase == Some(ideal) && current == Readings(readings)
      ensures adjust == old(adjust) && onlyMainStates == old(onlyMainStates) && adjustDir == old(adjustDir)
      ensures ready == (old(ready) || st.Done?)
      ensures adjust ==> st.Raised?
      ensures adjust && IdealRun(files, adjustDir, onlyMainStates).failure.Some? ==>
        st == Raised(IdealRun(files, adjustDir, onlyMainStates).failure.value)
      ensures !adjust || IdealRun(files, adjustDir, onlyMainStates).failure.None? ==>
        st == ProcessOutcome(m, adjust, secondaryParams, freqs, s11s, s22s, s21s, s21sErr)
      ensures !adjust ==> Deinterleaved(s2p, points, [], [], [], [], s11s, s21s, s22s, freqs)
      ensures !adjust ==> (st.Done? <==>
        VswrConverts(m.dbToLinear, s11s, s22s) && StatisticsSucceed(m.round2, secondaryParams, freqs, s21s))
      ensures st.Done? ==>
        && CurvesReduced(m.dbToLinear, s11s, s22s, s21s, vswrIn, vswrOut, s21sErr)
        && StatisticsStored(m, secondaryParams, freqs, s21s, s21sErr, [], s21sRmse,
             minFreqIndex, maxFreqIndex, s21Mins, kpFreqMin, kpFreqMax)
      ensures vswrInMax == [] && vswrOutMax == [] && s21RmseValues == [] && s21ErrMax == []
      ensures adjust ==>
        Calibrated(files, adjustDir, onlyMainStates, true, d.s21Shift, [], [], [], [], s11s, s21s, s22s, freqs)
      ensures adjust && IdealRun(files, adjustDir, onlyMainStates).failure.Some? ==>
        vswrIn == [] && vswrOut == [] && s21sErr == []
      ensures !adjust || IdealRun(files, adjustDir, onlyMainStates).failure.None? ==>
        CurvesAssigned(m.dbToLinear, adjust, d, s11s, s22s, s21s, [], [], [], vswrIn, vswrOut, s21sErr)
      ensures !adjust && VswrConverts(m.dbToLinear, s11s, s22s) ==>
        StatisticsAssigned(m, secondaryParams, freqs, s21s, s21sErr,
          [], old(minFreqIndex), old(maxFreqIndex), [], Value(0.0), Value(0.0),
          s21sRmse, minFreqIndex, maxFreqIndex, s21Mins, kpFreqMin, kpFreqMax)
      ensures adjust || !VswrConverts(m.dbToLinear, s11s, s22s) ==>
        && s21sRmse == [] && minFreqIndex == old(minFreqIndex) && maxFreqIndex == old(maxFreqIndex)
        && s21Mins == [] && kpFreqMin == Value(0.0) && kpFreqMax == Value(0.0)
    {
      hide *;
      Reset(ideal, params, readings);
      if adjust {
        st := LoadIdeal(files, m, d);
        assert st.Raised?;
        return;
      }
      st := IngestAndProcess(points, s2p, m, d);
    }

    /** The start of the `raw_data` setter: `_init`, then the inputs are stored. */
    method Reset(ideal: seq<real>, params: map<string, real>, readings: seq<real>)
      modifies this`secondaryParams, this`freqs, this`s21s, this`s21sErr, this`s21sRmse
      modifies this`s11s, this`s22s, this`vswrIn, this`vswrOut
      modifies this`s21Mins, this`vswrInMax, this`vswrOutMax, this`s21RmseValues, this`s21ErrMax
      modifies this`kpFreqMin, this`kpFreqMax, this`current, this`idealPhase
      ensures s11s == [] && s21s == [] && s22s == [] && freqs == []
      ensures vswrIn == [] && vswrOut == [] && s21sErr == [] && s21sRmse == []
      ensures s21Mins == [] && vswrInMax == [] && vswrOutMax == [] && s21RmseValues == [] && s21ErrMax == []
      ensures kpFreqMin == Value(0.0) && kpFreqMax == Value(0.0)
      ensures secondaryParams == params && idealPhase == Some(ideal) && current == Readings(readings)
      ensures ready == old(ready)
    {
      Init();
      idealPhase := Some(ideal);
      secondaryParams := params;
      current := Readings(readings);
    }

    /** The rest of the `raw_data` setter outside adjust mode: ingest every buffer, then reduce. */
    method IngestAndProcess(points: nat, s2p: seq<seq<real>>, m: MathLib, d: Draws) returns (st: Status)
      modifies this`freqs, this`s11s, this`s21s, this`s22s
      modifies this`vswrIn, this`vswrOut, this`s21sErr, this`s21sRmse
      modifies this`minFreqIndex, this`maxFreqIndex, this`s21Mins, this`kpFreqMin, this`kpFreqMax, this`ready
      ensures ready == (old(ready) || st.Done?)
      ensures st == ProcessOutcome(m, adjust, secondaryParams, freqs, s11s, s22s, s21s, s21sErr)
      ensures !adjust ==>
        Deinterleaved(s2p, points, old(s11s), old(s21s), old(s22s), old(freqs), s11s, s21s, s22s, freqs)
      ensures !adjust ==> (st.Done? <==>
        VswrConverts(m.dbToLinear, s11s, s22s) && StatisticsSucceed(m.round2, secondaryParams, freqs, s21s))
      ensures st.Done? ==>
        && CurvesReduced(m.dbToLinear, s11s, s22s, s21s, vswrIn, vswrOut, s21sErr)
        && StatisticsStored(m, secondaryParams, freqs, s21s, s21sErr, old(s21sRmse), s21sRmse,
             minFreqIndex, maxFreqIndex, s21Mins, kpFreqMin, kpFreqMax)
      ensures CurvesAssigned(m.dbToLinear, adjust, d, s11s, s22s, s21s, old(vswrIn), old(vswrOut), old(s21sErr),
        vswrIn, vswrOut, s21sErr)
      ensures !adjust && VswrConverts(m.dbToLinear, s11s, s22s) ==>
        StatisticsAssigned(m, secondaryParams, freqs, s21s, s21sErr,
          old(s21sRmse), old(minFreqIndex), old(maxFreqIndex), old(s21Mins), old(kpFreqMin), old(kpFreqMax),
          s21sRmse, minFreqIndex, maxFreqIndex, s21Mins, kpFreqMin, kpFreqMax)
      ensures adjust || !VswrConverts(m.dbToLinear, s11s, s22s) ==>
        && s21sRmse == old(s21sRmse) && minFreqIndex == old(minFreqIndex) && maxFreqIndex == old(maxFreqIndex)
        && s21Mins == old(s21Mins) && kpFreqMin == old(kpFreqMin) && kpFreqMax == old(kpFreqMax)
    {
      hide *;
      ghost var s11, s21, s22, f := s11s, s21s, s22s, freqs;
      Ingest(points, s2p);
      DeinterleavedIntro(s2p, points, s11, s21, s22, f, s11s, s21s, s22s, freqs);
      st := Process(m, d);
    }

    /** The `adjust_set` setter: an unknown calibration corner raises KeyError and keeps
        the directory. */
    method SetAdjustSet(corner: int) returns (st: Status)
      modifies this`adjustDir
      ensures st.Done? <==> corner in ADJUST_DIRS
      ensures st.Done? ==> adjustDir == ADJUST_DIRS[corner]
      ensures st.Raised? ==> st.error == UnknownCorner(corner) && adjustDir == old(adjustDir)
    {
      if corner in ADJUST_DIRS {
        adjustDir := ADJUST_DIRS[corner];
        st := Done;
      } else {
        st := Raised(UnknownCorner(corner));
      }
    }

    /** The lookups of the `stats` report, in its order: Fstat, its nearest point, VSWR
        and S21 of the first state there, the axis at the border indices and their
        report midpoint, then the two current readings in mA. */
    function ReportInputs(round2: real -> real): (r: Result<ReportValues>)
      reads this
      ensures "Fstat" !in secondaryParams ==> r == Err(MissingKey("Fstat"))
      ensures "Fstat" in secondaryParams && freqs == [] ==> r == Err(EmptyAxis)
      ensures r.Err? && "Fstat" in secondaryParams && freqs != [] ==>
        r.error in {IndexOutOfRange, MissingAttribute("_current"), BadCurrents}
      ensures "Fstat" in secondaryParams && freqs != [] ==>
        var i := FindFreqIndex(freqs, secondaryParams["Fstat"]).value;
        var mid := ReportMid(minFreqIndex, maxFreqIndex);
        var inRange :=
          && vswrIn != [] && i < |vswrIn[0]| && vswrOut != [] && i < |vswrOut[0]| && s21s != [] && i < |s21s[0]|
          && minFreqIndex < |freqs| && mid < |freqs| && maxFreqIndex < |freqs|;
        && (!inRange ==> r == Err(IndexOutOfRange))
        && (inRange && current.Unset? ==> r == Err(MissingAttribute("_current")))
        && (inRange && !current.Unset? ==> (r.Ok? <==> current.Readings? && |current.amps| == 2))
        && (inRange && !current.Unset? && r.Err? ==> r.error == BadCurrents)
      ensures r.Ok? ==>
        && "Fstat" in secondaryParams && r.value.statFreq == secondaryParams["Fstat"]
        && vswrIn != [] && vswrOut != [] && s21s != []
        && exists i: nat :: (
          && IsNearest(freqs, secondaryParams["Fstat"] * HZ_PER_GHZ, i)
          && i < |vswrIn[0]| && i < |vswrOut[0]| && i < |s21s[0]|
          && r.value.vswrInAtStat == round2(vswrIn[0][i]) && r.value.vswrOutAtStat == round2(vswrOut[0][i])
          && r.value.s21AtStat == s21s[0][i])
      ensures r.Ok? ==>
        var mid := ReportMid(minFreqIndex, maxFreqIndex);
        && minFreqIndex < |freqs| && mid < |freqs| && maxFreqIndex < |freqs|
        && r.value.f1 == round2(freqs[minFreqIndex] / HZ_PER_GHZ)
        && r.value.f2 == round2(freqs[mid] / HZ_PER_GHZ)
        && r.value.f3 == round2(freqs[maxFreqIndex] / HZ_PER_GHZ)
      ensures r.Ok? ==>
        && current.Readings? && |current.amps| == 2
        && r.value.cur1 == current.amps[0] * 1000.0 && r.value.cur2 == current.amps[1] * 1000.0
    {
      if "Fstat" !in secondaryParams then Err(MissingKey("Fstat"))
      else
        var statFreq := secondaryParams["Fstat"];
        match FindFreqIndex(freqs, statFreq)
        case Err(e) => Err(e)
        case Ok(i) =>
          if vswrIn == [] || |vswrIn[0]| <= i || vswrOut == [] || |vswrOut[0]| <= i then Err(IndexOutOfRange)
          else if s21s == [] || |s21s[0]| <= i then Err(IndexOutOfRange)
          else
            var low, high := minFreqIndex, maxFreqIndex;
            var mid := ReportMid(low, high);
            if |freqs| <= low || |freqs| <= mid || |freqs| <= high then Err(IndexOutOfRange)
            else
              match current
              case Unset => Err(MissingAttribute("_current"))
              case Zero => Err(BadCurrents)
              case Readings(amps) =>
                if |amps| != 2 then Err(BadCurrents)
                else Ok(ReportValues(statFreq, round2(vswrIn[0][i]), round2(vswrOut[0][i]), s21s[0][i],
                  round2(freqs[low] / HZ_PER_GHZ), round2(freqs[mid] / HZ_PER_GHZ), round2(freqs[high] / HZ_PER_GHZ),
                  amps[0] * 1000.0, amps[1] * 1000.0))
    }

    /** `stats`: the report template names `curr`, which is defined nowhere, so once
        the lookups succeed it raises NameError; the report is never produced. */
    function Stats(round2: real -> real): (r: Result<string>)
      reads this
      ensures r.Err?
      ensures ReportInputs(round2).Err? ==> r.error == ReportInputs(round2).error
      ensures ReportInputs(round2).Ok? ==> r.error == UndefinedName("curr")
    {
      match ReportInputs(round2)
      case Err(e) => Err(e)
      case Ok(_) => Err(UndefinedName("curr"))
    }
  }
}
