/** The passband-edge search of `_cal_s21_worst_loss`: per-point worst-case S21, the
    `itertools.groupby` runs of points above the level `kp`, the first longest run,
    and the edge frequencies looked up from that run's values. */
module Passband {
  import opened Outcomes
  import opened RealSeqs
  import opened Curves

  /** `min(vals) for vals in zip(*s21s)`: the worst (smallest) S21 over all states at
      every point the states have in common. */
  function WorstCase(s21s: seq<seq<real>>): (mins: seq<real>)
    ensures |mins| == ZipLen(s21s)
    ensures forall p, k :: 0 <= p < |mins| && 0 <= k < |s21s| ==> mins[p] <= s21s[k][p]
    ensures forall p :: 0 <= p < |mins| ==> exists k :: 0 <= k < |s21s| && mins[p] == s21s[k][p]
  {
    var cols := Transpose(s21s);
    assert forall p, k :: 0 <= p < |cols| && 0 <= k < |s21s| ==> cols[p][k] == s21s[k][p];
    seq(|cols|, p requires 0 <= p < |cols| => MinOf(cols[p]))
  }

  /** One group yielded by `itertools.groupby(mins, key=lambda x: x > level)`. */
  datatype Group = Group(passing: bool, vals: seq<real>)

  /** The values of the groups, concatenated in order. */
  function Flatten(gs: seq<Group>): seq<real>
  {
    if gs == [] then [] else gs[0].vals + Flatten(gs[1..])
  }

  /** What `groupby` yields: non-empty groups whose values all share the group's key,
      with neighbouring groups of different keys. */
  ghost predicate WellGrouped(gs: seq<Group>, level: real)
  {
    && (forall k :: 0 <= k < |gs| ==> gs[k].vals != [])
    && (forall k, i :: 0 <= k < |gs| && 0 <= i < |gs[k].vals| ==> (gs[k].vals[i] > level) == gs[k].passing)
    && (forall k :: 0 <= k < |gs| - 1 ==> gs[k].passing != gs[k + 1].passing)
  }

  /** `itertools.groupby` over the key "above level": maximal runs of consecutive
      values on one side of the level; concatenating them gives the input back. */
  function Groups(xs: seq<real>, level: real): (gs: seq<Group>)
    ensures Flatten(gs) == xs
    ensures WellGrouped(gs, level)
    ensures xs != [] ==> gs != [] && gs[0].passing == (xs[0] > level)
    ensures |gs| <= |xs|
  {
    if xs == [] then []
    else
      var rest := Groups(xs[1..], level);
      assert xs == [xs[0]] + xs[1..];
      if rest != [] && rest[0].passing == (xs[0] > level) then
        JoinGroup(xs[0], xs[1..], level, rest);
        [Group(xs[0] > level, [xs[0]] + rest[0].vals)] + rest[1..]
      else
        OpenGroup(xs[0], xs[1..], level, rest);
        [Group(xs[0] > level, [xs[0]])] + rest
  }

  /** A value on the same side of the level as the first group joins that group. */
  lemma JoinGroup(x: real, xs: seq<real>, level: real, rest: seq<Group>)
    requires Flatten(rest) == xs && WellGrouped(rest, level) && |rest| <= |xs|
    requires rest != [] && rest[0].passing == (x > level)
    ensures var gs := [Group(x > level, [x] + rest[0].vals)] + rest[1..];
      Flatten(gs) == [x] + xs && WellGrouped(gs, level) && |gs| <= |xs| + 1
  {
    var gs := [Group(x > level, [x] + rest[0].vals)] + rest[1..];
    assert gs[1..] == rest[1..];
    assert Flatten(rest) == rest[0].vals + Flatten(rest[1..]);
    assert forall k :: 1 <= k < |gs| ==> gs[k] == rest[k];
  }

  /** A value on the other side of the level (or the last value) opens a new group. */
  lemma OpenGroup(x: real, xs: seq<real>, level: real, rest: seq<Group>)
    requires Flatten(rest) == xs && WellGrouped(rest, level) && |rest| <= |xs|
    requires rest == [] || rest[0].passing != (x > level)
    ensures var gs := [Group(x > level, [x])] + rest;
      Flatten(gs) == [x] + xs && WellGrouped(gs, level) && |gs| <= |xs| + 1
  {
    var gs := [Group(x > level, [x])] + rest;
    assert gs[1..] == rest;
    assert forall k :: 1 <= k < |gs| ==> gs[k] == rest[k - 1];
  }

  /** `[list(ls) for val, ls in groups if val]`: the passing groups' values, in order. */
  function Runs(gs: seq<Group>): seq<seq<real>>
  {
    if gs == [] then [] else (if gs[0].passing then [gs[0].vals] else []) + Runs(gs[1..])
  }

  function PassingRuns(xs: seq<real>, level: real): seq<seq<real>>
  {
    Runs(Groups(xs, level))
  }

  /** Every run is non-empty and holds only values of the input that lie above the level. */
  lemma {:induction false} RunsPass(gs: seq<Group>, level: real)
    requires WellGrouped(gs, level)
    ensures forall k :: 0 <= k < |Runs(gs)| ==> Runs(gs)[k] != []
    ensures forall k, i :: 0 <= k < |Runs(gs)| && 0 <= i < |Runs(gs)[k]| ==>
      Runs(gs)[k][i] > level && Runs(gs)[k][i] in Flatten(gs)
  {
    if gs != [] {
      RunsPass(gs[1..], level);
      assert WellGrouped(gs[1..], level) by {
        forall k | 0 <= k < |gs| - 1 ensures gs[1..][k] == gs[k + 1] { }
      }
      var head: seq<seq<real>> := if gs[0].passing then [gs[0].vals] else [];
      assert Runs(gs) == head + Runs(gs[1..]);
      assert Flatten(gs) == gs[0].vals + Flatten(gs[1..]);
      forall k, i | 0 <= k < |Runs(gs)| && 0 <= i < |Runs(gs)[k]|
        ensures Runs(gs)[k][i] > level && Runs(gs)[k][i] in Flatten(gs)
      {
        if k < |head| {
          assert Runs(gs)[k][i] == gs[0].vals[i];
        } else {
          assert Runs(gs)[k] == Runs(gs[1..])[k - |head|];
        }
      }
    }
  }

  /** There is no passing run exactly when no value lies above the level. */
  lemma {:induction false} NoRunsIff(gs: seq<Group>, level: real)
    requires WellGrouped(gs, level)
    ensures Runs(gs) == [] <==> forall i :: 0 <= i < |Flatten(gs)| ==> Flatten(gs)[i] <= level
  {
    if gs != [] {
      assert WellGrouped(gs[1..], level) by {
        forall k | 0 <= k < |gs| - 1 ensures gs[1..][k] == gs[k + 1] { }
      }
      NoRunsIff(gs[1..], level);
      var f := Flatten(gs);
      assert f == gs[0].vals + Flatten(gs[1..]);
      if gs[0].passing {
        assert f[0] == gs[0].vals[0] && f[0] > level;
      } else {
        assert Runs(gs) == Runs(gs[1..]);
        assert forall i :: 0 <= i < |gs[0].vals| ==> f[i] <= level;
        assert forall j :: 0 <= j < |Flatten(gs[1..])| ==> Flatten(gs[1..])[j] == f[j + |gs[0].vals|];
      }
    }
  }

  /** Runs alternate with failing groups, so there are at most ceil(n / 2) of them for n
      values, and at most n / 2 when the first group fails. */
  lemma {:induction false} RunCountBound(gs: seq<Group>, level: real)
    requires WellGrouped(gs, level)
    ensures 2 * |Runs(gs)| <= |Flatten(gs)| + 1
    ensures gs != [] && !gs[0].passing ==> 2 * |Runs(gs)| <= |Flatten(gs)|
  {
    if gs != [] {
      assert WellGrouped(gs[1..], level) by {
        forall k | 0 <= k < |gs| - 1 ensures gs[1..][k] == gs[k + 1] { }
      }
      RunCountBound(gs[1..], level);
      assert Flatten(gs) == gs[0].vals + Flatten(gs[1..]);
      assert gs[0].vals != [];
      if gs[0].passing {
        assert Runs(gs) == [gs[0].vals] + Runs(gs[1..]);
        assert gs[1..] != [] ==> !gs[1..][0].passing;
      } else {
        assert Runs(gs) == Runs(gs[1..]);
      }
    }
  }

  /** The fallback at measureresult.py:176 compares the number of runs with the number
      of frequency points. Passing runs are separated by failing ones, so when there are
      no more worst-case values than axis points and at least two points, the two can
      never be equal: the border indices are used only on a single-point axis. */
  lemma NoFallbackOnLongAxis(mins: seq<real>, level: real, nFreqs: nat)
    requires |mins| <= nFreqs && nFreqs >= 2
    ensures |PassingRuns(mins, level)| < nFreqs
  {
    RunCountBound(Groups(mins, level), level);
  }

  /** Length of the longest run. */
  function MaxLen(runs: seq<seq<real>>): (n: nat)
    requires runs != []
    ensures forall k :: 0 <= k < |runs| ==> |runs[k]| <= n
    ensures exists k :: 0 <= k < |runs| && |runs[k]| == n
  {
    if |runs| == 1 then |runs[0]|
    else
      var rest := MaxLen(runs[1..]);
      assert forall k :: 1 <= k < |runs| ==> runs[k] == runs[1..][k - 1];
      if rest > |runs[0]| then rest else |runs[0]|
  }

  /** Position of the first run of length n. */
  function FirstWithLen(runs: seq<seq<real>>, n: nat): (k: nat)
    requires exists j :: 0 <= j < |runs| && |runs[j]| == n
    ensures k < |runs| && |runs[k]| == n
    ensures forall j :: 0 <= j < k ==> |runs[j]| != n
  {
    if |runs[0]| == n then 0
    else
      assert exists j :: 0 <= j < |runs[1..]| && |runs[1..][j]| == n by {
        var j :| 0 <= j < |runs| && |runs[j]| == n;
        assert runs[1..][j - 1] == runs[j];
      }
      1 + FirstWithLen(runs[1..], n)
  }

  /** `list(filter(lambda x: len(x) == max_size, res))[0]`: the first of the longest runs. */
  function ChosenRun(runs: seq<seq<real>>): (run: seq<real>)
    requires runs != []
    ensures forall k :: 0 <= k < |runs| ==> |runs[k]| <= |run|
    ensures exists k :: 0 <= k < |runs| && runs[k] == run && forall j :: 0 <= j < k ==> |runs[j]| < |run|
  {
    var k := FirstWithLen(runs, MaxLen(runs));
    runs[k]
  }

  /** Which frequency indices the edges come from, or that no point passes. */
  datatype EdgeChoice = NoPassband | Indices(lo: nat, hi: nat)

  /** lo and hi are where `mins.index` finds the chosen run's first and last values:
      the first positions holding them, and both above the level. */
  ghost predicate FoundByValue(mins: seq<real>, level: real, run: seq<real>, lo: nat, hi: nat)
  {
    && run != []
    && lo < |mins| && mins[lo] == run[0] && (forall j :: 0 <= j < lo ==> mins[j] != run[0])
    && hi < |mins| && mins[hi] == run[|run| - 1] && (forall j :: 0 <= j < hi ==> mins[j] != run[|run| - 1])
    && mins[lo] > level && mins[hi] > level
  }

  /** The index choice at measureresult.py:170-180. */
  function ChooseEdges(mins: seq<real>, level: real, borderLo: nat, borderHi: nat, nFreqs: nat): (c: EdgeChoice)
    ensures c.NoPassband? <==> forall i :: 0 <= i < |mins| ==> mins[i] <= level
    ensures c.Indices? && |PassingRuns(mins, level)| == nFreqs ==> c == Indices(borderLo, borderHi)
    ensures c.Indices? ==> PassingRuns(mins, level) != []
    ensures c.Indices? && |PassingRuns(mins, level)| != nFreqs ==>
      FoundByValue(mins, level, ChosenRun(PassingRuns(mins, level)), c.lo, c.hi)
  {
    var gs := Groups(mins, level);
    var runs := Runs(gs);
    NoRunsIff(gs, level);
    assert Flatten(gs) == mins;
    assert runs == [] <==> forall i :: 0 <= i < |mins| ==> mins[i] <= level;
    if runs == [] then NoPassband
    else if |runs| == nFreqs then Indices(borderLo, borderHi)
    else
      RunsPass(gs, level);
      var run := ChosenRun(runs);
      Indices(IndexOf(mins, run[0]), IndexOf(mins, run[|run| - 1]))
  }

  /** One step of the grouping: a value joins the first group of the rest when it lies
      on the same side of the level, and opens a new group otherwise. */
  lemma GroupsStep(x: real, xs: seq<real>, level: real, rest: seq<Group>)
    requires rest == Groups(xs, level)
    ensures rest != [] && rest[0].passing == (x > level) ==>
      Groups([x] + xs, level) == [Group(x > level, [x] + rest[0].vals)] + rest[1..]
    ensures !(rest != [] && rest[0].passing == (x > level)) ==>
      Groups([x] + xs, level) == [Group(x > level, [x])] + rest
  {
    assert ([x] + xs)[1..] == xs;
  }

  lemma CollapsesTailGroups()
    ensures Groups([5.0, -1.0, 5.0, 5.0], 0.0) == [Group(true, [5.0]), Group(false, [-1.0]), Group(true, [5.0, 5.0])]
  {
    hide Groups;
    var g1 := [Group(true, [5.0])];
    GroupsStep(5.0, [], 0.0, []);
    assert [5.0] + [] == [5.0];
    assert Groups([5.0], 0.0) == g1;
    var g2 := [Group(true, [5.0, 5.0])];
    GroupsStep(5.0, [5.0], 0.0, g1);
    assert [5.0] + [5.0] == [5.0, 5.0];
    assert Groups([5.0, 5.0], 0.0) == g2;
    var g3 := [Group(false, [-1.0])] + g2;
    GroupsStep(-1.0, [5.0, 5.0], 0.0, g2);
    assert [-1.0] + [5.0, 5.0] == [-1.0, 5.0, 5.0];
    assert Groups([-1.0, 5.0, 5.0], 0.0) == g3;
    GroupsStep(5.0, [-1.0, 5.0, 5.0], 0.0, g3);
    assert [5.0] + [-1.0, 5.0, 5.0] == [5.0, -1.0, 5.0, 5.0];
  }

  lemma CollapsesGroups()
    ensures PassingRuns([5.0, 5.0, -1.0, 5.0, 5.0], 0.0) == [[5.0, 5.0], [5.0, 5.0]]
  {
    hide Groups;
    var g3 := [Group(false, [-1.0]), Group(true, [5.0, 5.0])];
    var g4 := [Group(true, [5.0])] + g3;
    CollapsesTailGroups();
    assert Groups([5.0, -1.0, 5.0, 5.0], 0.0) == g4;
    var g5 := [Group(true, [5.0, 5.0])] + g3;
    GroupsStep(5.0, [5.0, -1.0, 5.0, 5.0], 0.0, g4);
    assert [5.0] + [5.0, -1.0, 5.0, 5.0] == [5.0, 5.0, -1.0, 5.0, 5.0];
    assert g4[1..] == g3;
    assert [5.0] + [5.0] == [5.0, 5.0];
    assert Groups([5.0, 5.0, -1.0, 5.0, 5.0], 0.0) == g5;
    assert Runs(g5[2..]) == [[5.0, 5.0]];
    assert Runs(g5[1..]) == [[5.0, 5.0]];
  }

  /** On worst-case values 5, 5, -1, 5, 5 with level 0 the two runs tie and the first is
      chosen; both of its values are 5, so both edges land on index 0. */
  lemma ChooseEdgesCollapses()
    ensures ChooseEdges([5.0, 5.0, -1.0, 5.0, 5.0], 0.0, 0, 4, 5) == Indices(0, 0)
  {
    hide Groups;
    CollapsesGroups();
    var runs := [[5.0, 5.0], [5.0, 5.0]];
    assert MaxLen(runs) == 2;
    assert ChosenRun(runs) == [5.0, 5.0];
    assert IndexOf([5.0, 5.0, -1.0, 5.0, 5.0], 5.0) == 0;
  }

  lemma CrossesGroups()
    ensures PassingRuns([3.0, -1.0, 2.0, 3.0], 0.0) == [[3.0], [2.0, 3.0]]
  {
    hide Groups;
    var g1 := [Group(true, [3.0])];
    GroupsStep(3.0, [], 0.0, []);
    assert [3.0] + [] == [3.0];
    assert Groups([3.0], 0.0) == g1;
    var g2 := [Group(true, [2.0, 3.0])];
    GroupsStep(2.0, [3.0], 0.0, g1);
    assert [2.0] + [3.0] == [2.0, 3.0];
    assert Groups([2.0, 3.0], 0.0) == g2;
    var g3 := [Group(false, [-1.0])] + g2;
    GroupsStep(-1.0, [2.0, 3.0], 0.0, g2);
    assert [-1.0] + [2.0, 3.0] == [-1.0, 2.0, 3.0];
    assert Groups([-1.0, 2.0, 3.0], 0.0) == g3;
    var g4 := [Group(true, [3.0])] + g3;
    GroupsStep(3.0, [-1.0, 2.0, 3.0], 0.0, g3);
    assert [3.0] + [-1.0, 2.0, 3.0] == [3.0, -1.0, 2.0, 3.0];
    assert Groups([3.0, -1.0, 2.0, 3.0], 0.0) == g4;
    assert Runs(g4[2..]) == [[2.0, 3.0]];
    assert Runs(g4[1..]) == [[2.0, 3.0]];
  }

  /** On 3, -1, 2, 3 with level 0 the longer run is 2, 3; the value 3 first occurs at
      index 0, so the upper edge index lies below the lower one. */
  lemma ChooseEdgesCrosses()
    ensures ChooseEdges([3.0, -1.0, 2.0, 3.0], 0.0, 0, 3, 4) == Indices(2, 0)
  {
    hide Groups;
    CrossesGroups();
    var runs := [[3.0], [2.0, 3.0]];
    assert MaxLen(runs) == 2;
    assert ChosenRun(runs) == [2.0, 3.0];
    assert IndexOf([3.0, -1.0, 2.0, 3.0], 2.0) == 2;
    assert IndexOf([3.0, -1.0, 2.0, 3.0], 3.0) == 0;
  }

  /** A passband edge in GHz, or the `'n/a'` marker for a band with no passing point. */
  datatype Edge = Value(ghz: real) | NotAvailable

  /** What `_cal_s21_worst_loss` assigns to the two edge fields before it returns or
      raises; None marks a field the run never reaches. */
  datatype EdgeUpdate = EdgeUpdate(kpMin: Option<Edge>, kpMax: Option<Edge>, status: Status)

  /** The secondary parameters the edge search reads, and a non-empty axis to search. */
  predicate LookupsSucceed(params: map<string, real>, freqs: seq<real>)
  {
    "Fborder1" in params && "Fborder2" in params && "kp" in params && freqs != []
  }

  /** `round(freqs[j] / 1_000_000_000, 2)`. */
  function EdgeAt(freqs: seq<real>, j: nat, round2: real -> real): Edge
    requires j < |freqs|
  {
    Value(round2(freqs[j] / HZ_PER_GHZ))
  }

  /** `_cal_s21_worst_loss`, as the assignments it makes: lookups in source order
      (Fborder1, the axis, Fborder2, kp), then the index choice, then the lower edge,
      then the upper edge, each indexing the axis. */
  function WorstLoss(params: map<string, real>, freqs: seq<real>, s21s: seq<seq<real>>, round2: real -> real): (u: EdgeUpdate)
    ensures !("Fborder1" in params) ==> u == EdgeUpdate(None, None, Raised(MissingKey("Fborder1")))
    ensures "Fborder1" in params && freqs == [] ==> u == EdgeUpdate(None, None, Raised(EmptyAxis))
    ensures "Fborder1" in params && freqs != [] && !("Fborder2" in params) ==>
      u == EdgeUpdate(None, None, Raised(MissingKey("Fborder2")))
    ensures "Fborder1" in params && freqs != [] && "Fborder2" in params && !("kp" in params) ==>
      u == EdgeUpdate(None, None, Raised(MissingKey("kp")))
    ensures u.status.Done? <==> u.kpMax.Some?
    ensures u.kpMax.Some? ==> u.kpMin.Some?
    ensures LookupsSucceed(params, freqs) && u.status.Raised? ==> u.status.error == IndexOutOfRange
    ensures u.kpMin == Some(NotAvailable) <==> u.kpMax == Some(NotAvailable)
    ensures LookupsSucceed(params, freqs) ==>
      var c := ChooseEdges(WorstCase(s21s), params["kp"], FindFreqIndex(freqs, params["Fborder1"]).value,
        FindFreqIndex(freqs, params["Fborder2"]).value, |freqs|);
      && (c.NoPassband? ==> u == EdgeUpdate(Some(NotAvailable), Some(NotAvailable), Done))
      && (c.Indices? && c.lo < |freqs| && c.hi < |freqs| ==>
            u == EdgeUpdate(Some(EdgeAt(freqs, c.lo, round2)), Some(EdgeAt(freqs, c.hi, round2)), Done))
      && (c.Indices? && c.lo < |freqs| <= c.hi ==>
            u == EdgeUpdate(Some(EdgeAt(freqs, c.lo, round2)), None, Raised(IndexOutOfRange)))
      && (c.Indices? && |freqs| <= c.lo ==> u == EdgeUpdate(None, None, Raised(IndexOutOfRange)))
  {
    if !("Fborder1" in params) then EdgeUpdate(None, None, Raised(MissingKey("Fborder1")))
    else if freqs == [] then EdgeUpdate(None, None, Raised(EmptyAxis))
    else if !("Fborder2" in params) then EdgeUpdate(None, None, Raised(MissingKey("Fborder2")))
    else if !("kp" in params) then EdgeUpdate(None, None, Raised(MissingKey("kp")))
    else
      var borderLo := FindFreqIndex(freqs, params["Fborder1"]).value;
      var borderHi := FindFreqIndex(freqs, params["Fborder2"]).value;
      match ChooseEdges(WorstCase(s21s), params["kp"], borderLo, borderHi, |freqs|)
      case NoPassband => EdgeUpdate(Some(NotAvailable), Some(NotAvailable), Done)
      case Indices(lo, hi) =>
        if |freqs| <= lo then EdgeUpdate(None, None, Raised(IndexOutOfRange))
        else if |freqs| <= hi then EdgeUpdate(Some(EdgeAt(freqs, lo, round2)), None, Raised(IndexOutOfRange))
        else EdgeUpdate(Some(EdgeAt(freqs, lo, round2)), Some(EdgeAt(freqs, hi, round2)), Done)
  }

  /** Both edges are `'n/a'` exactly when no point's worst-case S21 lies above kp. */
  lemma WorstLossNoPassbandIff(params: map<string, real>, freqs: seq<real>, s21s: seq<seq<real>>, round2: real -> real)
    requires LookupsSucceed(params, freqs)
    ensures var u := WorstLoss(params, freqs, s21s, round2);
      u.kpMin == Some(NotAvailable) <==>
      forall p :: 0 <= p < |WorstCase(s21s)| ==> WorstCase(s21s)[p] <= params["kp"]
  {
    var borderLo := FindFreqIndex(freqs, params["Fborder1"]).value;
    var borderHi := FindFreqIndex(freqs, params["Fborder2"]).value;
    var c := ChooseEdges(WorstCase(s21s), params["kp"], borderLo, borderHi, |freqs|);
    assert WorstLoss(params, freqs, s21s, round2).kpMin == Some(NotAvailable) <==> c.NoPassband?;
  }

  /** Outside the border fallback, every edge that is set is the rounded frequency of a
      point whose worst-case S21 lies above kp. */
  lemma WorstLossEdgesPass(params: map<string, real>, freqs: seq<real>, s21s: seq<seq<real>>, round2: real -> real)
    requires LookupsSucceed(params, freqs)
    requires |PassingRuns(WorstCase(s21s), params["kp"])| != |freqs|
    ensures var u := WorstLoss(params, freqs, s21s, round2);
      forall e :: (u.kpMin == Some(e) || u.kpMax == Some(e)) && e.Value? ==>
        exists j :: 0 <= j < |freqs| && j < |WorstCase(s21s)| && e == EdgeAt(freqs, j, round2) &&
          WorstCase(s21s)[j] > params["kp"]
  {
    var mins := WorstCase(s21s);
    var u := WorstLoss(params, freqs, s21s, round2);
    var borderLo := FindFreqIndex(freqs, params["Fborder1"]).value;
    var borderHi := FindFreqIndex(freqs, params["Fborder2"]).value;
    var c := ChooseEdges(mins, params["kp"], borderLo, borderHi, |freqs|);
    if c.Indices? {
      if c.lo < |freqs| {
        assert u.kpMin == Some(EdgeAt(freqs, c.lo, round2));
      }
      if c.lo < |freqs| && c.hi < |freqs| {
        assert u.kpMax == Some(EdgeAt(freqs, c.hi, round2));
      }
    }
  }

  /** When the S21 curves are no longer than the axis, neither the chosen run's values
      nor the border fallback index past the axis, so with its keys present the edge
      search always finishes. */
  lemma WorstLossFinishes(params: map<string, real>, freqs: seq<real>, s21s: seq<seq<real>>, round2: real -> real)
    requires LookupsSucceed(params, freqs)
    requires ZipLen(s21s) <= |freqs|
    ensures WorstLoss(params, freqs, s21s, round2).status.Done?
  {
    var mins := WorstCase(s21s);
    var level := params["kp"];
    var borderLo := FindFreqIndex(freqs, params["Fborder1"]).value;
    var borderHi := FindFreqIndex(freqs, params["Fborder2"]).value;
    var c := ChooseEdges(mins, level, borderLo, borderHi, |freqs|);
    if c.Indices? && |PassingRuns(mins, level)| == |freqs| {
      assert c.lo < |freqs| && c.hi < |freqs|;
    } else if c.Indices? {
      assert FoundByValue(mins, level, ChosenRun(PassingRuns(mins, level)), c.lo, c.hi);
    }
  }
}
