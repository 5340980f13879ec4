/** The calibration path of `_load_ideal`: which states are read, how a Touchstone file's
    rows become the magnitude curves, and what a run over several files yields. Files
    are given as a map from (directory, state) to their lines, each line already split
    into numbers; opening files and `float()` parsing are not modelled. */
module Calibration {
  import opened Outcomes

  /** `MeasureResult.main_states`. */
  const MAIN_STATES: seq<nat> := [0, 1, 2, 4, 8, 16, 32, 63]
  /** `range(64)`: the attenuator states. */
  const STATE_COUNT: nat := 64
  /** `readlines()[5:]`: the header lines skipped in every file. */
  const HEADER_LINES: nat := 5
  /** frequency and magnitude/phase of S11, S21, S12, S22. */
  const FIELDS_PER_ROW: nat := 9

  /** `MeasureResult.adjust_dirs`: calibration corner to directory. */
  const ADJUST_DIRS: map<int, string> := map[1 := "data/+25", 2 := "data/+85", 3 := "data/-60"]

  /** The file of state i in a directory: `{dir}/s{i}.s2p`. */
  type CalibrationFiles = map<(string, nat), seq<seq<real>>>

  /** The magnitude columns kept from one file: frequency, S11, S21 and S22 in dB. */
  datatype Sweep = Sweep(freqs: seq<real>, s11: seq<real>, s21: seq<real>, s22: seq<real>)

  /** The skip test at measureresult.py:187. */
  predicate Selected(onlyMain: bool, i: nat)
  {
    !onlyMain || i in MAIN_STATES
  }

  /** The states below n that the loop does not skip, in visiting order. */
  function SelectedStates(onlyMain: bool, n: nat): seq<nat>
  {
    if n == 0 then []
    else SelectedStates(onlyMain, n - 1) + (if Selected(onlyMain, n - 1) then [n - 1] else [])
  }

  /** The loop visits exactly the states below n it does not skip, each once and in
      increasing order. */
  lemma {:induction false} SelectedStatesSpec(onlyMain: bool, n: nat)
    ensures forall i: nat :: i in SelectedStates(onlyMain, n) <==> i < n && Selected(onlyMain, i)
    ensures forall a, b :: 0 <= a < b < |SelectedStates(onlyMain, n)| ==>
      SelectedStates(onlyMain, n)[a] < SelectedStates(onlyMain, n)[b]
  {
    if n > 0 {
      SelectedStatesSpec(onlyMain, n - 1);
      var before := SelectedStates(onlyMain, n - 1);
      assert forall a :: 0 <= a < |before| ==> before[a] in before && before[a] < n - 1;
    }
  }

  /** Two ascending sequences with the same members are equal. */
  lemma {:induction false} AscendingUnique(a: seq<nat>, b: seq<nat>)
    requires forall i, j :: 0 <= i < j < |a| ==> a[i] < a[j]
    requires forall i, j :: 0 <= i < j < |b| ==> b[i] < b[j]
    requires forall x :: x in a <==> x in b
    ensures a == b
  {
    if a != [] {
      assert a[0] in a;
    }
    if b != [] {
      assert b[0] in b;
    }
    if a != [] && b != [] {
      assert a[0] == b[0] by {
        assert a[0] in b && b[0] in a;
      }
      assert forall x :: x in a[1..] <==> x in b[1..] by {
        forall x ensures x in a[1..] <==> x in b[1..] {
          if x in a[1..] {
            var j :| 0 <= j < |a| - 1 && a[1..][j] == x;
            assert a[j + 1] > a[0];
            assert x in b && x != b[0];
            assert b == [b[0]] + b[1..];
          }
          if x in b[1..] {
            var j :| 0 <= j < |b| - 1 && b[1..][j] == x;
            assert b[j + 1] > b[0];
            assert x in a && x != a[0];
            assert a == [a[0]] + a[1..];
          }
        }
      }
      AscendingUnique(a[1..], b[1..]);
      assert a == [a[0]] + a[1..] && b == [b[0]] + b[1..];
    }
  }

  lemma MainStatesAscending()
    ensures forall i, j :: 0 <= i < j < |MAIN_STATES| ==> MAIN_STATES[i] < MAIN_STATES[j]
    ensures forall i :: 0 <= i < |MAIN_STATES| ==> MAIN_STATES[i] < STATE_COUNT
  {
  }

  lemma MainMembers(n: nat)
    requires n == STATE_COUNT
    ensures forall x: nat :: x in SelectedStates(true, n) <==> x in MAIN_STATES
  {
    SelectedStatesSpec(true, n);
    MainStatesAscending();
    forall x: nat ensures x in SelectedStates(true, n) <==> x in MAIN_STATES {
      if x in MAIN_STATES {
        var i :| 0 <= i < |MAIN_STATES| && MAIN_STATES[i] == x;
      }
    }
  }

  /** With `only_main_states` set the loop reads exactly the main states, in order. */
  lemma MainSelection(n: nat)
    requires n == STATE_COUNT
    ensures SelectedStates(true, n) == MAIN_STATES
  {
    MainStatesAscending();
    MainMembers(n);
    SelectedStatesSpec(true, n);
    AscendingUnique(SelectedStates(true, n), MAIN_STATES);
  }

  /** Without it the loop reads all 64 states, in order. */
  lemma FullSelection(n: nat)
    ensures SelectedStates(false, n) == seq(n, i requires 0 <= i < n => i)
  {
    var all: seq<nat> := seq(n, i requires 0 <= i < n => i);
    var sel := SelectedStates(false, n);
    SelectedStatesSpec(false, n);
    assert forall x: nat :: x in all <==> x < n by {
      forall x: nat ensures x in all <==> x < n {
        if x < n {
          assert all[x] == x;
        }
      }
    }
    assert forall x :: x in sel <==> x in all;
    AscendingUnique(sel, all);
  }

  /** `list(f.readlines())[5:]`: the lines after the header, none for a shorter file. */
  function DataRows(lines: seq<seq<real>>): (rows: seq<seq<real>>)
    ensures |lines| <= HEADER_LINES ==> rows == []
    ensures |lines| > HEADER_LINES ==> |rows| == |lines| - HEADER_LINES
    ensures forall i :: 0 <= i < |rows| ==> rows[i] == lines[HEADER_LINES + i]
  {
    if |lines| <= HEADER_LINES then [] else lines[HEADER_LINES..]
  }

  /** The header is never read: files that differ only there give the same rows. */
  lemma HeaderIgnored(header: seq<seq<real>>, other: seq<seq<real>>, body: seq<seq<real>>)
    requires |header| == HEADER_LINES && |other| == HEADER_LINES
    ensures DataRows(header + body) == DataRows(other + body) == body
  {
    assert (header + body)[HEADER_LINES..] == body;
    assert (other + body)[HEADER_LINES..] == body;
  }

  /** Every row unpacks into the nine fields of a Touchstone 2-port line. */
  predicate WellFormedRows(rows: seq<seq<real>>)
  {
    forall i :: 0 <= i < |rows| ==> |rows[i]| == FIELDS_PER_ROW
  }

  /** Column c of every row. */
  function Col(rows: seq<seq<real>>, c: nat): (col: seq<real>)
    requires WellFormedRows(rows) && c < FIELDS_PER_ROW
    ensures |col| == |rows|
    ensures forall i :: 0 <= i < |rows| ==> col[i] == rows[i][c]
  {
    seq(|rows|, i requires 0 <= i < |rows| => rows[i][c])
  }

  /** One file's rows: a row that does not unpack into nine values raises ValueError and
      nothing of the file is kept; otherwise columns 0, 1, 3 and 7. */
  function ParseRows(state: nat, rows: seq<seq<real>>): (r: Result<Sweep>)
    ensures r.Err? <==> !WellFormedRows(rows)
    ensures r.Err? ==> r.error == MalformedRow(state)
    ensures r.Ok? ==> |r.value.freqs| == |r.value.s11| == |r.value.s21| == |r.value.s22| == |rows|
    ensures r.Ok? ==> forall i :: 0 <= i < |rows| ==>
      rows[i][0] == r.value.freqs[i] && rows[i][1] == r.value.s11[i] &&
      rows[i][3] == r.value.s21[i] && rows[i][7] == r.value.s22[i]
  {
    if WellFormedRows(rows) then Ok(Sweep(Col(rows, 0), Col(rows, 1), Col(rows, 3), Col(rows, 7)))
    else Err(MalformedRow(state))
  }

  /** The per-file loop at measureresult.py:190-211: append the fields of each data row,
      raising at the first row without nine fields. */
  method ReadRows(state: nat, lines: seq<seq<real>>) returns (r: Result<Sweep>)
    ensures r == ParseRows(state, DataRows(lines))
  {
    var rows := DataRows(lines);
    var fs, s11dbs, s21dbs, s22dbs := [], [], [], [];
    var i := 0;
    while i < |rows|
      invariant 0 <= i <= |rows|
      invariant WellFormedRows(rows[..i])
      invariant |fs| == |s11dbs| == |s21dbs| == |s22dbs| == i
      invariant forall j :: 0 <= j < i ==>
        fs[j] == rows[j][0] && s11dbs[j] == rows[j][1] && s21dbs[j] == rows[j][3] && s22dbs[j] == rows[j][7]
    {
      var row := rows[i];
      if |row| != FIELDS_PER_ROW {
        assert !WellFormedRows(rows);
        return Err(MalformedRow(state));
      }
      fs, s11dbs, s21dbs, s22dbs := fs + [row[0]], s11dbs + [row[1]], s21dbs + [row[3]], s22dbs + [row[7]];
      assert rows[..i + 1] == rows[..i] + [row];
      i := i + 1;
    }
    assert rows[..i] == rows;
    assert fs == Col(rows, 0) && s11dbs == Col(rows, 1) && s21dbs == Col(rows, 3) && s22dbs == Col(rows, 7);
    r := Ok(Sweep(fs, s11dbs, s21dbs, s22dbs));
  }

  /** What a run over several states yields: the sweeps read before the first failure,
      and that failure if there was one. */
  datatype Loaded = Loaded(sweeps: seq<Sweep>, failure: Option<Error>)

  /** The file of one state, parsed, or the error opening or reading it raises. */
  function ReadState(files: CalibrationFiles, dir: string, state: nat): (r: Result<Sweep>)
    ensures r.Err? && (dir, state) in files ==> r.error == MalformedRow(state)
    ensures (dir, state) !in files ==> r == Err(MissingFile(state))
    ensures (dir, state) in files ==> (r.Ok? <==> WellFormedRows(DataRows(files[(dir, state)])))
    ensures r.Ok? ==> (dir, state) in files && r == ParseRows(state, DataRows(files[(dir, state)]))
  {
    if (dir, state) in files then ParseRows(state, DataRows(files[(dir, state)]))
    else Err(MissingFile(state))
  }

  /** The states in order, stopping at the first that cannot be read. */
  function LoadStates(files: CalibrationFiles, dir: string, states: seq<nat>): (r: Loaded)
    ensures |r.sweeps| <= |states|
    ensures r.failure.None? ==> |r.sweeps| == |states|
    ensures forall j :: 0 <= j < |r.sweeps| ==> ReadState(files, dir, states[j]) == Ok(r.sweeps[j])
    ensures r.failure.Some? ==> |r.sweeps| < |states| && ReadState(files, dir, states[|r.sweeps|]) == Err(r.failure.value)
  {
    if states == [] then Loaded([], None)
    else
      match ReadState(files, dir, states[0])
      case Err(e) => Loaded([], Some(e))
      case Ok(sweep) =>
        var rest := LoadStates(files, dir, states[1..]);
        assert forall j :: 0 <= j < |rest.sweeps| ==> states[1..][j] == states[j + 1];
        Loaded([sweep] + rest.sweeps, rest.failure)
  }

  /** Visiting one more state: nothing changes after a failure; otherwise its sweep is
      appended, or its error becomes the failure. */
  lemma {:induction false} LoadStatesSnoc(files: CalibrationFiles, dir: string, states: seq<nat>, s: nat)
    ensures var before, after := LoadStates(files, dir, states), LoadStates(files, dir, states + [s]);
      && (before.failure.Some? ==> after == before)
      && (before.failure.None? && ReadState(files, dir, s).Ok? ==>
            after == Loaded(before.sweeps + [ReadState(files, dir, s).value], None))
      && (before.failure.None? && ReadState(files, dir, s).Err? ==>
            after == Loaded(before.sweeps, Some(ReadState(files, dir, s).error)))
  {
    if states == [] {
      assert states + [s] == [s];
      assert [s][1..] == [];
    } else {
      assert (states + [s])[0] == states[0];
      assert (states + [s])[1..] == states[1..] + [s];
      LoadStatesSnoc(files, dir, states[1..], s);
      var sweep := ReadState(files, dir, states[0]);
      if sweep.Ok? {
        assert LoadStates(files, dir, states).sweeps == [sweep.value] + LoadStates(files, dir, states[1..]).sweeps;
      }
    }
  }

  /** What `_load_ideal` reads from one corner's directory: the selected states in order. */
  function IdealRun(files: CalibrationFiles, dir: string, onlyMain: bool): Loaded
  {
    LoadStates(files, dir, SelectedStates(onlyMain, STATE_COUNT))
  }

  /** IdealRun unfolded, for callers that keep its body hidden.
      Empty body: the definition is visible here, and callers that verify under
      `hide *` (to keep their proofs small) use this lemma in its place. */
  lemma IdealRunUnfolds(files: CalibrationFiles, dir: string, onlyMain: bool)
    ensures IdealRun(files, dir, onlyMain) == LoadStates(files, dir, SelectedStates(onlyMain, STATE_COUNT))
  {
  }

  /** Every state that is read before a failure contributes exactly one sweep, so a
      complete run over the main states yields 8 sweeps and over all states 64. */
  lemma CompleteRunSizes(files: CalibrationFiles, dir: string, onlyMain: bool)
    ensures var r := IdealRun(files, dir, onlyMain);
      r.failure.None? ==> |r.sweeps| == if onlyMain then |MAIN_STATES| else STATE_COUNT
  {
    var n := STATE_COUNT;
    if onlyMain {
      MainSelection(n);
    } else {
      FullSelection(n);
    }
  }

  /** The loop visits states in increasing order: the states below m are the first
      ones visited below n. */
  lemma {:induction false} SelectedPrefix(onlyMain: bool, m: nat, n: nat)
    requires m <= n
    ensures SelectedStates(onlyMain, m) <= SelectedStates(onlyMain, n)
  {
    if m < n {
      SelectedPrefix(onlyMain, m, n - 1);
    }
  }

  /** A failure ends the run: reading further states changes nothing. */
  lemma {:induction false} FailureSticks(files: CalibrationFiles, dir: string, a: seq<nat>, b: seq<nat>)
    requires a <= b
    ensures LoadStates(files, dir, a).failure.Some? ==> LoadStates(files, dir, b) == LoadStates(files, dir, a)
  {
    if a != [] {
      assert b[0] == a[0];
      assert a[1..] <= b[1..];
      FailureSticks(files, dir, a[1..], b[1..]);
    }
  }

  /** A run that fails at state i, which is selected, has failed for good: the whole
      run yields what was read up to state i and that failure. */
  lemma RunFailsAt(files: CalibrationFiles, dir: string, onlyMain: bool, i: nat, sweeps: seq<Sweep>, e: Error)
    requires i < STATE_COUNT && Selected(onlyMain, i)
    requires LoadStates(files, dir, SelectedStates(onlyMain, i) + [i]) == Loaded(sweeps, Some(e))
    ensures IdealRun(files, dir, onlyMain) == Loaded(sweeps, Some(e))
  {
    SelectedStep(onlyMain, i);
    SelectedPrefix(onlyMain, i + 1, STATE_COUNT);
    FailureSticks(files, dir, SelectedStates(onlyMain, i + 1), SelectedStates(onlyMain, STATE_COUNT));
  }

  /** A run that reads every selected state reads at least one sweep. */
  lemma RunCompletes(files: CalibrationFiles, dir: string, onlyMain: bool, sweeps: seq<Sweep>)
    requires LoadStates(files, dir, SelectedStates(onlyMain, STATE_COUNT)) == Loaded(sweeps, None)
    ensures IdealRun(files, dir, onlyMain) == Loaded(sweeps, None) && sweeps != []
  {
    FirstStateSelected(onlyMain, STATE_COUNT);
  }

  /** State 0 is always read, so a run that does not fail reads at least one file. */
  lemma FirstStateSelected(onlyMain: bool, n: nat)
    requires n == STATE_COUNT
    ensures 0 in SelectedStates(onlyMain, n)
  {
    SelectedStatesSpec(onlyMain, n);
    assert MAIN_STATES[0] == 0;
  }

  /** Raising the bound by one adds state n exactly when it is selected. */
  lemma SelectedStep(onlyMain: bool, n: nat)
    ensures SelectedStates(onlyMain, n + 1) ==
      SelectedStates(onlyMain, n) + (if Selected(onlyMain, n) then [n] else [])
  {
  }

  /** A present file is parsed from its data rows. */
  lemma ReadPresentState(files: CalibrationFiles, dir: string, state: nat)
    requires (dir, state) in files
    ensures ReadState(files, dir, state) == ParseRows(state, DataRows(files[(dir, state)]))
  {
  }

  /** Before the first state nothing is selected and nothing is loaded. */
  lemma NothingLoaded(files: CalibrationFiles, dir: string, onlyMain: bool)
    ensures SelectedStates(onlyMain, 0) == []
    ensures LoadStates(files, dir, []) == Loaded([], None)
  {
  }
}
