/** The expected outputs pinned by tests/test_bp.py, restated over the model
    with exact reals. */
module TestCases {
  import opened Outcomes
  import opened Series
  import opened Simulators
  import opened Accessor
  import opened LineProperties

  /** test_percent_of_function: shifts 0, -1 and 1 of [100, 200, 300, 400]. */
  lemma PercentOfExamples()
    ensures PercentOfWindow([100.0, 200.0, 300.0, 400.0], 0.01, 0, 0, 3) == [1.0, 2.0, 3.0, 4.0]
    ensures PercentOfWindow([100.0, 200.0, 300.0, 400.0], 0.01, -1, 0, 3) == [0.0, 1.0, 2.0, 3.0]
    ensures PercentOfWindow([100.0, 200.0, 300.0, 400.0], 0.01, 1, 0, 3) == [2.0, 3.0, 4.0, 0.0]
  {
  }

  /** The index of the `actualise` tests. */
  const SixYears: seq<int> := [2020, 2021, 2022, 2023, 2024, 2025]

  /** The line of the `actualise` tests. */
  const Hundreds: seq<real> := [100.0, 200.0, 300.0, 400.0, 500.0, 600.0]

  lemma PowersOfGrowth()
    ensures Pow(1.01, 0) == 1.0 && Pow(1.01, 1) == 1.01 && Pow(1.01, 2) == 1.0201
    ensures Pow(1.01, 3) == 1.030301 && Pow(1.01, 4) == 1.04060401 && Pow(1.01, 5) == 1.0510100501
    ensures Pow(1.01, -1) == 1.0 / 1.01 && Pow(1.01, -2) == 1.0 / 1.0201
  {
    assert Pow(1.01, 1) == 1.01 * Pow(1.01, 0);
    assert Pow(1.01, 2) == 1.01 * Pow(1.01, 1);
    assert Pow(1.01, 3) == 1.01 * Pow(1.01, 2);
    assert Pow(1.01, 4) == 1.01 * Pow(1.01, 3);
    assert Pow(1.01, 5) == 1.01 * Pow(1.01, 4);
  }

  /** Five values of a geometric sequence, written out. */
  lemma CompoundedFive(anchor: real, growth: real, offset: int)
    requires offset >= 0 || growth != 0.0
    ensures Compounded(anchor, growth, offset, 5)
         == [Term(anchor, growth, offset), Term(anchor, growth, offset + 1), Term(anchor, growth, offset + 2),
             Term(anchor, growth, offset + 3), Term(anchor, growth, offset + 4)]
  {
  }

  /** test_actualise_function_happy_cases, no value and no reference: the
      value of 2020 compounded from 2021 to 2025. */
  lemma ActualiseFromPreviousValueExample()
    ensures ActualiseWindow(0.01, None, None, SixYears, Hundreds, 1, 5)
         == Ok([101.0, 102.01, 103.0301, 104.060401, 105.10100501])
  {
    assert ActualiseWindow(0.01, None, None, SixYears, Hundreds, 1, 5) == Ok(Compounded(100.0, 1.01, 1, 5));
    CompoundedFive(100.0, 1.01, 1);
    PowersOfGrowth();
  }

  /** test_actualise_function_happy_cases, value 10 and no reference. */
  lemma ActualiseFromValueExample()
    ensures ActualiseWindow(0.01, Some(10.0), None, SixYears, Hundreds, 1, 5)
         == Ok([10.0, 10.1, 10.201, 10.30301, 10.4060401])
  {
    assert ActualiseWindow(0.01, Some(10.0), None, SixYears, Hundreds, 1, 5) == Ok(Compounded(10.0, 1.01, 0, 5));
    CompoundedFive(10.0, 1.01, 0);
    PowersOfGrowth();
  }

  /** test_actualise_function_happy_cases, value 10 at the reference 2023:
      discounted before 2023, compounded after. */
  lemma ActualiseAgainstReferenceExample()
    ensures ActualiseWindow(0.01, Some(10.0), Some(2023), SixYears, Hundreds, 1, 5)
         == Ok([10.0 / 1.0201, 10.0 / 1.01, 10.0, 10.1, 10.201])
  {
    assert SixYears[3] == 2023;
    PosIsUnique(SixYears, 2023, 3);
    assert ActualiseReference(Some(10.0), Some(2023), SixYears, 1) == 3;
    assert ActualiseWindow(0.01, Some(10.0), Some(2023), SixYears, Hundreds, 1, 5) == Ok(Compounded(10.0, 1.01, -2, 5));
    CompoundedFive(10.0, 1.01, -2);
    PowersOfGrowth();
  }

  /** test_actualise_function_error_cases: window starting at position 0. */
  lemma ActualiseErrorExamples()
    ensures ActualiseWindow(0.01, None, None, SixYears, Hundreds, 0, 5) == Err(NoAnchor)
    ensures ActualiseWindow(0.01, None, Some(2023), SixYears, Hundreds, 0, 5) == Err(ReferenceWithoutValue)
  {
  }

  /** test_actualise_and_cumulate_function. */
  lemma ActualiseAndCumulateExample()
    ensures CumulateWindow([100.0, 200.0, 300.0, 400.0], 0.01, [10.0, 20.0, 30.0, 40.0], 0, 3)
         == [0.0, 101.0, 304.01, 610.0501]
  {
    var r := CumulateWindow([100.0, 200.0, 300.0, 400.0], 0.01, [10.0, 20.0, 30.0, 40.0], 0, 3);
    assert r[0] == 0.0;
    assert r[1] == 101.0;
    assert r[2] == 304.01;
    assert r[3] == 610.0501;
  }

  /** The columns of test_min_function and test_max_function. MinExample and
      MaxExample take them as a parameter fixed by `requires lines ==
      Rotations`, which keeps the verifier from unfolding the literal at every
      step. */
  const Rotations: seq<seq<real>> := [[1.0, 2.0, 3.0], [2.0, 3.0, 1.0], [3.0, 1.0, 2.0]]

  lemma ConstantOfThree(r: seq<real>, v: real)
    requires |r| == 3 && r[0] == v && r[1] == v && r[2] == v
    ensures r == [v, v, v]
  {
  }

  /** test_min_function: every position holds a 1 in one of the columns. */
  lemma MinExample(lines: seq<seq<real>>)
    requires lines == Rotations
    ensures Aligned(lines) && Min(lines) == [1.0, 1.0, 1.0]
  {
    var r := Min(lines);
    assert |r| == 3;
    assert forall i, j :: 0 <= i < 3 && 0 <= j < 3 ==> 1.0 <= lines[j][i];
    assert r[0] <= lines[0][0] && r[1] <= lines[2][1] && r[2] <= lines[1][2];
    assert r[0] == 1.0 && r[1] == 1.0 && r[2] == 1.0;
    ConstantOfThree(r, 1.0);
  }

  /** test_max_function: every position holds a 3 in one of the columns. */
  lemma MaxExample(lines: seq<seq<real>>)
    requires lines == Rotations
    ensures Aligned(lines) && Max(lines) == [3.0, 3.0, 3.0]
  {
    var r := Max(lines);
    assert |r| == 3;
    assert forall i, j :: 0 <= i < 3 && 0 <= j < 3 ==> lines[j][i] <= 3.0;
    assert lines[2][0] <= r[0] && lines[1][1] <= r[1] && lines[0][2] <= r[2];
    assert r[0] == 3.0 && r[1] == 3.0 && r[2] == 3.0;
    ConstantOfThree(r, 3.0);
  }

  /** The simulator of test_line_method_simulation_happy_cases: the window's
      keys minus 2000. */
  function YearsSince2000(index: seq<int>, s: seq<real>, startPos: nat, endPos: nat): (r: seq<real>)
    ensures startPos <= endPos < |index| ==> |r| == endPos - startPos + 1
  {
    if startPos <= endPos < |index| then
      seq(endPos - startPos + 1, k requires 0 <= k <= endPos - startPos => (index[startPos + k] - 2000) as real)
    else []
  }

  /** The index of the `line()` tests: the years 2020 to 2029. The examples
      over it take the index as a parameter fixed by `requires index ==
      TenYears`, which keeps the verifier from unfolding the literal at every
      step and so keeps their proofs cheap. */
  const TenYears: seq<int> := [2020, 2021, 2022, 2023, 2024, 2025, 2026, 2027, 2028, 2029]

  /** The index of `BP("Test", 2020, 2029)`. */
  lemma TenYearsIsRange()
    ensures TenYears == Range(2020, 2030)
  {
  }

  lemma TenYearsIsIndex()
    ensures StrictlyIncreasing(TenYears)
  {
    TenYearsIsRange();
    RangeIsIndex(2020, 2030);
  }

  /** The column of ten zeros the line tests start from. */
  const TenZeros: seq<real> := [0.0, 0.0, 0.0, 0.0, 0.0, 0.0, 0.0, 0.0, 0.0, 0.0]

  lemma OverlayWhole(base: seq<real>, part: seq<real>)
    requires |part| == |base|
    ensures Overlay(base, 0, part) == part
  {
  }

  lemma YearsOfTenYears(index: seq<int>)
    requires index == TenYears
    ensures YearsSince2000(index, TenZeros, 0, 9) == [20.0, 21.0, 22.0, 23.0, 24.0, 25.0, 26.0, 27.0, 28.0, 29.0]
  {
  }

  /** test_line_method_simulation_happy_cases, no history and no bounds. */
  lemma LineSimulationWholeIndexExample(index: seq<int>)
    requires index == TenYears
    ensures StrictlyIncreasing(index) && BuildLine(index, 0.0, None, Some(Custom(YearsSince2000)), None, None)
         == Ok(Built([20.0, 21.0, 22.0, 23.0, 24.0, 25.0, 26.0, 27.0, 28.0, 29.0], 0))
  {
    var out := [20.0, 21.0, 22.0, 23.0, 24.0, 25.0, 26.0, 27.0, 28.0, 29.0];
    assert Overlay(TenZeros, 0, out) == out by {
      OverlayWhole(TenZeros, out);
    }
    TenYearsIsIndex();
    var pre := Built(TenZeros, 0);
    assert Prefill(10, 0.0, None) == Ok(pre) by {
      assert Filled(10, 0.0) == TenZeros;
    }
    DefaultWindowFollowsHistory(index, 0);
    assert Simulate(Custom(YearsSince2000), index, TenZeros, 0, 9) == Ok(out) by {
      YearsOfTenYears(index);
    }
    SimulatedLine(index, 0.0, None, Custom(YearsSince2000), None, None, pre, Window(0, 9), out);
  }

  /** test_line_method_simulation_happy_cases, simulated from 2025 to 2028. */
  lemma LineSimulationBoundedExample(index: seq<int>)
    requires index == TenYears
    ensures StrictlyIncreasing(index) && BuildLine(index, 0.0, None, Some(Custom(YearsSince2000)), Some(2025), Some(2028))
         == Ok(Built([0.0, 0.0, 0.0, 0.0, 0.0, 25.0, 26.0, 27.0, 28.0, 0.0], 0))
  {
    var out := [25.0, 26.0, 27.0, 28.0];
    assert Overlay(TenZeros, 5, out) == [0.0, 0.0, 0.0, 0.0, 0.0, 25.0, 26.0, 27.0, 28.0, 0.0];
    TenYearsIsIndex();
    var pre := Built(TenZeros, 0);
    assert Prefill(10, 0.0, None) == Ok(pre) by {
      assert Filled(10, 0.0) == TenZeros;
    }
    assert Simulate(Custom(YearsSince2000), index, TenZeros, 5, 8) == Ok(out) by {
      assert YearsSince2000(index, TenZeros, 5, 8) == out;
    }
    WindowAtPositions(index, 0, Some(2025), Some(2028), 5, 8);
    SimulatedLine(index, 0.0, None, Custom(YearsSince2000), Some(2025), Some(2028), pre, Window(5, 8), out);
  }

  /** test_line_method_simulation_happy_cases, two history values and a
      simulation from 2025: positions 2 to 4 keep the default. */
  lemma LineSimulationAfterGapExample(index: seq<int>)
    requires index == TenYears
    ensures StrictlyIncreasing(index) && BuildLine(index, 0.0, Some([1.0, 2.0]), Some(Custom(YearsSince2000)), Some(2025), None)
         == Ok(Built([1.0, 2.0, 0.0, 0.0, 0.0, 25.0, 26.0, 27.0, 28.0, 29.0], 2))
  {
    var column := [1.0, 2.0, 0.0, 0.0, 0.0, 0.0, 0.0, 0.0, 0.0, 0.0];
    var out := [25.0, 26.0, 27.0, 28.0, 29.0];
    assert Overlay(column, 5, out) == [1.0, 2.0, 0.0, 0.0, 0.0, 25.0, 26.0, 27.0, 28.0, 29.0];
    TenYearsIsIndex();
    var pre := Built(column, 2);
    assert Prefill(10, 0.0, Some([1.0, 2.0])) == Ok(pre) by {
      assert Filled(10, 0.0) == TenZeros;
      assert Overlay(TenZeros, 0, [1.0, 2.0]) == column;
    }
    assert Simulate(Custom(YearsSince2000), index, column, 5, 9) == Ok(out) by {
      assert YearsSince2000(index, column, 5, 9) == out;
    }
    WindowAtPositions(index, 2, Some(2025), None, 5, 9);
    SimulatedLine(index, 0.0, Some([1.0, 2.0]), Custom(YearsSince2000), Some(2025), None, pre, Window(5, 9), out);
  }

  /** test_line_method_simulation_happy_cases, simulated from 2025 to the end. */
  lemma LineSimulationFromExample(index: seq<int>)
    requires index == TenYears
    ensures StrictlyIncreasing(index) && BuildLine(index, 0.0, None, Some(Custom(YearsSince2000)), Some(2025), None)
         == Ok(Built([0.0, 0.0, 0.0, 0.0, 0.0, 25.0, 26.0, 27.0, 28.0, 29.0], 0))
  {
    var out := [25.0, 26.0, 27.0, 28.0, 29.0];
    assert Overlay(TenZeros, 5, out) == [0.0, 0.0, 0.0, 0.0, 0.0, 25.0, 26.0, 27.0, 28.0, 29.0];
    TenYearsIsIndex();
    var pre := Built(TenZeros, 0);
    assert Prefill(10, 0.0, None) == Ok(pre) by {
      assert Filled(10, 0.0) == TenZeros;
    }
    assert Simulate(Custom(YearsSince2000), index, TenZeros, 5, 9) == Ok(out) by {
      assert YearsSince2000(index, TenZeros, 5, 9) == out;
    }
    WindowAtPositions(index, 0, Some(2025), None, 5, 9);
    SimulatedLine(index, 0.0, None, Custom(YearsSince2000), Some(2025), None, pre, Window(5, 9), out);
  }

  /** The column of the history [1, 2] over the default value 0. */
  const OneTwoThenZeros: seq<real> := [1.0, 2.0, 0.0, 0.0, 0.0, 0.0, 0.0, 0.0, 0.0, 0.0]

  lemma YearsAfterHistory(index: seq<int>)
    requires index == TenYears
    ensures YearsSince2000(index, OneTwoThenZeros, 2, 9) == [22.0, 23.0, 24.0, 25.0, 26.0, 27.0, 28.0, 29.0]
  {
  }

  /** test_line_method_simulation_happy_cases, two history values and no
      bounds: the simulation starts right after the history. */
  lemma LineSimulationAfterHistoryExample(index: seq<int>)
    requires index == TenYears
    ensures StrictlyIncreasing(index) && BuildLine(index, 0.0, Some([1.0, 2.0]), Some(Custom(YearsSince2000)), None, None)
         == Ok(Built([1.0, 2.0, 22.0, 23.0, 24.0, 25.0, 26.0, 27.0, 28.0, 29.0], 2))
  {
    var out := [22.0, 23.0, 24.0, 25.0, 26.0, 27.0, 28.0, 29.0];
    assert Overlay(OneTwoThenZeros, 2, out) == [1.0, 2.0, 22.0, 23.0, 24.0, 25.0, 26.0, 27.0, 28.0, 29.0];
    TenYearsIsIndex();
    var pre := Built(OneTwoThenZeros, 2);
    assert Prefill(10, 0.0, Some([1.0, 2.0])) == Ok(pre) by {
      assert Filled(10, 0.0) == TenZeros;
      assert Overlay(TenZeros, 0, [1.0, 2.0]) == OneTwoThenZeros;
    }
    assert Simulate(Custom(YearsSince2000), index, OneTwoThenZeros, 2, 9) == Ok(out) by {
      YearsAfterHistory(index);
    }
    DefaultWindowFollowsHistory(index, 2);
    SimulatedLine(index, 0.0, Some([1.0, 2.0]), Custom(YearsSince2000), None, None, pre, Window(2, 9), out);
  }

  /** A simulator that returns nothing, as in test_line_method_simulation_error_cases. */
  function NoValues(index: seq<int>, s: seq<real>, startPos: nat, endPos: nat): (r: seq<real>)
  {
    []
  }

  /** The pre-filled column of the error cases: no history, default 0. */
  lemma NoHistoryPrefill()
    ensures Prefill(10, 0.0, None) == Ok(Built(Filled(10, 0.0), 0))
  {
  }

  /** The first error case: the start key 2019 is not in the index. */
  lemma LineMissingStartExample(index: seq<int>)
    requires index == TenYears
    ensures StrictlyIncreasing(index) && BuildLine(index, 0.0, None, Some(Custom(NoValues)), Some(2019), None)
         == Err(KeyNotFound(2019))
  {
    TenYearsIsIndex();
    NoHistoryPrefill();
    assert 2019 !in TenYears;
    WindowErrorFails(index, 0.0, None, Custom(NoValues), Some(2019), None, Built(Filled(10, 0.0), 0));
  }

  /** The second error case: the end key 2019 is not in the index. */
  lemma LineMissingEndExample(index: seq<int>)
    requires index == TenYears
    ensures StrictlyIncreasing(index) && BuildLine(index, 0.0, None, Some(Custom(NoValues)), None, Some(2019))
         == Err(KeyNotFound(2019))
  {
    TenYearsIsIndex();
    NoHistoryPrefill();
    assert 2019 !in TenYears;
    WindowErrorFails(index, 0.0, None, Custom(NoValues), None, Some(2019), Built(Filled(10, 0.0), 0));
  }

  /** The third error case: the start key 2021 comes after the end key 2020. */
  lemma LineStartAfterEndExample(index: seq<int>)
    requires index == TenYears
    ensures StrictlyIncreasing(index) && BuildLine(index, 0.0, None, Some(Custom(NoValues)), Some(2021), Some(2020))
         == Err(StartAfterEnd(2021, 2020))
  {
    TenYearsIsIndex();
    NoHistoryPrefill();
    assert 2021 in TenYears && 2020 in TenYears;
    WindowErrorFails(index, 0.0, None, Custom(NoValues), Some(2021), Some(2020), Built(Filled(10, 0.0), 0));
  }

  /** The fourth error case: a simulator returning nothing over ten keys. */
  lemma LineEmptyResultExample(index: seq<int>)
    requires index == TenYears
    ensures StrictlyIncreasing(index) && BuildLine(index, 0.0, None, Some(Custom(NoValues)), None, None)
         == Err(LengthMismatch(10, 0))
  {
    TenYearsIsIndex();
    NoHistoryPrefill();
    DefaultWindowFollowsHistory(index, 0);
    WrongLengthFails(index, 0.0, None, Custom(NoValues), None, None, Built(Filled(10, 0.0), 0), Window(0, 9), []);
  }

  /** test_line_method_simulation_error_cases: 2019 is not a key, 2021 comes
      after 2020, and a simulator returning nothing has the wrong length. */
  lemma LineSimulationErrorExamples(index: seq<int>)
    requires index == TenYears
    ensures StrictlyIncreasing(index) && BuildLine(index, 0.0, None, Some(Custom(NoValues)), Some(2019), None)
         == Err(KeyNotFound(2019))
    ensures StrictlyIncreasing(index) && BuildLine(index, 0.0, None, Some(Custom(NoValues)), None, Some(2019))
         == Err(KeyNotFound(2019))
    ensures StrictlyIncreasing(index) && BuildLine(index, 0.0, None, Some(Custom(NoValues)), Some(2021), Some(2020))
         == Err(StartAfterEnd(2021, 2020))
    ensures StrictlyIncreasing(index) && BuildLine(index, 0.0, None, Some(Custom(NoValues)), None, None)
         == Err(LengthMismatch(10, 0))
  {
    LineMissingStartExample(index);
    LineMissingEndExample(index);
    LineStartAfterEndExample(index);
    LineEmptyResultExample(index);
  }

  /** `line(simulation=actualise(0.01))` with no history: the simulation
      starts at the first key, where `actualise` has no value to start from,
      and its error is the error of `line()`. */
  lemma LineActualiseWithoutAnchorExample(index: seq<int>)
    requires index == TenYears
    ensures StrictlyIncreasing(index) && BuildLine(index, 0.0, None, Some(Actualise(0.01, None, None)), None, None)
         == Err(NoAnchor)
  {
    TenYearsIsIndex();
    var pre := Built(Filled(10, 0.0), 0);
    assert Prefill(10, 0.0, None) == Ok(pre);
    DefaultWindowFollowsHistory(index, 0);
    assert Simulate(Actualise(0.01, None, None), index, pre.column, 0, 9) == Err(NoAnchor);
    SimulatorErrorFails(index, 0.0, None, Actualise(0.01, None, None), None, None, pre, Window(0, 9));
  }

  /** test_constructor_with_non_increasing_index_raises_error. */
  method AttachExamples()
  {
    var repeated := [1, 2, 4, 4, 10];
    assert repeated[2] == repeated[3];
    var r := Attach(repeated, map[]);
    assert r == Err(NonIncreasingIndex);
    var inverted := [1, 2, 4, 3, 10];
    assert inverted[2] > inverted[3];
    r := Attach(inverted, map[]);
    assert r == Err(NonIncreasingIndex);
    r := Attach([1, 2, 4, 5, 10], map[]);
    assert r.Ok?;
  }

  /** `BP("Test", 2020, 2029)`, a table over the index of the `line()` tests. */
  method TestPlan() returns (table: Table)
    ensures fresh(table) && table.Valid() && table.index == TenYears
    ensures table.lines == map[] && table.yearsOfHistory == map[] && table.maxHistoryLag == map[]
  {
    var bp := BP("Test", 2020, 2029);
    assert bp.Ok?;
    table := bp.value;
    TenYearsIsRange();
  }

  /** test_line_method_name_arg: a named line of zeros is registered with
      the default lag of 365 days. */
  method LineNameExample()
  {
    var table := TestPlan();
    TenYearsIsIndex();
    var line := table.Line("New line", 0.0, None, None, None, None, DefaultMaxHistoryLag);
    LineWithoutSimulator(TenYears, 0.0, None, None, None);
    assert line.Ok? && |line.value| == 10;
    assert forall i :: 0 <= i < 10 ==> line.value[i] == TenZeros[i];
    assert line.value == TenZeros;
    assert table.lines["New line"] == TenZeros;
    assert table.MaxHistoryLag("New line") == 365;
  }

  /** An unnamed line holds its default value and is not registered. */
  method LineUnnamedExample()
  {
    var table := TestPlan();
    TenYearsIsIndex();
    var line := table.Line("", 5.0, None, None, None, None, DefaultMaxHistoryLag);
    LineWithoutSimulator(TenYears, 5.0, None, None, None);
    assert line.Ok? && |line.value| == 10;
    var fives := [5.0, 5.0, 5.0, 5.0, 5.0, 5.0, 5.0, 5.0, 5.0, 5.0];
    assert forall i :: 0 <= i < 10 ==> line.value[i] == fives[i];
    assert line.value == fives;
    assert "" !in table.lines;
  }

  /** test_line_method_history_arg and test_line_method_max_history_lag_arg:
      a second line under the same name replaces the first and its metadata. */
  method LineHistoryExample()
  {
    var table := TestPlan();
    TenYearsIsIndex();
    var line := table.Line("New line", 0.0, None, None, None, None, DefaultMaxHistoryLag);
    var history := [1.0, 2.0, 3.0, 4.0];
    line := table.Line("New line", 0.0, Some(history), None, None, None, 100);
    LineWithoutSimulator(TenYears, 0.0, Some(history), None, None);
    assert line.Ok? && |line.value| == 10;
    var expected := [1.0, 2.0, 3.0, 4.0, 0.0, 0.0, 0.0, 0.0, 0.0, 0.0];
    assert forall i :: 0 <= i < 10 ==> line.value[i] == expected[i];
    assert line.value == expected;
    assert table.lines["New line"] == expected;
    assert table.YearsOfHistory("New line") == 4;
    assert table.MaxHistoryLag("New line") == 100;
  }

  /** A history longer than the index is refused and the table is unchanged. */
  method LineTooLongExample()
  {
    var table := TestPlan();
    TenYearsIsIndex();
    var tooLong := [1.0, 1.0, 1.0, 1.0, 1.0, 1.0, 1.0, 1.0, 1.0, 1.0, 1.0];
    var line := table.Line("Other", 0.0, Some(tooLong), None, None, None, 365);
    HistoryTooLongFails(TenYears, 0.0, tooLong, None, None, None);
    assert line == Err(HistoryTooLong(11, 10));
    assert table.lines == map[] && "Other" !in table.yearsOfHistory;
  }
}
