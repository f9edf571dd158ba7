# Business-plan lines, modelled in Dafny

This project models the core of the `business_plans` package
(`business_plans/bp.py`). A business plan is a pandas DataFrame with a `bp`
accessor. Its index is a strictly increasing sequence of keys, usually years.
Each column is a *line* of floats over that index.

`line()` builds a line in five steps:

1. fill the line with a default value;
2. copy a history prefix over the head of the line;
3. work out a simulation window between two keys;
4. let a *simulator* compute the values of that window;
5. when the line has a name, register it together with its number of history
   values and its maximum history lag.

The simulator factories `percent_of`, `actualise` and
`actualise_and_cumulate` produce the usual simulators. The module-level
`min`/`max` combine lines element-wise. `BP` creates an empty plan over a
range of years.

Modules:

- `Outcomes` (`outcomes.dfy`): `Option`, `Result` and the error kinds the
  source raises. The errors are `ValueError`, `KeyError`, `IndexError` and
  `ZeroDivisionError`, each distinguished by its cause.
- `Series` (`series.dfy`): the index and column primitives.
  - the strict-increase invariant and `get_loc` (`Pos`);
  - `range`, constant fill, slice assignment (`Overlay`) and `shift` with a
    zero fill;
  - element-wise `min` and `max`.
- `Simulators` (`simulators.dfy`): the three factories as functions of the
  window.
  - Each factory's captured arguments are a constructor of the `Simulator`
    datatype.
  - `Custom` stands for any caller-written simulator.
  - `RunActualiseAndCumulate` is the accumulator loop of
    `actualise_and_cumulate`, proved equal to its specification
    `CumulateWindow`.
- `Accessor` (`accessor.dfy`): `line()` as a pure specification
  (`Prefill`, `SimulationWindow`, `BuildLine`) and the `Table` class.
  - The class holds the index, the name, the line map and the two metadata
    maps.
  - `Table.Line` builds the column in an array, is proved against
    `BuildLine`, and updates the maps.
  - `Attach` is the accessor's constructor check; `BP` is the plan factory.
- `LineProperties` (`line_properties.dfy`): what `line()` promises for all
  inputs. This covers the history prefix, the window as the only part a
  simulator writes, the default window, and each error path, an error raised
  by the simulator itself included.
- `TestCases` (`test_cases.dfy`): the expected outputs of `tests/test_bp.py`,
  restated over the model.

Representation choices:

- Index keys are integers and values are exact reals.
- A window is the pair of positions of its first and last keys.
- A maximum history lag is an integer number of days; `timedelta(days=365)` is
  the default.
- Python truthiness is modelled where the source relies on it.
  - `simulate_from or ...`, `simulate_until or ...` and `if reference:` treat
    the key `0` like an omitted key (`TruthyKey`).
  - `if value:` treats `0.0` like an omitted value (`Truthy`).
  - The checks written `value is None` test for absence only.

Behaviours worth noting:

- **Default start when the history fills the index.** Without
  `simulate_from` the start key is `index[years_of_history]`
  (business_plans/bp.py:401), which is `index[0]` when no history is given
  (business_plans/bp.py:393). A history that fills the index therefore raises
  `IndexError` (`IndexOutOfRange` here).
- **`percent_of` never fails.** Shifted positions outside `s2` read 0
  (`shift(-shift, fill_value=0)`, business_plans/bp.py:655).

Behaviours that the docstrings or tests of `bp.py` describe differently; the
model follows the code:

- **Simulator arguments.** `line()` calls a simulator with four arguments,
  `(df, line, start key, end key)` (business_plans/bp.py:412). The tests call
  simulators with seven (tests/test_bp.py:176-183 and 236). The model gives a
  simulator the index, the line so far and the two window positions; the
  window keys follow from these, the DataFrame's other columns do not (see
  `Simulators.Custom` under "Left out").
- **A zero key or a zero value counts as omitted.** `simulate_from or ...`
  and `simulate_until or ...` (business_plans/bp.py:401, 404) test
  truthiness, while the docstring of `line()` (business_plans/bp.py:340-354)
  speaks of these arguments being "specified". Likewise `if value:` and
  `if reference:` (business_plans/bp.py:721, 727) test truthiness, while the
  docstring of `actualise` (business_plans/bp.py:686-712) speaks of `value`
  and `reference` being "specified" or "defaulted".
- **Name of the history-count query.** The accessor method is
  `years_of_history`. The tests call it `history_size`
  (tests/test_bp.py:159).

## Model

| member | source | states |
|---|---|---|
| Series.MonotonicIsSorted | business_plans/bp.py:247 | over a monotonic increasing index, every earlier key is at most every later key |
| Series.MonotonicUniqueIsStrict | business_plans/bp.py:247 | `is_monotonic_increasing and is_unique` holds exactly when the keys strictly increase |
| Series.Pos | business_plans/bp.py:410-411 | `get_loc` of a key of the index returns a position holding the key, and the key occurs at no earlier position |
| Series.PosIsOrderPreserving | business_plans/bp.py:407-411 | on a strictly increasing index, key order is position order, and equal keys have equal positions |
| Series.PosIsUnique | business_plans/bp.py:410-411 | on a strictly increasing index, the position holding a key is its `get_loc` |
| Series.Range | business_plans/bp.py:617 | `range(start, end + 1)` has `end + 1 - start` keys, the i-th being `start + i` |
| Series.RangeIsIndex | business_plans/bp.py:617 | a range strictly increases and contains exactly the integers from start to end |
| Series.Filled | business_plans/bp.py:391 | a Series built from a scalar has the index's length and that value everywhere |
| Series.Overlay | business_plans/bp.py:398 | slice assignment replaces exactly the positions `at .. at + len(part) - 1` with `part` and keeps every other value |
| Series.MinAt | business_plans/bp.py:557 | the column-wise minimum at a position is at most every line's value there and equals one of them |
| Series.MaxAt | business_plans/bp.py:565 | the column-wise maximum at a position is at least every line's value there and equals one of them |
| Series.Min | business_plans/bp.py:552-557 | `min(*line)` is empty for no lines; otherwise, at every position, it is a lower bound of the lines that one of them attains |
| Series.Max | business_plans/bp.py:560-565 | `max(*line)` is empty for no lines; otherwise, at every position, it is an upper bound of the lines that one of them attains |
| Simulators.Pow | business_plans/bp.py:736 | `b ** e` for an integer exponent is non-zero whenever the base is non-zero, and needs a non-zero base when `e` is negative |
| Simulators.PowStep | business_plans/bp.py:736 | raising the exponent by one multiplies by the base, for negative exponents as well |
| Simulators.PercentOfWindow | business_plans/bp.py:654-655 | `percent_of` returns one value per window key: the source line `shift` positions further on, times `percent`, or 0 beyond the source's ends |
| Simulators.ActualiseAnchor | business_plans/bp.py:721-726 | the anchor is `value` when truthy, otherwise the line's value just before the window |
| Simulators.ActualiseReference | business_plans/bp.py:727-735 | a truthy reference gives the position holding that key; otherwise the window start when `value` is truthy, else the position before it; only a reference key can lie after the window start |
| Simulators.ActualiseWindow | business_plans/bp.py:714-737 | `actualise` fails in the source's order: a reference without a value, then no value at the first position, then a zero value at the first position; a reference key missing from the index fails with `KeyNotFound` (the `KeyError` of `get_loc`); with `1 + percent == 0` and the reference after the window start, `0.0 ** negative` fails with `ZeroDivision`. It succeeds exactly when none of these applies, with one value per window key |
| Simulators.TermStep | business_plans/bp.py:736-737 | one more step of the exponent multiplies `anchor * growth ** e` by `growth`, and dividing by a non-zero `growth` steps back |
| Simulators.Compounded | business_plans/bp.py:736-737 | the geometric sequence has one value per requested position |
| Simulators.CompoundedGrows | business_plans/bp.py:736-737 | successive values of the geometric sequence differ by the factor `growth`, in both directions when it is non-zero |
| Simulators.ActualiseValueAt | business_plans/bp.py:721-737 | a successful `actualise` has an anchor (a truthy value or a previous position) and a reference in the index; each value is the anchor times `(1 + percent)` to the power of its distance from the reference position |
| Simulators.ActualiseGrows | business_plans/bp.py:736-737 | each `actualise` value is the previous one times `1 + percent`, and the previous one is the next divided by `1 + percent` whenever that factor is non-zero |
| Simulators.ActualiseHitsAnchor | business_plans/bp.py:721-737 | the value at the reference key is `value`; without a reference the first value is `value`; without either it is the value before the window times `1 + percent` |
| Simulators.ActualiseZeroValueIsOmitted | business_plans/bp.py:721-726 | without a reference and away from the first position, `value=0.0` gives the same result as an omitted value |
| Simulators.Cumulate | business_plans/bp.py:773-777 | the accumulator emits one value per addend |
| Simulators.CumulateFirst | business_plans/bp.py:773-777 | the first value is the seed plus the first addend, times the growth |
| Simulators.CumulateStep | business_plans/bp.py:773-777 | every later value is the previous value plus its addend, times the growth |
| Simulators.CumulateWithoutGrowth | business_plans/bp.py:773-777 | with growth 1 the k-th output is the seed plus the sum of the first k + 1 addends |
| Simulators.CumulateIsDetermined | business_plans/bp.py:773-777 | any sequence obeying the accumulator's recurrence from the same seed is the accumulator's output |
| Simulators.CumulateAgreesUpTo | business_plans/bp.py:773-777 | a sequence obeying the recurrence agrees with the accumulator at every position |
| Simulators.CumulateWindow | business_plans/bp.py:771-777 | `actualise_and_cumulate` returns one value per window key. The first is the line's and `s2`'s values before the window (0 at the first position) added and grown; each later one is the previous plus `s2` one position back, grown |
| Simulators.CumulateWindowRecurrence | business_plans/bp.py:771-777 | the accumulator over the window, read in terms of the line and `s2`: seeded by the values before the window, each step adds `s2` one position back |
| Simulators.CumulateWindowWithoutGrowth | business_plans/bp.py:771-777 | with `percent == 0` the k-th value is the line's value before the window plus the running sum of `s2` shifted by one |
| Simulators.RunActualiseAndCumulate | business_plans/bp.py:771-777 | the simulator's loop returns exactly the accumulator's specification |
| Simulators.Simulate | business_plans/bp.py:412 | each library simulator returns exactly one value per window key; `percent_of` and `actualise_and_cumulate` never fail |
| Simulators.RunSimulator | business_plans/bp.py:412 | calling a simulator, running the loop of `actualise_and_cumulate`, returns what `Simulate` specifies |
| Accessor.HistorySize | business_plans/bp.py:392-399 | the recorded history count is the history's length, and it is 0 exactly for no history or an empty one |
| Accessor.Prefill | business_plans/bp.py:390-399 | the line fails exactly when the history is longer than the index; otherwise it holds the history then the default value, and records the history's length (0 for none or empty) |
| Accessor.SimulationWindow | business_plans/bp.py:400-411 | the start is at `simulate_from`, or just after the history; the end is at `simulate_until`, or the last key; a history filling the index fails with `IndexOutOfRange` (IndexError), a missing start or end key with `KeyNotFound` (KeyError) naming that key, and a start after the end with `StartAfterEnd` (ValueError) |
| Accessor.PrefillIsOverlay | business_plans/bp.py:391-399 | the pre-filled line is the history written over a column of the default value, with the history's length recorded |
| Accessor.ApplySimulation | business_plans/bp.py:400-416 | a successful simulation step has a window and a simulator result of the window's length; the line holds that result inside the window and is unchanged outside it |
| Accessor.BuildLine | business_plans/bp.py:390-416 | a built line spans the index and records the history's length |
| Accessor.Table.YearsOfHistory | business_plans/bp.py:442 | the recorded history count for a registered name, 0 for an unregistered one, never more than the index's length |
| Accessor.Table.MaxHistoryLag | business_plans/bp.py:466 | the recorded lag, 365 days for an unregistered name |
| Accessor.Table.Line | business_plans/bp.py:389-421 | returns `BuildLine`'s column or error. On success with a non-empty name it registers the column, the history count and the lag; otherwise the table is unchanged |
| Accessor.ComputeLine | business_plans/bp.py:390-416 | building the column in an array gives exactly `BuildLine`'s result, errors included |
| Accessor.SimulateInPlace | business_plans/bp.py:400-416 | running the simulator on the array column gives `ApplySimulation`'s result, and on success leaves the array holding it; on an error the array is left untouched |
| Accessor.SimulateWindowInPlace | business_plans/bp.py:412-416 | over a known window, the simulator's error, or `LengthMismatch` with the expected and actual length, leaves the array untouched; a result of the right length is written over the window and nothing else changes |
| Accessor.NewColumn | business_plans/bp.py:391-398 | a fresh column of the default value with the history written over its head |
| Accessor.WriteWindow | business_plans/bp.py:416 | writes the simulator's values over the window and nothing else |
| Accessor.Table.constructor | business_plans/bp.py:250-255 | the accessor starts with the DataFrame's columns, no metadata and an empty name |
| Accessor.Attach | business_plans/bp.py:246-249 | the accessor exists exactly over a strictly increasing index; otherwise `ValueError` |
| Accessor.BP | business_plans/bp.py:615-619 | fails exactly when `end <= start`; otherwise an empty named plan over `range(start, end + 1)` |
| LineProperties.LineWithoutSimulator | business_plans/bp.py:390-399 | without a simulator the line fails exactly when the history is too long; otherwise it is the history followed by the default value |
| LineProperties.HistoryTooLongFails | business_plans/bp.py:395-397 | a history longer than the index fails whatever the other arguments |
| LineProperties.SimulatorWritesOnlyTheWindow | business_plans/bp.py:412-416 | a successful simulated line equals the simulator's output on the window and the history or default value elsewhere |
| LineProperties.WindowOverPrefill | business_plans/bp.py:391-398 | the window written over the pre-filled column holds the simulator's values inside the window and the history or default value elsewhere |
| LineProperties.SimulatedLine | business_plans/bp.py:390-416 | with a simulator the line is the pre-filled column with the simulator's values written over the window |
| LineProperties.WindowErrorFails | business_plans/bp.py:401-409 | a failure while working out the window is the failure of `line()` |
| LineProperties.SimulatorErrorFails | business_plans/bp.py:412 | an error raised by the simulator itself, such as one of `actualise`'s, is the error of `line()` |
| LineProperties.WrongLengthFails | business_plans/bp.py:413-415 | a simulator result of the wrong length fails with the expected and the actual length |
| LineProperties.DefaultWindowFollowsHistory | business_plans/bp.py:401-404 | without bounds the window runs from just after the history to the last key; a history filling the index has no start key |
| LineProperties.WindowAtPositions | business_plans/bp.py:400-411 | positions that satisfy the bound rules are exactly the window `line()` uses |
| LineProperties.FalsyBoundsAreOmitted | business_plans/bp.py:401-404 | the key 0 given as a bound behaves as an omitted bound |
| LineProperties.WindowSpansItsKeys | business_plans/bp.py:407-411 | the window's start key is at most its end key, and both positions are their keys' `get_loc` |
| TestCases.AttachExamples | tests/test_bp.py:95-102 | an index with a repeated key and one with a decreasing step are refused with `ValueError`; a strictly increasing one is accepted |
| TestCases.PercentOfExamples | tests/test_bp.py:225-236 | shifts 0, -1 and 1 give [1, 2, 3, 4], [0, 1, 2, 3] and [2, 3, 4, 0] |
| TestCases.PowersOfGrowth | business_plans/bp.py:736 | the powers of 1.01 used by the `actualise` examples |
| TestCases.ActualiseFromPreviousValueExample | tests/test_bp.py:239-251 | with no value and no reference, 2021 to 2025 compound the 2020 value 100 |
| TestCases.ActualiseFromValueExample | tests/test_bp.py:239-251 | the value 10 is compounded from 2021 |
| TestCases.ActualiseAgainstReferenceExample | tests/test_bp.py:239-251 | the value 10 at 2023 is discounted before 2023 and compounded after it |
| TestCases.ActualiseErrorExamples | tests/test_bp.py:254-265 | a window starting at the first key fails with no value, and with a reference but no value |
| TestCases.ActualiseAndCumulateExample | tests/test_bp.py:268-276 | the accumulator over [100, 200, 300, 400] at 1% gives [0, 101, 304.01, 610.0501] |
| TestCases.MinExample | tests/test_bp.py:213-216 | the element-wise min of [1, 2, 3], [2, 3, 1] and [3, 1, 2] is all ones |
| TestCases.MaxExample | tests/test_bp.py:219-222 | the element-wise max of the same three lines is all threes |
| TestCases.TenYearsIsIndex | tests/test_bp.py:185 | the ten years 2020..2029 form a strictly increasing index |
| TestCases.LineSimulationWholeIndexExample | tests/test_bp.py:163-189 | with no history and no bounds the whole line is simulated |
| TestCases.LineSimulationFromExample | tests/test_bp.py:163-189 | simulating from 2025 keeps the default value before the window |
| TestCases.LineSimulationBoundedExample | tests/test_bp.py:163-189 | simulating 2025..2028 keeps the default value outside the window |
| TestCases.LineSimulationAfterGapExample | tests/test_bp.py:163-189 | history [1, 2] and a start at 2025 leave the default value between them |
| TestCases.LineSimulationAfterHistoryExample | tests/test_bp.py:163-189 | with history [1, 2] and no bounds the simulation starts right after the history |
| TestCases.LineActualiseWithoutAnchorExample | business_plans/bp.py:719-720 | `line(simulation=actualise(0.01))` with no history fails with `actualise`'s own error: there is no value before the first key |
| TestCases.LineSimulationErrorExamples | tests/test_bp.py:191-205 | a missing start key, a missing end key, a start after the end and an empty simulator result each fail |
| TestCases.TestPlan | tests/test_bp.py:20-26 | the plan of the `line()` tests is an empty table over the years 2020 to 2029 |
| TestCases.LineNameExample | tests/test_bp.py:139-147 | a named line of zeros is registered with the default lag of 365 days |
| TestCases.LineUnnamedExample | tests/test_bp.py:149-152 | an unnamed line holds its default value 5 and is not registered |
| TestCases.LineHistoryExample | tests/test_bp.py:154-210 | a line with history [1, 2, 3, 4] and lag 100 replaces the earlier line of that name, with 4 history values |
| TestCases.LineTooLongExample | tests/test_bp.py:160-161 | eleven history values over ten keys fail and leave the table unchanged |

## Left out

- `report.py`, `compare_to_reference`, `index_to_datetime` and the date
  formatting helpers. They do reporting, file and date I/O and are not part of
  this model.
- The `index_format` and `assumptions` attributes. They are only carried
  along, and the assumption dataclasses (`UpdateLink`, `ExternalAssumption`,
  `HistoryBasedAssumption`) are outside the modelled core.
- `from_list`. tests/test_bp.py:18 imports `from_list`, which `bp.py` does
  not define, so there is nothing of it to model.
- Floating point. Values are exact reals, so IEEE rounding is left out. For
  example, the test expects `103.03010000000002` where the model has
  `103.0301`.
- pandas label alignment. Series captured by a simulator share
  the table's index (`Simulator.AlignedTo`), and `history` is a list; a Series
  history aligned by label is not modelled. `min` and `max` take lines of one
  length (`Series.Aligned`); `pd.DataFrame([*line])` over Series with
  different indexes, which takes the union of their labels and skips the
  resulting NaN, is not modelled.
- Datetime keys. Keys are integers. The `bp` fixture of the tests (ten
  yearly dates from 2020) is represented in `TestCases.TestPlan` by the
  years 2020 to 2029.
- Non-numeric history values (`TypeMismatch`). Every value is a real here.
- NaN handling of `min`/`max` (pandas skips NaN). No value is NaN here.
- Simulators.Custom: a caller simulator is a pure, total function of the
  index, the line so far and the window positions. A caller simulator that
  raises its own exception is not modelled. Neither is one that reads other
  columns of the DataFrame it is passed: here such columns must be captured
  by the caller when the simulator is built. Writes a simulator makes in place
  to the line or to the DataFrame, which persist in the returned and
  registered line, are not modelled either.
- The DataFrame itself. `Table` keeps the columns as a map from name to
  values and does not model column order or columns added by other code.
- Accessor.BuildLine: its own contract only gives the length and the history
  count; what the line holds is stated by the `LineProperties` lemmas about
  it.
