/** The `bp` accessor of a business plan: a table over a strictly increasing
    index, holding named lines and, per line, the number of history values
    and the maximum history lag; `line()` builds one line from a default
    value, a history prefix and a simulator. */
module Accessor {
  import opened Outcomes
  import opened Series
  import opened Simulators

  /** `timedelta(days=365)`, the default maximum history lag, in days. */
  const DefaultMaxHistoryLag: int := 365

  /** Positions of the first and last simulated keys, both inclusive. */
  datatype Window = Window(startPos: nat, endPos: nat)

  /** A built line and the number of history values at its head. */
  datatype Built = Built(column: seq<real>, historySize: nat)

  /** `years_of_history` as `line()` records it: 0 for no or empty history. */
  function HistorySize(history: Option<seq<real>>): (r: nat)
    ensures r == 0 <==> history.None? || history.value == []
    ensures history.Some? ==> r == |history.value|
  {
    if history.None? then 0 else |history.value|
  }

  /** Steps 1 and 2 of `line()`: fill with the default value, then copy the
      history over the head of the line. */
  function Prefill(n: nat, defaultValue: real, history: Option<seq<real>>): (r: Result<Built>)
    ensures r.Err? <==> history.Some? && |history.value| > n
    ensures r.Err? ==> r.error == HistoryTooLong(|history.value|, n)
    ensures r.Ok? ==> |r.value.column| == n && r.value.historySize == HistorySize(history) <= n
    ensures r.Ok? ==> forall i :: 0 <= i < n ==>
              r.value.column[i] == if i < HistorySize(history) then history.value[i] else defaultValue
  {
    if history.None? || |history.value| == 0 then Ok(Built(Filled(n, defaultValue), 0))
    else if |history.value| > n then Err(HistoryTooLong(|history.value|, n))
    else Ok(Built(Overlay(Filled(n, defaultValue), 0, history.value), |history.value|))
  }

  /** The history copied over a column of the default value, as `NewColumn`
      builds it, is what `Prefill` specifies. */
  lemma PrefillIsOverlay(n: nat, defaultValue: real, history: Option<seq<real>>)
    requires HistorySize(history) <= n
    ensures var values := if history.Some? then history.value else [];
            Prefill(n, defaultValue, history) == Ok(Built(Overlay(Filled(n, defaultValue), 0, values), |values|))
  {
    var values := if history.Some? then history.value else [];
    if |values| == 0 {
      assert Overlay(Filled(n, defaultValue), 0, values) == Filled(n, defaultValue);
    }
  }

  /** Step 3 of `line()`: the simulation window. The start key is
      `simulate_from or index[years_of_history]`, the end key
      `simulate_until or index[-1]`; both must be keys of the index and the
      start must not come after the end. */
  function SimulationWindow(index: seq<int>, historySize: nat,
                            simulateFrom: Option<int>, simulateUntil: Option<int>): (r: Result<Window>)
    requires StrictlyIncreasing(index)
    ensures r.Ok? ==> r.value.startPos <= r.value.endPos < |index|
    ensures r.Ok? && TruthyKey(simulateFrom) ==> index[r.value.startPos] == simulateFrom.value
    ensures r.Ok? && !TruthyKey(simulateFrom) ==> r.value.startPos == historySize
    ensures r.Ok? && TruthyKey(simulateUntil) ==> index[r.value.endPos] == simulateUntil.value
    ensures r.Ok? && !TruthyKey(simulateUntil) ==> r.value.endPos == |index| - 1
    ensures !TruthyKey(simulateFrom) && historySize >= |index| ==> r == Err(IndexOutOfRange(historySize))
    ensures TruthyKey(simulateFrom) && simulateFrom.value !in index ==> r == Err(KeyNotFound(simulateFrom.value))
    ensures TruthyKey(simulateUntil) && simulateUntil.value !in index ==> r.Err?
    ensures TruthyKey(simulateFrom) && TruthyKey(simulateUntil) && simulateFrom.value > simulateUntil.value ==> r.Err?
    ensures && (TruthyKey(simulateFrom) ==> simulateFrom.value in index)
            && (!TruthyKey(simulateFrom) ==> historySize < |index|)
            && TruthyKey(simulateUntil) && simulateUntil.value !in index
            ==> r == Err(KeyNotFound(simulateUntil.value))
    ensures 0 < |index| && (TruthyKey(simulateFrom) || historySize < |index|) ==>
              (var start := if TruthyKey(simulateFrom) then simulateFrom.value else index[historySize];
               var end := if TruthyKey(simulateUntil) then simulateUntil.value else index[|index| - 1];
               start in index && end in index && start > end ==> r == Err(StartAfterEnd(start, end)))
  {
    if !TruthyKey(simulateFrom) && historySize >= |index| then Err(IndexOutOfRange(historySize))
    else
      var start := if TruthyKey(simulateFrom) then simulateFrom.value else index[historySize];
      if start !in index then Err(KeyNotFound(start))
      else
        var end := if TruthyKey(simulateUntil) then simulateUntil.value else index[|index| - 1];
        if end !in index then Err(KeyNotFound(end))
        else if !(start <= end) then Err(StartAfterEnd(start, end))
        else
          PosIsOrderPreserving(index, start, end);
          PosIsUnique(index, index[|index| - 1], |index| - 1);
          assert !TruthyKey(simulateFrom) ==> Pos(index, start) == historySize by {
            if !TruthyKey(simulateFrom) {
              PosIsUnique(index, start, historySize);
            }
          }
          Ok(Window(Pos(index, start), Pos(index, end)))
  }

  /** Step 4 of `line()` on the pre-filled column: the simulator's values
      written over the window, or the error of the window, of the simulator or
      of a result of the wrong length. Outside the window the column is kept. */
  function ApplySimulation(index: seq<int>, column: seq<real>, historySize: nat, sim: Simulator,
                           simulateFrom: Option<int>, simulateUntil: Option<int>): (r: Result<seq<real>>)
    requires StrictlyIncreasing(index)
    requires |column| == |index| && sim.AlignedTo(|index|)
    ensures r.Ok? ==> |r.value| == |index|
    ensures r.Ok? ==>
              && SimulationWindow(index, historySize, simulateFrom, simulateUntil).Ok?
              && (var w := SimulationWindow(index, historySize, simulateFrom, simulateUntil).value;
                  && (forall i :: 0 <= i < |index| && !(w.startPos <= i <= w.endPos) ==> r.value[i] == column[i])
                  && Simulate(sim, index, column, w.startPos, w.endPos).Ok?
                  && |Simulate(sim, index, column, w.startPos, w.endPos).value| == w.endPos - w.startPos + 1
                  && (forall k :: 0 <= k <= w.endPos - w.startPos ==>
                        r.value[w.startPos + k] == Simulate(sim, index, column, w.startPos, w.endPos).value[k]))
  {
    var w :- SimulationWindow(index, historySize, simulateFrom, simulateUntil);
    var out :- Simulate(sim, index, column, w.startPos, w.endPos);
    if |out| != w.endPos - w.startPos + 1 then Err(LengthMismatch(w.endPos - w.startPos + 1, |out|))
    else Ok(Overlay(column, w.startPos, out))
  }

  /** What `line()` computes, errors included: steps 1 to 4 without the
      registration of step 5. */
  function BuildLine(index: seq<int>, defaultValue: real, history: Option<seq<real>>,
                     simulation: Option<Simulator>, simulateFrom: Option<int>, simulateUntil: Option<int>): (r: Result<Built>)
    requires StrictlyIncreasing(index)
    requires simulation.Some? ==> simulation.value.AlignedTo(|index|)
    ensures r.Ok? ==> |r.value.column| == |index| && r.value.historySize == HistorySize(history) <= |index|
  {
    var pre :- Prefill(|index|, defaultValue, history);
    if simulation.None? then Ok(pre)
    else
      var column :- ApplySimulation(index, pre.column, pre.historySize, simulation.value, simulateFrom, simulateUntil);
      Ok(Built(column, pre.historySize))
  }

  /** The business-plan table: the DataFrame's index and columns plus the
      accessor's metadata maps. */
  class Table {
    const index: seq<int>
    var name: string
    var lines: map<string, seq<real>>
    var yearsOfHistory: map<string, nat>
    var maxHistoryLag: map<string, int>

    /** The index strictly increases, every line spans it, and metadata
        exists exactly for the lines registered by `Line`. */
    ghost predicate Valid()
      reads this
    {
      && StrictlyIncreasing(index)
      && (forall n :: n in lines ==> |lines[n]| == |index|)
      && yearsOfHistory.Keys == maxHistoryLag.Keys
      && yearsOfHistory.Keys <= lines.Keys
      && (forall n :: n in yearsOfHistory ==> yearsOfHistory[n] <= |index|)
    }

    /** The accessor over a DataFrame whose index passed the check. */
    constructor (index: seq<int>, columns: map<string, seq<real>>)
      requires StrictlyIncreasing(index)
      requires forall n :: n in columns ==> |columns[n]| == |index|
      ensures Valid()
      ensures this.index == index && lines == columns && name == ""
      ensures yearsOfHistory == map[] && maxHistoryLag == map[]
    {
      this.index := index;
      name := "";
      lines := columns;
      yearsOfHistory := map[];
      maxHistoryLag := map[];
    }

    /** `years_of_history(name)`: the history count recorded for a line, 0
        for a name never registered. */
    function YearsOfHistory(name: string): (r: nat)
      reads this
      requires Valid()
      ensures r <= |index|
      ensures name in yearsOfHistory ==> r == yearsOfHistory[name]
      ensures name !in yearsOfHistory ==> r == 0
    {
      if name in yearsOfHistory then yearsOfHistory[name] else 0
    }

    /** `max_history_lag(name)`: the lag recorded for a line, 365 days for a
        name never registered. */
    function MaxHistoryLag(name: string): (r: int)
      reads this
      ensures name in maxHistoryLag ==> r == maxHistoryLag[name]
      ensures name !in maxHistoryLag ==> r == DefaultMaxHistoryLag
    {
      if name in maxHistoryLag then maxHistoryLag[name] else DefaultMaxHistoryLag
    }

    /** `line()`: builds a line over the index in a fresh column and, when
        `name` is non-empty, registers it with its metadata. A failing call
        changes nothing. */
    method Line(name: string, defaultValue: real, history: Option<seq<real>>, simulation: Option<Simulator>,
                simulateFrom: Option<int>, simulateUntil: Option<int>, maxLag: int)
      returns (r: Result<seq<real>>)
      requires Valid()
      requires simulation.Some? ==> simulation.value.AlignedTo(|index|)
      modifies this
      ensures Valid()
      ensures var spec := BuildLine(index, defaultValue, history, simulation, simulateFrom, simulateUntil);
              && (r.Ok? <==> spec.Ok?)
              && (r.Ok? ==> r.value == spec.value.column)
              && (r.Err? ==> r.error == spec.error)
      ensures r.Ok? && name != "" ==>
              && lines == old(lines)[name := r.value]
              && yearsOfHistory == old(yearsOfHistory)[name := HistorySize(history)]
              && maxHistoryLag == old(maxHistoryLag)[name := maxLag]
      ensures !(r.Ok? && name != "") ==>
              lines == old(lines) && yearsOfHistory == old(yearsOfHistory) && maxHistoryLag == old(maxHistoryLag)
      ensures this.name == old(this.name)
    {
      var built := ComputeLine(index, defaultValue, history, simulation, simulateFrom, simulateUntil);
      if built.Err? {
        return Err(built.error);
      }
      r := Ok(built.value.column);
      if name != "" {
        lines := lines[name := built.value.column];
        yearsOfHistory := yearsOfHistory[name := built.value.historySize];
        maxHistoryLag := maxHistoryLag[name := maxLag];
      }
    }
  }

  /** Steps 1 to 4 of `line()`: the column built in an array, with the
      history count, or the error the source raises. */
  method ComputeLine(index: seq<int>, defaultValue: real, history: Option<seq<real>>, simulation: Option<Simulator>,
                     simulateFrom: Option<int>, simulateUntil: Option<int>)
    returns (r: Result<Built>)
    requires StrictlyIncreasing(index)
    requires simulation.Some? ==> simulation.value.AlignedTo(|index|)
    ensures r == BuildLine(index, defaultValue, history, simulation, simulateFrom, simulateUntil)
  {
    var values := if history.Some? then history.value else [];
    if |values| > |index| {
      return Err(HistoryTooLong(|values|, |index|));
    }
    var historySize: nat := |values|;
    var column := NewColumn(|index|, defaultValue, values);
    var prefilled := column[..];
    PrefillIsOverlay(|index|, defaultValue, history);
    if simulation.None? {
      return Ok(Built(prefilled, historySize));
    }
    var simulated := SimulateInPlace(column, index, historySize, simulation.value, simulateFrom, simulateUntil);
    if simulated.Err? {
      return Err(simulated.error);
    }
    r := Ok(Built(simulated.value, historySize));
  }

  /** Step 4 of `line()` in place: runs the simulator on the column and
      writes its values over the window. */
  method SimulateInPlace(column: array<real>, index: seq<int>, historySize: nat, sim: Simulator,
                         simulateFrom: Option<int>, simulateUntil: Option<int>)
    returns (r: Result<seq<real>>)
    requires StrictlyIncreasing(index)
    requires column.Length == |index| && sim.AlignedTo(|index|)
    modifies column
    ensures r == ApplySimulation(index, old(column[..]), historySize, sim, simulateFrom, simulateUntil)
    ensures r.Ok? ==> column[..] == r.value
    ensures r.Err? ==> unchanged(column)
  {
    var window := SimulationWindow(index, historySize, simulateFrom, simulateUntil);
    if window.Err? {
      return Err(window.error);
    }
    r := SimulateWindowInPlace(column, index, sim, window.value);
  }

  /** Step 4 of `line()` over a known window: run the simulator on the
      column, check the length of its result and write it over the window.
      On an error the column is left as it was. */
  method SimulateWindowInPlace(column: array<real>, index: seq<int>, sim: Simulator, w: Window)
    returns (r: Result<seq<real>>)
    requires column.Length == |index| && sim.AlignedTo(|index|)
    requires w.startPos <= w.endPos < |index|
    modifies column
    ensures var sim' := Simulate(sim, index, old(column[..]), w.startPos, w.endPos);
            && (sim'.Err? ==> r == Err(sim'.error))
            && (sim'.Ok? && |sim'.value| != w.endPos - w.startPos + 1 ==>
                  r == Err(LengthMismatch(w.endPos - w.startPos + 1, |sim'.value|)))
            && (sim'.Ok? && |sim'.value| == w.endPos - w.startPos + 1 ==>
                  r == Ok(Overlay(old(column[..]), w.startPos, sim'.value)))
    ensures r.Ok? ==> column[..] == r.value
    ensures r.Err? ==> unchanged(column)
  {
    var result := RunSimulator(sim, index, column[..], w.startPos, w.endPos);
    if result.Err? {
      return Err(result.error);
    }
    var out := result.value;
    if |out| != w.endPos - w.startPos + 1 {
      return Err(LengthMismatch(w.endPos - w.startPos + 1, |out|));
    }
    WriteWindow(column, w.startPos, out);
    r := Ok(column[..]);
  }

  /** Steps 1 and 2 of `line()` in place: a fresh column of the default value
      whose head is overwritten by the history values. */
  method NewColumn(n: nat, defaultValue: real, values: seq<real>) returns (column: array<real>)
    requires |values| <= n
    ensures fresh(column)
    ensures column[..] == Overlay(Filled(n, defaultValue), 0, values)
  {
    column := new real[n](_ => defaultValue);
    for i := 0 to |values|
      invariant forall j :: 0 <= j < n ==> column[j] == if j < i then values[j] else defaultValue
    {
      column[i] := values[i];
    }
  }

  /** `line.loc[start:end] = result`: overwrite the window, starting at
      position `at`, and nothing else. */
  method WriteWindow(column: array<real>, at: nat, out: seq<real>)
    requires at + |out| <= column.Length
    modifies column
    ensures column[..] == Overlay(old(column[..]), at, out)
  {
    for k := 0 to |out|
      invariant forall j :: 0 <= j < column.Length ==>
                  column[j] == if at <= j < at + k then out[j - at] else old(column[j])
    {
      column[at + k] := out[k];
    }
  }

  /** `BPAccessor.__init__`: the accessor exists only over an index that is
      monotonic increasing and unique. */
  method Attach(index: seq<int>, columns: map<string, seq<real>>) returns (r: Result<Table>)
    requires forall n :: n in columns ==> |columns[n]| == |index|
    ensures r.Err? <==> !StrictlyIncreasing(index)
    ensures r.Err? ==> r.error == NonIncreasingIndex
    ensures r.Ok? ==> fresh(r.value) && r.value.Valid() && r.value.index == index && r.value.lines == columns
    ensures r.Ok? ==> r.value.yearsOfHistory == map[] && r.value.maxHistoryLag == map[] && r.value.name == ""
  {
    MonotonicUniqueIsStrict(index);
    if !(IsMonotonicIncreasing(index) && IsUnique(index)) {
      return Err(NonIncreasingIndex);
    }
    var table := new Table(index, columns);
    return Ok(table);
  }

  /** `BP(name, start, end)`: a named business plan indexed by the years
      `start..end`, both included; `end` must come after `start`. */
  method BP(name: string, start: int, end: int) returns (r: Result<Table>)
    ensures r.Err? <==> end <= start
    ensures r.Err? ==> r.error == EndNotAfterStart
    ensures r.Ok? ==> fresh(r.value) && r.value.Valid() && r.value.name == name && r.value.lines == map[]
    ensures r.Ok? ==> r.value.index == Range(start, end + 1)
    ensures r.Ok? ==> r.value.yearsOfHistory == map[] && r.value.maxHistoryLag == map[]
  {
    if end <= start {
      return Err(EndNotAfterStart);
    }
    RangeIsIndex(start, end + 1);
    var table := new Table(Range(start, end + 1), map[]);
    table.name := name;
    return Ok(table);
  }
}
