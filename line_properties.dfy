/** What `line()` promises about the column it builds: the history prefix,
    the default elsewhere, the simulation window as the only part a
    simulator writes, and the errors it raises. */
module LineProperties {
  import opened Outcomes
  import opened Series
  import opened Simulators
  import opened Accessor

  /** Without a simulator the line is the history followed by the default
      value, and it fails exactly when the history is longer than the index. */
  lemma LineWithoutSimulator(index: seq<int>, defaultValue: real, history: Option<seq<real>>,
                             simulateFrom: Option<int>, simulateUntil: Option<int>)
    requires StrictlyIncreasing(index)
    ensures var r := BuildLine(index, defaultValue, history, None, simulateFrom, simulateUntil);
            && (r.Ok? <==> HistorySize(history) <= |index|)
            && (r.Ok? ==> r.value.historySize == HistorySize(history))
            && (r.Ok? ==> forall i :: 0 <= i < |index| ==>
                  r.value.column[i] == if i < HistorySize(history) then history.value[i] else defaultValue)
  {
  }

  /** A history longer than the index fails before anything else is looked
      at, whatever the simulator and window arguments. */
  lemma HistoryTooLongFails(index: seq<int>, defaultValue: real, values: seq<real>,
                            simulation: Option<Simulator>, simulateFrom: Option<int>, simulateUntil: Option<int>)
    requires StrictlyIncreasing(index)
    requires simulation.Some? ==> simulation.value.AlignedTo(|index|)
    requires |values| > |index|
    ensures BuildLine(index, defaultValue, Some(values), simulation, simulateFrom, simulateUntil)
         == Err(HistoryTooLong(|values|, |index|))
  {
  }

  /** With a simulator, a successful line equals the simulator's result on
      the window and keeps its history or default value everywhere else. */
  lemma SimulatorWritesOnlyTheWindow(index: seq<int>, defaultValue: real, history: Option<seq<real>>,
                                     sim: Simulator, simulateFrom: Option<int>, simulateUntil: Option<int>)
    requires StrictlyIncreasing(index)
    requires sim.AlignedTo(|index|)
    requires BuildLine(index, defaultValue, history, Some(sim), simulateFrom, simulateUntil).Ok?
    ensures var pre := Prefill(|index|, defaultValue, history).value;
            var w := SimulationWindow(index, pre.historySize, simulateFrom, simulateUntil).value;
            var out := Simulate(sim, index, pre.column, w.startPos, w.endPos).value;
            var column := BuildLine(index, defaultValue, history, Some(sim), simulateFrom, simulateUntil).value.column;
            && |out| == w.endPos - w.startPos + 1
            && (forall i :: w.startPos <= i <= w.endPos ==> column[i] == out[i - w.startPos])
            && (forall i :: 0 <= i < |index| && !(w.startPos <= i <= w.endPos) ==>
                  column[i] == if i < HistorySize(history) then history.value[i] else defaultValue)
  {
    var pre := Prefill(|index|, defaultValue, history).value;
    var applied := ApplySimulation(index, pre.column, pre.historySize, sim, simulateFrom, simulateUntil);
    assert applied.Ok?;
    var w := SimulationWindow(index, pre.historySize, simulateFrom, simulateUntil).value;
    var out := Simulate(sim, index, pre.column, w.startPos, w.endPos).value;
    assert |out| == w.endPos - w.startPos + 1;
    SimulatedLine(index, defaultValue, history, sim, simulateFrom, simulateUntil, pre, w, out);
    WindowOverPrefill(|index|, defaultValue, history, pre, w, out);
  }

  /** The window written over the pre-filled column, read position by position. */
  lemma WindowOverPrefill(n: nat, defaultValue: real, history: Option<seq<real>>, pre: Built, w: Window, out: seq<real>)
    requires Prefill(n, defaultValue, history) == Ok(pre)
    requires w.startPos <= w.endPos < n && |out| == w.endPos - w.startPos + 1
    ensures var column := Overlay(pre.column, w.startPos, out);
            && (forall i :: w.startPos <= i <= w.endPos ==> column[i] == out[i - w.startPos])
            && (forall i :: 0 <= i < n && !(w.startPos <= i <= w.endPos) ==>
                  column[i] == if i < HistorySize(history) then history.value[i] else defaultValue)
  {
    var column := Overlay(pre.column, w.startPos, out);
    forall i | 0 <= i < n && !(w.startPos <= i <= w.endPos)
      ensures column[i] == if i < HistorySize(history) then history.value[i] else defaultValue
    {
      assert column[i] == pre.column[i];
    }
  }

  /** With a simulator, `line()` is the history-and-default column with the
      simulator's result written over the window. */
  lemma SimulatedLine(index: seq<int>, defaultValue: real, history: Option<seq<real>>,
                      sim: Simulator, simulateFrom: Option<int>, simulateUntil: Option<int>,
                      pre: Built, w: Window, out: seq<real>)
    requires StrictlyIncreasing(index)
    requires sim.AlignedTo(|index|)
    requires Prefill(|index|, defaultValue, history) == Ok(pre)
    requires SimulationWindow(index, pre.historySize, simulateFrom, simulateUntil) == Ok(w)
    requires Simulate(sim, index, pre.column, w.startPos, w.endPos) == Ok(out)
    requires |out| == w.endPos - w.startPos + 1
    ensures BuildLine(index, defaultValue, history, Some(sim), simulateFrom, simulateUntil)
         == Ok(Built(Overlay(pre.column, w.startPos, out), pre.historySize))
  {
  }

  /** An error while working out the window is the error of the call. */
  lemma WindowErrorFails(index: seq<int>, defaultValue: real, history: Option<seq<real>>,
                         sim: Simulator, simulateFrom: Option<int>, simulateUntil: Option<int>, pre: Built)
    requires StrictlyIncreasing(index)
    requires sim.AlignedTo(|index|)
    requires Prefill(|index|, defaultValue, history) == Ok(pre)
    requires SimulationWindow(index, pre.historySize, simulateFrom, simulateUntil).Err?
    ensures BuildLine(index, defaultValue, history, Some(sim), simulateFrom, simulateUntil)
         == Err(SimulationWindow(index, pre.historySize, simulateFrom, simulateUntil).error)
  {
  }

  /** A simulator result whose length is not the window's fails the call. */
  lemma WrongLengthFails(index: seq<int>, defaultValue: real, history: Option<seq<real>>,
                         sim: Simulator, simulateFrom: Option<int>, simulateUntil: Option<int>,
                         pre: Built, w: Window, out: seq<real>)
    requires StrictlyIncreasing(index)
    requires sim.AlignedTo(|index|)
    requires Prefill(|index|, defaultValue, history) == Ok(pre)
    requires SimulationWindow(index, pre.historySize, simulateFrom, simulateUntil) == Ok(w)
    requires Simulate(sim, index, pre.column, w.startPos, w.endPos) == Ok(out)
    requires |out| != w.endPos - w.startPos + 1
    ensures BuildLine(index, defaultValue, history, Some(sim), simulateFrom, simulateUntil)
         == Err(LengthMismatch(w.endPos - w.startPos + 1, |out|))
  {
  }

  /** An error the simulator raises itself propagates out of the call. */
  lemma SimulatorErrorFails(index: seq<int>, defaultValue: real, history: Option<seq<real>>,
                            sim: Simulator, simulateFrom: Option<int>, simulateUntil: Option<int>,
                            pre: Built, w: Window)
    requires StrictlyIncreasing(index)
    requires sim.AlignedTo(|index|)
    requires Prefill(|index|, defaultValue, history) == Ok(pre)
    requires SimulationWindow(index, pre.historySize, simulateFrom, simulateUntil) == Ok(w)
    requires Simulate(sim, index, pre.column, w.startPos, w.endPos).Err?
    ensures BuildLine(index, defaultValue, history, Some(sim), simulateFrom, simulateUntil)
         == Err(Simulate(sim, index, pre.column, w.startPos, w.endPos).error)
  {
  }

  /** Without bounds the window runs from just after the history to the last
      key; when the history fills the index there is no start key. */
  lemma DefaultWindowFollowsHistory(index: seq<int>, historySize: nat)
    requires StrictlyIncreasing(index)
    ensures historySize < |index| ==> SimulationWindow(index, historySize, None, None) == Ok(Window(historySize, |index| - 1))
    ensures historySize >= |index| ==> SimulationWindow(index, historySize, None, None) == Err(IndexOutOfRange(historySize))
  {
    if historySize < |index| {
      var w := SimulationWindow(index, historySize, None, None);
      assert index[historySize] <= index[|index| - 1] by {
        if historySize < |index| - 1 {
          assert index[historySize] < index[|index| - 1];
        }
      }
      assert w.Ok?;
    }
  }

  /** Conversely, positions that satisfy the bound rules are the window: the
      start at the given key (or just after the history), the end at the
      given key (or the last key), the start not after the end. */
  lemma WindowAtPositions(index: seq<int>, historySize: nat, simulateFrom: Option<int>, simulateUntil: Option<int>,
                          startPos: nat, endPos: nat)
    requires StrictlyIncreasing(index)
    requires startPos <= endPos < |index|
    requires if TruthyKey(simulateFrom) then index[startPos] == simulateFrom.value else startPos == historySize
    requires if TruthyKey(simulateUntil) then index[endPos] == simulateUntil.value else endPos == |index| - 1
    ensures SimulationWindow(index, historySize, simulateFrom, simulateUntil) == Ok(Window(startPos, endPos))
  {
    PosIsUnique(index, index[startPos], startPos);
    PosIsUnique(index, index[endPos], endPos);
    assert index[startPos] <= index[endPos] by {
      if startPos < endPos {
        assert index[startPos] < index[endPos];
      }
    }
  }

  /** The key 0 given as a bound is falsy and so behaves as an omitted bound. */
  lemma FalsyBoundsAreOmitted(index: seq<int>, historySize: nat, simulateFrom: Option<int>, simulateUntil: Option<int>)
    requires StrictlyIncreasing(index)
    ensures SimulationWindow(index, historySize, Some(0), simulateUntil) == SimulationWindow(index, historySize, None, simulateUntil)
    ensures SimulationWindow(index, historySize, simulateFrom, Some(0)) == SimulationWindow(index, historySize, simulateFrom, None)
  {
  }

  /** The window covers `pos(end) - pos(start) + 1` positions between its
      two keys, in index order. */
  lemma WindowSpansItsKeys(index: seq<int>, historySize: nat, simulateFrom: Option<int>, simulateUntil: Option<int>)
    requires StrictlyIncreasing(index)
    requires SimulationWindow(index, historySize, simulateFrom, simulateUntil).Ok?
    ensures var w := SimulationWindow(index, historySize, simulateFrom, simulateUntil).value;
            && index[w.startPos] <= index[w.endPos]
            && w.startPos == Pos(index, index[w.startPos])
            && w.endPos == Pos(index, index[w.endPos])
  {
    var w := SimulationWindow(index, historySize, simulateFrom, simulateUntil).value;
    PosIsUnique(index, index[w.startPos], w.startPos);
    PosIsUnique(index, index[w.endPos], w.endPos);
  }
}
