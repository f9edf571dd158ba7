/** Index keys and the column primitives the engine is built from: key to
    position lookup, constant fill, slice assignment, shift with a zero fill,
    and the element-wise minimum and maximum of aligned columns. */
module Series {

  /** The invariant of every business-plan index: keys strictly increase. */
  predicate StrictlyIncreasing(index: seq<int>) {
    forall i, j :: 0 <= i < j < |index| ==> index[i] < index[j]
  }

  /** pandas' `is_monotonic_increasing`: every key is at most its successor. */
  predicate IsMonotonicIncreasing(index: seq<int>) {
    forall i :: 0 <= i < |index| - 1 ==> index[i] <= index[i + 1]
  }

  /** pandas' `is_unique`: no key occurs twice. */
  predicate IsUnique(index: seq<int>) {
    forall i, j :: 0 <= i < j < |index| ==> index[i] != index[j]
  }

  lemma {:induction false} MonotonicIsSorted(index: seq<int>, i: nat, j: nat)
    requires IsMonotonicIncreasing(index)
    requires i <= j < |index|
    ensures index[i] <= index[j]
    decreases j - i
  {
    if i < j {
      MonotonicIsSorted(index, i + 1, j);
    }
  }

  /** The accessor's check (monotonic and unique) is exactly strict increase. */
  lemma MonotonicUniqueIsStrict(index: seq<int>)
    ensures IsMonotonicIncreasing(index) && IsUnique(index) <==> StrictlyIncreasing(index)
  {
    if IsMonotonicIncreasing(index) && IsUnique(index) {
      forall i, j | 0 <= i < j < |index|
        ensures index[i] < index[j]
      {
        MonotonicIsSorted(index, i, j);
      }
    }
  }

  /** `index.get_loc(key)`: the position of a key of the index. */
  function Pos(index: seq<int>, key: int): (p: nat)
    requires key in index
    ensures p < |index| && index[p] == key
    ensures key !in index[..p]
  {
    if index[0] == key then 0
    else
      var p := 1 + Pos(index[1..], key);
      assert index[..p] == [index[0]] + index[1..][..p - 1];
      p
  }

  /** Over a strictly increasing index, `Pos` is the only position holding
      the key, and comparing keys is comparing their positions. */
  lemma PosIsOrderPreserving(index: seq<int>, a: int, b: int)
    requires StrictlyIncreasing(index)
    requires a in index && b in index
    ensures a <= b <==> Pos(index, a) <= Pos(index, b)
    ensures a == b <==> Pos(index, a) == Pos(index, b)
  {
  }

  lemma PosIsUnique(index: seq<int>, key: int, p: nat)
    requires StrictlyIncreasing(index)
    requires p < |index| && index[p] == key
    ensures Pos(index, key) == p
  {
  }

  /** `range(start, stop)`: consecutive integers from start, stop excluded. */
  function Range(start: int, stop: int): (r: seq<int>)
    ensures |r| == if start <= stop then stop - start else 0
    ensures forall i :: 0 <= i < |r| ==> r[i] == start + i
    decreases stop - start
  {
    if start < stop then [start] + Range(start + 1, stop) else []
  }

  lemma RangeIsIndex(start: int, stop: int)
    ensures StrictlyIncreasing(Range(start, stop))
    ensures forall k :: k in Range(start, stop) <==> start <= k < stop
  {
    var r := Range(start, stop);
    forall k | start <= k < stop
      ensures k in r
    {
      assert r[k - start] == k;
    }
  }

  /** A column of `n` copies of `value`. */
  function Filled(n: nat, value: real): (r: seq<real>)
    ensures |r| == n
    ensures forall i :: 0 <= i < n ==> r[i] == value
  {
    seq(n, _ => value)
  }

  /** Slice assignment `base[at:at + len(part)] = part`. */
  function Overlay(base: seq<real>, at: nat, part: seq<real>): (r: seq<real>)
    requires at + |part| <= |base|
    ensures |r| == |base|
    ensures forall i :: 0 <= i < |r| ==> r[i] == if at <= i < at + |part| then part[i - at] else base[i]
  {
    base[..at] + part + base[at + |part|..]
  }

  /** `s.shift(n, fill_value=0)`: position i takes the value at i - n, or 0. */
  function Shift(s: seq<real>, n: int): (r: seq<real>)
    ensures |r| == |s|
  {
    seq(|s|, i requires 0 <= i < |s| => if 0 <= i - n < |s| then s[i - n] else 0.0)
  }

  /** Sum of a column. */
  function Sum(s: seq<real>): (r: real)
  {
    if s == [] then 0.0 else Sum(s[..|s| - 1]) + s[|s| - 1]
  }

  /** Columns that share one index, as the rows of `pd.DataFrame([*line])`. */
  predicate Aligned(lines: seq<seq<real>>) {
    forall j :: 0 <= j < |lines| ==> |lines[j]| == |lines[0]|
  }

  /** The smallest value found at position `i` among the given columns. */
  function MinAt(lines: seq<seq<real>>, i: nat): (m: real)
    requires |lines| > 0
    requires forall j :: 0 <= j < |lines| ==> i < |lines[j]|
    ensures forall j :: 0 <= j < |lines| ==> m <= lines[j][i]
    ensures exists j :: 0 <= j < |lines| && m == lines[j][i]
    decreases |lines|
  {
    if |lines| == 1 then lines[0][i]
    else
      var rest := MinAt(lines[1..], i);
      assert forall j :: 1 <= j < |lines| ==> lines[1..][j - 1] == lines[j];
      if lines[0][i] <= rest then lines[0][i] else rest
  }

  /** The largest value found at position `i` among the given columns. */
  function MaxAt(lines: seq<seq<real>>, i: nat): (m: real)
    requires |lines| > 0
    requires forall j :: 0 <= j < |lines| ==> i < |lines[j]|
    ensures forall j :: 0 <= j < |lines| ==> lines[j][i] <= m
    ensures exists j :: 0 <= j < |lines| && m == lines[j][i]
    decreases |lines|
  {
    if |lines| == 1 then lines[0][i]
    else
      var rest := MaxAt(lines[1..], i);
      assert forall j :: 1 <= j < |lines| ==> lines[1..][j - 1] == lines[j];
      if lines[0][i] >= rest then lines[0][i] else rest
  }

  /** `min(*line)`: the element-wise minimum of aligned columns; no column
      gives an empty result. */
  function Min(lines: seq<seq<real>>): (r: seq<real>)
    requires Aligned(lines)
    ensures |r| == if lines == [] then 0 else |lines[0]|
    ensures forall i, j :: 0 <= i < |r| && 0 <= j < |lines| ==> r[i] <= lines[j][i]
    ensures forall i :: 0 <= i < |r| ==> exists j :: 0 <= j < |lines| && r[i] == lines[j][i]
  {
    if lines == [] then []
    else seq(|lines[0]|, i requires 0 <= i < |lines[0]| => MinAt(lines, i))
  }

  /** `max(*line)`: the element-wise maximum of aligned columns; no column
      gives an empty result. */
  function Max(lines: seq<seq<real>>): (r: seq<real>)
    requires Aligned(lines)
    ensures |r| == if lines == [] then 0 else |lines[0]|
    ensures forall i, j :: 0 <= i < |r| && 0 <= j < |lines| ==> lines[j][i] <= r[i]
    ensures forall i :: 0 <= i < |r| ==> exists j :: 0 <= j < |lines| && r[i] == lines[j][i]
  {
    if lines == [] then []
    else seq(|lines[0]|, i requires 0 <= i < |lines[0]| => MaxAt(lines, i))
  }
}
