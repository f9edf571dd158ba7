/** The simulator factories of the business-plan engine: `percent_of`,
    `actualise` and `actualise_and_cumulate`, plus arbitrary caller-supplied
    simulators. A simulator computes the values of one line over a window of
    positions `startPos..endPos` (inclusive) of the table's index. */
module Simulators {
  import opened Outcomes
  import opened Series

  /** Python's `b ** e` for a float base and an integer exponent; a negative
      exponent divides, so it needs a non-zero base. */
  function Pow(b: real, e: int): (r: real)
    requires e >= 0 || b != 0.0
    ensures b != 0.0 ==> r != 0.0
    decreases if e >= 0 then 2 * e else 1 - 2 * e
  {
    if e == 0 then 1.0
    else if e > 0 then b * Pow(b, e - 1)
    else 1.0 / Pow(b, -e)
  }

  /** One more step of the exponent multiplies by the base, negative
      exponents included. */
  lemma PowStep(b: real, e: int)
    requires e >= 0 || b != 0.0
    ensures Pow(b, e + 1) == Pow(b, e) * b
  {
    if e < -1 {
      var x := Pow(b, -e - 1);
      assert Pow(b, -e) == b * x;
      assert x != 0.0;
      calc {
        Pow(b, e) * b;
        (1.0 / (b * x)) * b;
        1.0 / x;
        Pow(b, e + 1);
      }
    }
  }

  /** Python truthiness of an optional float (`if value:`): None and 0.0 are false. */
  predicate Truthy(v: Option<real>) {
    v.Some? && v.value != 0.0
  }

  /** Python truthiness of an optional index key (`if reference:`,
      `simulate_from or ...`): None and the key 0 are false. */
  predicate TruthyKey(k: Option<int>) {
    k.Some? && k.value != 0
  }

  /** Every element of a column multiplied by a factor. */
  function Scale(s: seq<real>, factor: real): (r: seq<real>)
    ensures |r| == |s|
  {
    seq(|s|, i requires 0 <= i < |s| => s[i] * factor)
  }

  /** The `percent_of(s2, percent, shift)` simulator over a window:
      `s2.shift(-shift, fill_value=0)` sliced to the window, times percent. */
  function PercentOfWindow(s2: seq<real>, percent: real, shift: int, startPos: nat, endPos: nat): (r: seq<real>)
    requires startPos <= endPos < |s2|
    ensures |r| == endPos - startPos + 1
    ensures forall k :: 0 <= k < |r| ==>
              r[k] == if 0 <= startPos + k + shift < |s2| then s2[startPos + k + shift] * percent else 0.0
  {
    Scale(Shift(s2, -shift)[startPos..endPos + 1], percent)
  }

  /** The anchor value of `actualise`: the given value when truthy, else the
      line's value just before the window. */
  function ActualiseAnchor(value: Option<real>, s: seq<real>, startPos: nat): (r: real)
    requires Truthy(value) || 0 < startPos <= |s|
    ensures Truthy(value) ==> r == value.value
    ensures !Truthy(value) ==> r == s[startPos - 1]
  {
    if Truthy(value) then value.value else s[startPos - 1]
  }

  /** The position against which `actualise` compounds: the reference key's
      position when truthy, else the window start when a value is given,
      else the position just before the window. */
  function ActualiseReference(value: Option<real>, reference: Option<int>, index: seq<int>, startPos: nat): (r: int)
    requires TruthyKey(reference) ==> reference.value in index
    ensures TruthyKey(reference) ==> 0 <= r < |index| && index[r] == reference.value
    ensures !TruthyKey(reference) && Truthy(value) ==> r == startPos
    ensures !TruthyKey(reference) && !Truthy(value) ==> r == startPos - 1
    ensures r <= startPos || TruthyKey(reference)
  {
    if TruthyKey(reference) then Pos(index, reference.value)
    else if Truthy(value) then startPos
    else startPos - 1
  }

  /** `anchor * growth ** e`, one value of `actualise`. */
  function Term(anchor: real, growth: real, e: int): (r: real)
    requires e >= 0 || growth != 0.0
  {
    anchor * Pow(growth, e)
  }

  /** One more step of the exponent multiplies a value by `growth`; when
      `growth` is non-zero, dividing by it steps back. */
  lemma TermStep(anchor: real, growth: real, e: int)
    requires e >= 0 || growth != 0.0
    ensures Term(anchor, growth, e + 1) == Term(anchor, growth, e) * growth
    ensures growth != 0.0 ==> Term(anchor, growth, e) == Term(anchor, growth, e + 1) / growth
  {
    var p := Pow(growth, e);
    var current := Term(anchor, growth, e);
    var next := Term(anchor, growth, e + 1);
    PowStep(growth, e);
    assert next == anchor * (p * growth);
    assert next == current * growth;
  }

  /** `n` values `anchor * growth ** (offset + k)`: a geometric sequence
      whose exponent at position k is `offset + k`. */
  function Compounded(anchor: real, growth: real, offset: int, n: nat): (r: seq<real>)
    requires offset >= 0 || growth != 0.0
    ensures |r| == n
  {
    seq(n, k requires 0 <= k < n => Term(anchor, growth, offset + k))
  }

  /** Successive values of a geometric sequence differ by the factor
      `growth`, in both directions when it is non-zero. */
  lemma CompoundedGrows(anchor: real, growth: real, offset: int, n: nat, k: nat)
    requires offset >= 0 || growth != 0.0
    requires k + 1 < n
    ensures Compounded(anchor, growth, offset, n)[k + 1] == Compounded(anchor, growth, offset, n)[k] * growth
    ensures growth != 0.0 ==>
              Compounded(anchor, growth, offset, n)[k] == Compounded(anchor, growth, offset, n)[k + 1] / growth
  {
    var c := Compounded(anchor, growth, offset, n);
    assert c[k] == Term(anchor, growth, offset + k);
    assert c[k + 1] == Term(anchor, growth, offset + k + 1);
    TermStep(anchor, growth, offset + k);
  }

  /** The `actualise(percent, value, reference)` simulator over a window of
      line `s`: `anchor * (1 + percent) ** (i - reference position)` for each
      window position i, with the source's checks in the source's order. */
  function ActualiseWindow(percent: real, value: Option<real>, reference: Option<int>,
                           index: seq<int>, s: seq<real>, startPos: nat, endPos: nat): (r: Result<seq<real>>)
    requires |s| == |index| && startPos <= endPos < |index|
    ensures value.None? && reference.Some? ==> r == Err(ReferenceWithoutValue)
    ensures value.None? && reference.None? && startPos == 0 ==> r == Err(NoAnchor)
    ensures value == Some(0.0) && startPos == 0 ==> r == Err(InvalidStart)
    ensures value.Some? && TruthyKey(reference) && reference.value !in index ==> r.Err?
    ensures && value.Some? && (Truthy(value) || 0 < startPos)
            && TruthyKey(reference) && reference.value !in index
            ==> r == Err(KeyNotFound(reference.value))
    ensures r.Ok? <==>
              && !(value.None? && reference.Some?)
              && (Truthy(value) || 0 < startPos)
              && (TruthyKey(reference) ==> reference.value in index)
              && (1.0 + percent != 0.0 || ActualiseReference(value, reference, index, startPos) <= startPos)
    ensures && !(value.None? && reference.Some?)
            && (Truthy(value) || 0 < startPos)
            && (TruthyKey(reference) ==> reference.value in index)
            && 1.0 + percent == 0.0 && startPos < ActualiseReference(value, reference, index, startPos)
            ==> r == Err(ZeroDivision)
    ensures r.Ok? ==> |r.value| == endPos - startPos + 1
  {
    if value.None? && reference.Some? then Err(ReferenceWithoutValue)
    else if value.None? && startPos == 0 then Err(NoAnchor)
    else if !Truthy(value) && startPos == 0 then Err(InvalidStart)
    else if TruthyKey(reference) && reference.value !in index then Err(KeyNotFound(reference.value))
    else
      var anchor := ActualiseAnchor(value, s, startPos);
      var refPos := ActualiseReference(value, reference, index, startPos);
      var growth := 1.0 + percent;
      if growth == 0.0 && startPos < refPos then Err(ZeroDivision)
      else Ok(Compounded(anchor, growth, startPos - refPos, endPos - startPos + 1))
  }

  /** Each `actualise` value is the anchor compounded over its distance to
      the reference position. */
  lemma ActualiseValueAt(percent: real, value: Option<real>, reference: Option<int>,
                         index: seq<int>, s: seq<real>, startPos: nat, endPos: nat, k: nat)
    requires |s| == |index| && startPos <= endPos < |index|
    requires ActualiseWindow(percent, value, reference, index, s, startPos, endPos).Ok?
    requires k <= endPos - startPos
    ensures Truthy(value) || 0 < startPos
    ensures TruthyKey(reference) ==> reference.value in index
    ensures var e := startPos + k - ActualiseReference(value, reference, index, startPos);
            && (e >= 0 || 1.0 + percent != 0.0)
            && ActualiseWindow(percent, value, reference, index, s, startPos, endPos).value[k]
               == ActualiseAnchor(value, s, startPos) * Pow(1.0 + percent, e)
  {
    var anchor := ActualiseAnchor(value, s, startPos);
    var refPos := ActualiseReference(value, reference, index, startPos);
    var r := ActualiseWindow(percent, value, reference, index, s, startPos, endPos).value;
    assert r == Compounded(anchor, 1.0 + percent, startPos - refPos, endPos - startPos + 1);
    assert r[k] == Term(anchor, 1.0 + percent, startPos - refPos + k);
  }

  /** Successive `actualise` values grow by the factor `1 + percent`, and,
      when that factor is non-zero, each value is the next one divided by it. */
  lemma ActualiseGrows(percent: real, value: Option<real>, reference: Option<int>,
                       index: seq<int>, s: seq<real>, startPos: nat, endPos: nat, k: nat)
    requires |s| == |index| && startPos <= endPos < |index|
    requires ActualiseWindow(percent, value, reference, index, s, startPos, endPos).Ok?
    requires k < endPos - startPos
    ensures var r := ActualiseWindow(percent, value, reference, index, s, startPos, endPos).value;
            r[k + 1] == r[k] * (1.0 + percent)
            && (1.0 + percent != 0.0 ==> r[k] == r[k + 1] / (1.0 + percent))
  {
    var anchor := ActualiseAnchor(value, s, startPos);
    var refPos := ActualiseReference(value, reference, index, startPos);
    CompoundedGrows(anchor, 1.0 + percent, startPos - refPos, endPos - startPos + 1, k);
  }

  /** Where the window reaches the anchor, `actualise` reproduces it: the
      value at the reference key is `value`; without a reference the first
      window value is `value`, or, without a value either, the value before
      the window times `1 + percent`. */
  lemma ActualiseHitsAnchor(percent: real, value: Option<real>, reference: Option<int>,
                            index: seq<int>, s: seq<real>, startPos: nat, endPos: nat)
    requires |s| == |index| && startPos <= endPos < |index|
    requires ActualiseWindow(percent, value, reference, index, s, startPos, endPos).Ok?
    ensures var r := ActualiseWindow(percent, value, reference, index, s, startPos, endPos).value;
            && (Truthy(value) && TruthyKey(reference) && startPos <= Pos(index, reference.value) <= endPos ==>
                  r[Pos(index, reference.value) - startPos] == value.value)
            && (Truthy(value) && !TruthyKey(reference) ==> r[0] == value.value)
            && (value.None? ==> r[0] == s[startPos - 1] * (1.0 + percent))
  {
    var growth := 1.0 + percent;
    var anchor := ActualiseAnchor(value, s, startPos);
    var refPos := ActualiseReference(value, reference, index, startPos);
    var r := ActualiseWindow(percent, value, reference, index, s, startPos, endPos).value;
    assert r == Compounded(anchor, growth, startPos - refPos, endPos - startPos + 1);
    if Truthy(value) && TruthyKey(reference) && startPos <= Pos(index, reference.value) <= endPos {
      assert r[refPos - startPos] == Term(anchor, growth, 0);
    }
    if Truthy(value) && !TruthyKey(reference) {
      assert r[0] == Term(anchor, growth, 0);
    }
    if value.None? {
      assert r[0] == Term(anchor, growth, 1);
      assert Pow(growth, 1) == growth * Pow(growth, 0);
    }
  }

  /** `if value:` makes an explicit zero value behave as an omitted one. */
  lemma ActualiseZeroValueIsOmitted(percent: real, index: seq<int>, s: seq<real>, startPos: nat, endPos: nat)
    requires |s| == |index| && startPos <= endPos < |index|
    requires 0 < startPos
    ensures ActualiseWindow(percent, Some(0.0), None, index, s, startPos, endPos)
         == ActualiseWindow(percent, None, None, index, s, startPos, endPos)
  {
  }

  /** The running accumulator of `actualise_and_cumulate`: each output is the
      previous one (the seed at first) plus the addend, times the growth. */
  function Cumulate(seed: real, addends: seq<real>, growth: real): (r: seq<real>)
    ensures |r| == |addends|
    decreases |addends|
  {
    if addends == [] then []
    else
      var first := (seed + addends[0]) * growth;
      [first] + Cumulate(first, addends[1..], growth)
  }

  /** The first output adds the first addend to the seed and grows. */
  lemma CumulateFirst(seed: real, addends: seq<real>, growth: real)
    requires |addends| > 0
    ensures Cumulate(seed, addends, growth)[0] == (seed + addends[0]) * growth
  {
  }

  /** Every later output adds its addend to the previous output and grows. */
  lemma {:induction false} CumulateStep(seed: real, addends: seq<real>, growth: real, k: nat)
    requires 0 < k < |addends|
    ensures Cumulate(seed, addends, growth)[k] == (Cumulate(seed, addends, growth)[k - 1] + addends[k]) * growth
    decreases k
  {
    var first := (seed + addends[0]) * growth;
    var rest := Cumulate(first, addends[1..], growth);
    assert Cumulate(seed, addends, growth) == [first] + rest;
    if k == 1 {
      CumulateFirst(first, addends[1..], growth);
    } else {
      CumulateStep(first, addends[1..], growth, k - 1);
    }
  }

  /** Without growth the accumulator is the seed plus running sums. */
  lemma {:induction false} CumulateWithoutGrowth(seed: real, addends: seq<real>, k: nat)
    requires k < |addends|
    ensures Cumulate(seed, addends, 1.0)[k] == seed + Sum(addends[..k + 1])
    decreases k
  {
    assert addends[..k + 1][..k] == addends[..k];
    if k > 0 {
      CumulateWithoutGrowth(seed, addends, k - 1);
      CumulateStep(seed, addends, 1.0, k);
    } else {
      CumulateFirst(seed, addends, 1.0);
    }
  }

  /** Two sequences obeying the accumulator's recurrence from the same seed
      are the same sequence. */
  lemma {:induction false} CumulateIsDetermined(seed: real, addends: seq<real>, growth: real, r: seq<real>)
    requires |r| == |addends|
    requires |r| > 0 ==> r[0] == (seed + addends[0]) * growth
    requires forall k :: 0 < k < |r| ==> r[k] == (r[k - 1] + addends[k]) * growth
    ensures r == Cumulate(seed, addends, growth)
  {
    var c := Cumulate(seed, addends, growth);
    forall k | 0 <= k < |r|
      ensures r[k] == c[k]
    {
      CumulateAgreesUpTo(seed, addends, growth, r, k);
    }
  }

  lemma {:induction false} CumulateAgreesUpTo(seed: real, addends: seq<real>, growth: real, r: seq<real>, k: nat)
    requires |r| == |addends| && k < |r|
    requires r[0] == (seed + addends[0]) * growth
    requires forall j :: 0 < j < |r| ==> r[j] == (r[j - 1] + addends[j]) * growth
    ensures r[k] == Cumulate(seed, addends, growth)[k]
    decreases k
  {
    if k > 0 {
      CumulateAgreesUpTo(seed, addends, growth, r, k - 1);
      CumulateStep(seed, addends, growth, k);
    } else {
      CumulateFirst(seed, addends, growth);
    }
  }

  /** The `actualise_and_cumulate(s2, percent)` simulator over a window of
      line `s1`: seeded with `s1.shift(1, fill_value=0)` at the window start,
      adding `s2.shift(1, fill_value=0)` position by position. */
  function CumulateWindow(s2: seq<real>, percent: real, s1: seq<real>, startPos: nat, endPos: nat): (r: seq<real>)
    requires startPos <= endPos < |s1| && |s2| == |s1|
    ensures |r| == endPos - startPos + 1
    ensures r[0] == ((if startPos == 0 then 0.0 else s1[startPos - 1])
                     + (if startPos == 0 then 0.0 else s2[startPos - 1])) * (1.0 + percent)
    ensures forall k :: 0 < k < |r| ==> r[k] == (r[k - 1] + s2[startPos + k - 1]) * (1.0 + percent)
  {
    CumulateWindowRecurrence(s2, percent, s1, startPos, endPos);
    Cumulate(Shift(s1, 1)[startPos], Shift(s2, 1)[startPos..endPos + 1], 1.0 + percent)
  }

  /** The accumulator over the window, read back in terms of `s1` and `s2`. */
  lemma CumulateWindowRecurrence(s2: seq<real>, percent: real, s1: seq<real>, startPos: nat, endPos: nat)
    requires startPos <= endPos < |s1| && |s2| == |s1|
    ensures var c := Cumulate(Shift(s1, 1)[startPos], Shift(s2, 1)[startPos..endPos + 1], 1.0 + percent);
            && c[0] == ((if startPos == 0 then 0.0 else s1[startPos - 1])
                        + (if startPos == 0 then 0.0 else s2[startPos - 1])) * (1.0 + percent)
            && forall k :: 0 < k < |c| ==> c[k] == (c[k - 1] + s2[startPos + k - 1]) * (1.0 + percent)
  {
    var seed := Shift(s1, 1)[startPos];
    var addends := Shift(s2, 1)[startPos..endPos + 1];
    var growth := 1.0 + percent;
    var c := Cumulate(seed, addends, growth);
    assert seed == (if startPos == 0 then 0.0 else s1[startPos - 1]);
    assert addends[0] == (if startPos == 0 then 0.0 else s2[startPos - 1]);
    CumulateFirst(seed, addends, growth);
    forall k | 0 < k < |c|
      ensures c[k] == (c[k - 1] + s2[startPos + k - 1]) * growth
    {
      assert addends[k] == s2[startPos + k - 1];
      CumulateStep(seed, addends, growth, k);
    }
  }

  /** With `percent == 0` the simulator yields the value before the window
      plus the running sums of `s2` lagged by one position. */
  lemma CumulateWindowWithoutGrowth(s2: seq<real>, s1: seq<real>, startPos: nat, endPos: nat, k: nat)
    requires startPos <= endPos < |s1| && |s2| == |s1|
    requires k <= endPos - startPos
    ensures CumulateWindow(s2, 0.0, s1, startPos, endPos)[k]
         == (if startPos == 0 then 0.0 else s1[startPos - 1]) + Sum(Shift(s2, 1)[startPos..startPos + k + 1])
  {
    var addends := Shift(s2, 1)[startPos..endPos + 1];
    CumulateWithoutGrowth(Shift(s1, 1)[startPos], addends, k);
    assert addends[..k + 1] == Shift(s2, 1)[startPos..startPos + k + 1];
  }

  /** The simulator loop of `actualise_and_cumulate`, step by step. */
  method RunActualiseAndCumulate(s2: seq<real>, percent: real, s1: seq<real>, startPos: nat, endPos: nat)
    returns (simulation: seq<real>)
    requires startPos <= endPos < |s1| && |s2| == |s1|
    ensures simulation == CumulateWindow(s2, percent, s1, startPos, endPos)
  {
    ghost var seed := Shift(s1, 1)[startPos];
    var addends := Shift(s2, 1)[startPos..endPos + 1];
    var cumulated := Shift(s1, 1)[startPos];
    simulation := [];
    for i := 0 to |addends|
      invariant |simulation| == i
      invariant cumulated == if i == 0 then seed else simulation[i - 1]
      invariant simulation == Cumulate(seed, addends, 1.0 + percent)[..i]
    {
      ghost var expected := Cumulate(seed, addends, 1.0 + percent);
      if i == 0 {
        CumulateFirst(seed, addends, 1.0 + percent);
      } else {
        CumulateStep(seed, addends, 1.0 + percent, i);
      }
      cumulated := (cumulated + addends[i]) * (1.0 + percent);
      assert cumulated == expected[i];
      assert expected[..i + 1] == expected[..i] + [expected[i]];
      simulation := simulation + [cumulated];
    }
  }

  /** A simulator, as passed to `line(simulation=...)`: one of the library's
      factories with its captured arguments, or any caller function of the
      index, the line so far and the window positions. */
  datatype Simulator =
    | PercentOf(s2: seq<real>, percent: real, shift: int)
    | Actualise(percent: real, value: Option<real>, reference: Option<int>)
    | ActualiseAndCumulate(s2: seq<real>, percent: real)
    | Custom(f: (seq<int>, seq<real>, nat, nat) -> seq<real>)
  {
    /** Series captured by a factory are lines of the same table. */
    predicate AlignedTo(n: nat) {
      match this
      case PercentOf(s2, _, _) => |s2| == n
      case ActualiseAndCumulate(s2, _) => |s2| == n
      case _ => true
    }
  }

  /** What a simulator returns for the window `startPos..endPos` of line `s`. */
  function Simulate(sim: Simulator, index: seq<int>, s: seq<real>, startPos: nat, endPos: nat): (r: Result<seq<real>>)
    requires |s| == |index| && startPos <= endPos < |index| && sim.AlignedTo(|index|)
    ensures !sim.Custom? && r.Ok? ==> |r.value| == endPos - startPos + 1
    ensures sim.PercentOf? || sim.ActualiseAndCumulate? ==> r.Ok?
  {
    match sim
    case PercentOf(s2, percent, shift) => Ok(PercentOfWindow(s2, percent, shift, startPos, endPos))
    case Actualise(percent, value, reference) => ActualiseWindow(percent, value, reference, index, s, startPos, endPos)
    case ActualiseAndCumulate(s2, percent) => Ok(CumulateWindow(s2, percent, s, startPos, endPos))
    case Custom(f) => Ok(f(index, s, startPos, endPos))
  }

  /** Calls a simulator, running the `actualise_and_cumulate` loop. */
  method RunSimulator(sim: Simulator, index: seq<int>, s: seq<real>, startPos: nat, endPos: nat)
    returns (r: Result<seq<real>>)
    requires |s| == |index| && startPos <= endPos < |index| && sim.AlignedTo(|index|)
    ensures r == Simulate(sim, index, s, startPos, endPos)
  {
    match sim
    case PercentOf(s2, percent, shift) =>
      r := Ok(PercentOfWindow(s2, percent, shift, startPos, endPos));
    case Actualise(percent, value, reference) =>
      r := ActualiseWindow(percent, value, reference, index, s, startPos, endPos);
    case ActualiseAndCumulate(s2, percent) =>
      var simulation := RunActualiseAndCumulate(s2, percent, s, startPos, endPos);
      r := Ok(simulation);
    case Custom(f) =>
      r := Ok(f(index, s, startPos, endPos));
  }
}
