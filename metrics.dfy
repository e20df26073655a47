/** Metric utilities (`src/utils/metrics.py`): the sliding-window running
    average and the unit-prefix choice of the joule and watt formatters. The
    rendered digits are not modelled, only the prefix and the scaled value. */
module Metrics {
  import opened Numeric

  /** What `compute_running_average` produces: the averages, or the
      `ZeroDivisionError` a window below 1 raises on a non-empty list. */
  datatype AverageResult = Averages(averages: seq<real>) | DivisionByZero

  /** `max(0, i - window + 1)`. */
  function WindowStart(i: nat, window: int): nat
  {
    if i - window + 1 > 0 then i - window + 1 else 0
  }

  /** `values[start:i + 1]` with Python's slicing: empty once the start passes the end. */
  function WindowOf(values: seq<real>, i: nat, window: int): (w: seq<real>)
    requires i < |values|
    ensures window >= 1 ==> w != [] && w == values[WindowStart(i, window)..i + 1]
    ensures window < 1 ==> w == []
    ensures |w| <= i + 1
  {
    var start := WindowStart(i, window);
    if start <= i + 1 then values[start..i + 1] else []
  }

  /** `compute_running_average` as a value: entry i is the mean of the last
      `window` values up to and including values[i]. */
  function RunningAverage(values: seq<real>, window: int): (r: AverageResult)
    ensures values == [] ==> r == Averages([])
    ensures values != [] ==> (r.DivisionByZero? <==> window < 1)
    ensures r.Averages? ==> |r.averages| == |values|
  {
    if values == [] then Averages([])
    else if window < 1 then DivisionByZero
    else Averages(seq(|values|, i requires 0 <= i < |values| => Mean(WindowOf(values, i, window))))
  }

  /** `compute_running_average`: one mean per index, appended in order; the
      first empty window raises. */
  method ComputeRunningAverage(values: seq<real>, window: int) returns (r: AverageResult)
    ensures r == RunningAverage(values, window)
  {
    if values == [] {
      return Averages([]);
    }
    var result: seq<real> := [];
    var i := 0;
    while i < |values|
      invariant 0 <= i <= |values|
      invariant window >= 1 || i == 0
      invariant |result| == i
      invariant forall k :: 0 <= k < i ==> WindowOf(values, k, window) != [] && result[k] == Mean(WindowOf(values, k, window))
    {
      var start := WindowStart(i, window);
      var windowVals := if start <= i + 1 then values[start..i + 1] else [];
      assert windowVals == WindowOf(values, i, window);
      if windowVals == [] {
        return DivisionByZero;
      }
      result := result + [Sum(windowVals) / (|windowVals| as real)];
      i := i + 1;
    }
    r := Averages(result);
  }

  lemma MeanSingleton(x: real)
    ensures Mean([x]) == x
  {
    assert [x][..0] == [];
    assert Sum([x]) == Sum([]) + x;
  }

  /** The first average is the first value. */
  lemma RunningAverageFirst(values: seq<real>, window: int)
    requires values != [] && window >= 1
    ensures RunningAverage(values, window).averages[0] == values[0]
  {
    assert WindowOf(values, 0, window) == [values[0]];
    MeanSingleton(values[0]);
  }

  /** A window of 1 gives back the values. */
  lemma WindowOneIsIdentity(values: seq<real>)
    requires values != []
    ensures RunningAverage(values, 1).averages == values
  {
    var a := RunningAverage(values, 1).averages;
    forall i | 0 <= i < |values|
      ensures a[i] == values[i]
    {
      assert WindowOf(values, i, 1) == [values[i]];
      MeanSingleton(values[i]);
    }
  }

  /** A window at least as long as the list gives the cumulative means. */
  lemma WideWindowIsCumulative(values: seq<real>, window: int, i: nat)
    requires window >= |values| && i < |values|
    ensures RunningAverage(values, window).averages[i] == Mean(values[..i + 1])
  {
    assert WindowStart(i, window) == 0;
  }

  /** Each average lies between the smallest and the largest value of its window. */
  lemma AverageWithinWindow(values: seq<real>, window: int, i: nat)
    requires window >= 1 && i < |values|
    ensures var w := WindowOf(values, i, window);
      MinOf(w) <= RunningAverage(values, window).averages[i] <= MaxOf(w)
  {
    MeanWithinMinMax(WindowOf(values, i, window));
  }

  /** The mean of a non-empty slice lies between the list's minimum and maximum. */
  lemma SliceMeanWithinValues(values: seq<real>, s: nat, e: nat)
    requires s < e <= |values|
    ensures MinOf(values) <= Mean(values[s..e]) <= MaxOf(values)
  {
    var w := values[s..e];
    var lo, hi := MinOf(values), MaxOf(values);
    forall k | 0 <= k < |w|
      ensures lo <= w[k] <= hi
    {
      assert w[k] == values[s + k];
    }
    MeanBounds(w, lo, hi);
  }

  /** Hence each average lies between the smallest and the largest value of the list. */
  lemma AverageWithinValues(values: seq<real>, window: int, i: nat)
    requires window >= 1 && i < |values|
    ensures MinOf(values) <= RunningAverage(values, window).averages[i] <= MaxOf(values)
  {
    var s := WindowStart(i, window);
    var w := WindowOf(values, i, window);
    assert RunningAverage(values, window).averages[i] == Mean(w);
    assert w == values[s..i + 1];
    SliceMeanWithinValues(values, s, i + 1);
  }

  /** The unit prefixes the formatters choose between. */
  datatype Prefix = Milli | NoPrefix | Kilo

  /** A value as the formatters show it: the scaled number, its prefix and the unit. */
  datatype Formatted = Formatted(value: real, prefix: Prefix, unit: string)

  /** The unit text after the number. */
  function Symbol(f: Formatted): string
  {
    match f.prefix
    case Milli => "m" + f.unit
    case NoPrefix => f.unit
    case Kilo => "k" + f.unit
  }

  /** The quantity a formatted value stands for. */
  function Unscaled(f: Formatted): real
  {
    match f.prefix
    case Milli => f.value / 1000.0
    case NoPrefix => f.value
    case Kilo => f.value * 1000.0
  }

  /** The shared rule of `format_joules` and `format_watts`: below 1 in
      thousandths, below 1000 as is, otherwise in thousands. */
  function ScaleForDisplay(x: real, unit: string): (f: Formatted)
    ensures f.unit == unit
    ensures f.prefix == Milli <==> x < 1.0
    ensures f.prefix == NoPrefix <==> 1.0 <= x < 1000.0
    ensures f.prefix == Kilo <==> 1000.0 <= x
    ensures Unscaled(f) == x
  {
    if x < 1.0 then Formatted(x * 1000.0, Milli, unit)
    else if x < 1000.0 then Formatted(x, NoPrefix, unit)
    else Formatted(x / 1000.0, Kilo, unit)
  }

  /** `format_joules`, up to the rendering of the digits. */
  function FormatJoules(joules: real): (f: Formatted)
    ensures Symbol(f) == "mJ" <==> joules < 1.0
    ensures Symbol(f) == "J" <==> 1.0 <= joules < 1000.0
    ensures Symbol(f) == "kJ" <==> 1000.0 <= joules
    ensures Unscaled(f) == joules
  {
    var f := ScaleForDisplay(joules, "J");
    assert Symbol(f) == match f.prefix case Milli => "mJ" case NoPrefix => "J" case Kilo => "kJ";
    f
  }

  /** `format_watts`, up to the rendering of the digits. */
  function FormatWatts(watts: real): (f: Formatted)
    ensures Symbol(f) == "mW" <==> watts < 1.0
    ensures Symbol(f) == "W" <==> 1.0 <= watts < 1000.0
    ensures Symbol(f) == "kW" <==> 1000.0 <= watts
    ensures Unscaled(f) == watts
  {
    var f := ScaleForDisplay(watts, "W");
    assert Symbol(f) == match f.prefix case Milli => "mW" case NoPrefix => "W" case Kilo => "kW";
    f
  }

  /** For a non-negative quantity the shown number stays below 1000 unless the
      prefix is kilo, and is at least 1 unless the prefix is milli. */
  lemma DisplayedRange(x: real, unit: string)
    requires x >= 0.0
    ensures var f := ScaleForDisplay(x, unit);
      && 0.0 <= f.value
      && (f.prefix != Kilo ==> f.value < 1000.0)
      && (f.prefix != Milli ==> 1.0 <= f.value)
  {
  }

  /** The boundaries belong to the larger unit. */
  lemma FormatBoundaries()
    ensures FormatJoules(0.5) == Formatted(500.0, Milli, "J")
    ensures FormatJoules(1.0) == Formatted(1.0, NoPrefix, "J")
    ensures FormatJoules(1000.0) == Formatted(1.0, Kilo, "J")
    ensures FormatWatts(1500.0) == Formatted(1.5, Kilo, "W")
  {
  }
}
