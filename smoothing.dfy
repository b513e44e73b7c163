/**
 * The two smoothing passes a graph applies to its sample snapshot before plotting
 * (`_moving_average` and `_round_corners`, identical in the single- and the dual-series graph).
 * A sample is a reading or `None`.
 */
module Smoothing {
  import opened Wrappers

  type Sample = Option<real>

  datatype Mode = NoSmoothing | Average | Round

  /** Every present entry of `s` lies in [lo, hi]. */
  ghost predicate Bounded(s: seq<Sample>, lo: real, hi: real) {
    forall i | 0 <= i < |s| :: s[i].Some? ==> lo <= s[i].value <= hi
  }

  /** No entry of `s` is `None`. */
  ghost predicate AllPresent(s: seq<Sample>) {
    forall i | 0 <= i < |s| :: s[i].Some?
  }

  /** The values of the entries that are not `None`, in order. */
  function Present(s: seq<Sample>): (r: seq<real>)
    ensures |r| <= |s|
    ensures forall x :: x in r <==> Some(x) in s
  {
    if s == [] then [] else (if s[0].Some? then [s[0].value] else []) + Present(s[1..])
  }

  function Sum(s: seq<real>): real {
    if s == [] then 0.0 else s[0] + Sum(s[1..])
  }

  lemma {:induction false} SumBounds(s: seq<real>, lo: real, hi: real)
    requires forall x | x in s :: lo <= x <= hi
    ensures |s| as real * lo <= Sum(s) <= |s| as real * hi
  {
    if s != [] {
      assert s[0] in s;
      forall x | x in s[1..] ensures lo <= x <= hi {
        assert x in s;
      }
      SumBounds(s[1..], lo, hi);
      var c := |s[1..]| as real;
      assert |s| as real * lo == lo + c * lo;
      assert |s| as real * hi == hi + c * hi;
    }
  }

  /** The mean of a non-empty list lies between any bounds of its elements. */
  lemma MeanBounds(s: seq<real>, lo: real, hi: real)
    requires |s| > 0
    requires forall x | x in s :: lo <= x <= hi
    ensures lo <= Sum(s) / |s| as real <= hi
  {
    SumBounds(s, lo, hi);
    var c := |s| as real;
    assert Sum(s) / c * c == Sum(s);
  }

  /**
   * Entry `i` of the moving average: the mean of the present values at indices
   * max(0, i - window/2) .. min(n - 1, i + window/2), or 0 when all of them are `None`.
   */
  function WindowMean(data: seq<Sample>, window: nat, i: int): real
    requires 0 <= i < |data|
  {
    var vals := Present(data[Max(0, i - window / 2)..Min(|data|, i + window / 2 + 1)]);
    if |vals| > 0 then Sum(vals) / |vals| as real else 0.0
  }

  /** What `_moving_average` returns: the input itself when shorter than 2, else the window means. */
  function MovingAverageOf(data: seq<Sample>, window: nat): (r: seq<Sample>)
    ensures |r| == |data|
    ensures |data| >= 2 ==> AllPresent(r)
    ensures |data| < 2 ==> r == data
  {
    if |data| < 2 then data
    else seq(|data|, i requires 0 <= i < |data| => Some(WindowMean(data, window, i)))
  }

  method MovingAverage(data: seq<Sample>, window: nat) returns (result: seq<Sample>)
    ensures result == MovingAverageOf(data, window)
  {
    var n := |data|;
    if n < 2 {
      return data;
    }
    result := [];
    for i := 0 to n
      invariant |result| == i
      invariant forall k | 0 <= k < i :: result[k] == Some(WindowMean(data, window, k))
    {
      var vals := Present(data[Max(0, i - window / 2)..Min(n, i + window / 2 + 1)]);
      var mean := if |vals| > 0 then Sum(vals) / |vals| as real else 0.0;
      assert mean == WindowMean(data, window, i);
      result := result + [Some(mean)];
    }
    assert forall k | 0 <= k < n :: result[k] == MovingAverageOf(data, window)[k];
  }

  /**
   * Every averaged entry is either the 0 that stands for "no present neighbour" or lies
   * within any bounds of the input's present values.
   */
  lemma AverageWithinInputRange(data: seq<Sample>, window: nat, lo: real, hi: real)
    requires |data| >= 2
    requires Bounded(data, lo, hi)
    ensures forall i | 0 <= i < |data| ::
      var v := MovingAverageOf(data, window)[i].value;
      v == 0.0 || lo <= v <= hi
  {
    forall i | 0 <= i < |data|
      ensures var v := MovingAverageOf(data, window)[i].value; v == 0.0 || lo <= v <= hi
    {
      var slice := data[Max(0, i - window / 2)..Min(|data|, i + window / 2 + 1)];
      var vals := Present(slice);
      if |vals| > 0 {
        forall x | x in vals ensures lo <= x <= hi {
          assert Some(x) in slice;
        }
        MeanBounds(vals, lo, hi);
      }
    }
  }

  /** The corner test of `_round_corners`: `curr` is far from both neighbours compared with their distance. */
  predicate IsSharpCorner(prev: real, curr: real, next: real) {
    Abs(curr - prev) > Abs(prev - next) * 1.5 && Abs(curr - next) > Abs(prev - next) * 1.5
  }

  /** Entry `i` after rounding: decided from the ORIGINAL neighbours, never from rounded ones. */
  function RoundedAt(data: seq<Sample>, i: int): Sample
    requires 0 <= i < |data|
  {
    if 0 < i < |data| - 1 && data[i - 1].Some? && data[i].Some? && data[i + 1].Some?
       && IsSharpCorner(data[i - 1].value, data[i].value, data[i + 1].value)
    then Some((data[i - 1].value + data[i + 1].value) / 2.0)
    else data[i]
  }

  /** What `_round_corners` returns. */
  function RoundCornersOf(data: seq<Sample>): (r: seq<Sample>)
    ensures |r| == |data|
    ensures |data| > 0 ==> r[0] == data[0] && r[|r| - 1] == data[|data| - 1]
    ensures |data| < 3 ==> r == data
    ensures forall i | 0 <= i < |data| :: r[i].Some? <==> data[i].Some?
  {
    if |data| < 3 then data else seq(|data|, i requires 0 <= i < |data| => RoundedAt(data, i))
  }

  method RoundCorners(data: seq<Sample>) returns (result: seq<Sample>)
    ensures result == RoundCornersOf(data)
  {
    var n := |data|;
    if n < 3 {
      return data;
    }
    result := data;
    for i := 1 to n - 1
      invariant |result| == n
      invariant result[0] == data[0]
      invariant forall k | 0 < k < i :: result[k] == RoundedAt(data, k)
      invariant forall k | i <= k < n :: result[k] == data[k]
    {
      var prev, curr, next := data[i - 1], data[i], data[i + 1];
      if prev.Some? && curr.Some? && next.Some? {
        if IsSharpCorner(prev.value, curr.value, next.value) {
          result := result[i := Some((prev.value + next.value) / 2.0)];
        }
      }
    }
  }

  /**
   * An interior entry changes exactly when it and both neighbours are present and it is a
   * sharp corner; it then becomes the neighbours' midpoint, lies between them, and is no
   * longer a sharp corner with respect to them.
   */
  lemma RoundFlattensExactlySharpCorners(data: seq<Sample>, i: int)
    requires |data| >= 3 && 0 < i < |data| - 1
    ensures var r := RoundCornersOf(data);
      (data[i - 1].Some? && data[i].Some? && data[i + 1].Some?
       && IsSharpCorner(data[i - 1].value, data[i].value, data[i + 1].value))
      <==> r[i] != data[i]
    ensures var r := RoundCornersOf(data);
      r[i] != data[i] ==>
        var p, m, q := data[i - 1].value, r[i].value, data[i + 1].value;
        m == (p + q) / 2.0 && !IsSharpCorner(p, m, q) && (p <= m <= q || q <= m <= p)
  {
  }

  /** Rounding never leaves the range of the input's present values. */
  lemma RoundWithinInputRange(data: seq<Sample>, lo: real, hi: real)
    requires Bounded(data, lo, hi)
    ensures Bounded(RoundCornersOf(data), lo, hi)
  {
  }

  /** What a graph plots for a snapshot under the configured smoothing mode. */
  function Smooth(data: seq<Sample>, mode: Mode): (r: seq<Sample>)
    ensures |r| == |data|
  {
    match mode
    case NoSmoothing => data
    case Average => MovingAverageOf(data, 3)
    case Round => RoundCornersOf(data)
  }

  method ApplySmoothing(data: seq<Sample>, mode: Mode) returns (r: seq<Sample>)
    ensures r == Smooth(data, mode)
  {
    if mode == Average {
      r := MovingAverage(data, 3);
    } else if mode == Round {
      r := RoundCorners(data);
    } else {
      r := data;
    }
  }

  /**
   * `None` survives smoothing only where the input had one, or in average mode only when the
   * input is shorter than 2; a gap-free snapshot stays gap-free in every mode.
   */
  lemma SmoothKeepsPresence(data: seq<Sample>, mode: Mode)
    ensures AllPresent(data) ==> AllPresent(Smooth(data, mode))
    ensures mode == Average && |data| >= 2 ==> AllPresent(Smooth(data, mode))
  {
  }

  /**
   * Smoothing keeps the plotted values inside the range of the input; in average mode a
   * window with no reading yields 0, so there the range must also contain 0.
   */
  lemma SmoothWithinRange(data: seq<Sample>, mode: Mode, lo: real, hi: real)
    requires Bounded(data, lo, hi)
    requires mode == Average ==> lo <= 0.0 <= hi
    ensures Bounded(Smooth(data, mode), lo, hi)
  {
    match mode
    case NoSmoothing =>
    case Average =>
      if |data| >= 2 {
        AverageWithinInputRange(data, 3, lo, hi);
      }
    case Round =>
      RoundWithinInputRange(data, lo, hi);
  }

  /** The examples of the moving average and the corner rounding on three samples. */
  lemma SmoothingExamples()
    ensures MovingAverageOf([Some(5.0), None, Some(7.0)], 3)[1] == Some(6.0)
    ensures MovingAverageOf([None, None], 3) == [Some(0.0), Some(0.0)]
    ensures RoundCornersOf([Some(1.0), Some(10.0), Some(1.0)]) == [Some(1.0), Some(1.0), Some(1.0)]
  {
    var a := [Some(5.0), None, Some(7.0)];
    assert a[0..3] == a;
    assert Present(a) == [5.0, 7.0];
    assert MovingAverageOf(a, 3)[1] == Some(WindowMean(a, 3, 1));
    assert Sum([5.0, 7.0]) == 12.0;
    var b: seq<Sample> := [None, None];
    assert b[0..2] == b;
    assert Present(b) == [];
  }
}
