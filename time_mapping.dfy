/**
 * The time-to-pixel mapping of both graphs: the visible window is always `seconds` long,
 * data is anchored to the right edge ("now"), and one interpolated value is produced per
 * pixel column from the left edge of the data to the right edge of the surface.
 */
module TimeMapping {
  import opened Wrappers
  import opened Canvas
  import opened Smoothing

  /** The exceptions the per-pixel loop can raise. */
  datatype Fault =
    | MissingSample      // TypeError: arithmetic on a `None` sample
    | IndexOutOfRange    // IndexError: a sample index past the end of the series

  /** The buffer's `maxlen` when it has one, otherwise its current length. */
  function MaxPoints(maxlen: nat, n: nat): nat {
    if maxlen > 0 then maxlen else n
  }

  datatype Geometry = Geometry(
    w: int,
    seconds: int,
    timePerPoint: real,    // seconds between two samples
    filledSeconds: real,   // seconds covered by the current samples
    leftEdge: real)        // no data is drawn left of this x

  /** The shared geometry of a redraw for a surface `w` wide showing `seconds`. */
  function Layout(w: int, seconds: int, maxPoints: int, n: int): (g: Geometry)
    requires seconds > 0
    ensures g.w == w && g.seconds == seconds && g.timePerPoint > 0.0
  {
    var timePerPoint := if maxPoints > 1 then seconds as real / (maxPoints - 1) as real else seconds as real;
    var filledSeconds := timePerPoint * (n - 1) as real;
    var filledWidth := w as real * (filledSeconds / seconds as real);
    Geometry(w, seconds, timePerPoint, filledSeconds, w as real - filledWidth)
  }

  /** The left edge is the surface width times the unfilled fraction of the buffer. */
  lemma LeftEdgeClosedForm(w: int, seconds: int, maxPoints: int, n: int)
    requires seconds > 0 && maxPoints > 1
    ensures Layout(w, seconds, maxPoints, n).leftEdge * (maxPoints - 1) as real
            == w as real * (maxPoints - n) as real
  {
    var g := Layout(w, seconds, maxPoints, n);
    var s, d := seconds as real, (maxPoints - 1) as real;
    assert g.timePerPoint * d == s;
    assert g.filledSeconds * d == s * (n - 1) as real;
    assert (g.filledSeconds / s) * d == (n - 1) as real by {
      assert (g.filledSeconds / s) * s == g.filledSeconds;
    }
  }

  /**
   * For 2 <= n <= maxPoints the data starts inside the surface, and it starts at the very
   * left exactly when the buffer is full.
   */
  lemma LeftEdgeWithinSurface(w: int, seconds: int, maxPoints: int, n: int)
    requires w > 0 && seconds > 0 && 2 <= n <= maxPoints
    ensures var e := Layout(w, seconds, maxPoints, n).leftEdge; 0.0 <= e < w as real
    ensures Layout(w, seconds, maxPoints, n).leftEdge == 0.0 <==> n == maxPoints
  {
    LeftEdgeClosedForm(w, seconds, maxPoints, n);
    var e := Layout(w, seconds, maxPoints, n).leftEdge;
    var d := (maxPoints - 1) as real;
    var num := w as real * (maxPoints - n) as real;
    assert e * d == num;
    assert e == num / d;
    assert 0.0 <= num < w as real * d;
    DivideBelow(num, w as real, d);
  }

  lemma DivideBelow(num: real, w: real, d: real)
    requires d > 0.0 && 0.0 <= num < w * d
    ensures 0.0 <= num / d < w
  {
    assert num / d * d == num;
  }

  /** The fractional sample index that pixel column `px` shows. */
  function ColumnIndex(g: Geometry, px: int): real
    requires g.w != 0
  {
    var t := (g.seconds * (g.w - px)) as real / g.w as real;
    if g.timePerPoint > 0.0 then (g.filledSeconds - t) / g.timePerPoint else 0.0
  }

  /** `s[k]` in Python, failing as Python does, and failing on `None` once it is used in arithmetic. */
  function Fetch(s: seq<Sample>, k: int): Result<real, Fault> {
    if !(0 <= k < |s|) then Err(IndexOutOfRange)
    else if s[k].None? then Err(MissingSample)
    else Ok(s[k].value)
  }

  /**
   * The value plotted at fractional index `idx`: the first sample before the data, else the
   * linear interpolation between `smooth[idx0]` and `smooth[min(idx0 + 1, n - 1)]`.
   * The middle branch (`idx1 >= n`) is kept as written; `IndexBranchDead` shows it is never taken.
   */
  function ValueAt(smooth: seq<Sample>, idx: real): Result<real, Fault> {
    var n := |smooth|;
    var idx0 := idx.Floor;
    var idx1 := Min(idx0 + 1, n - 1);
    if idx0 < 0 then Fetch(smooth, 0)
    else if idx1 >= n then Fetch(smooth, n - 1)
    else if idx0 >= n then Err(IndexOutOfRange)
    else if smooth[idx0].None? || smooth[idx1].None? then Err(MissingSample)
    else
      var v0, v1 := smooth[idx0].value, smooth[idx1].value;
      Ok(v0 + (v1 - v0) * (idx - idx0 as real))
  }

  lemma IndexBranchDead(smooth: seq<Sample>, idx: real)
    ensures Min(idx.Floor + 1, |smooth| - 1) < |smooth|
  {
  }

  /** The value-to-pixel map: `yMin` sits on the bottom edge `h`, `yMax` on the top edge 0. */
  function PixelY(v: real, yMin: real, yMax: real, h: int): real
    requires yMax != yMin
  {
    h as real - ((v - yMin) / (yMax - yMin)) * h as real
  }

  lemma PixelYMonotone(a: real, b: real, yMin: real, yMax: real, h: int)
    requires yMin < yMax && h >= 0 && a <= b
    ensures PixelY(b, yMin, yMax, h) <= PixelY(a, yMin, yMax, h)
  {
    var d := yMax - yMin;
    assert (b - yMin) / d - (a - yMin) / d == (b - a) / d;
    assert (b - a) / d >= 0.0;
    assert ((b - yMin) / d) * h as real - ((a - yMin) / d) * h as real == ((b - a) / d) * h as real;
  }

  /**
   * The interpolated points from column `px` to the right edge, one per column, or the fault
   * of the first column whose value cannot be computed.
   */
  function Trace(smooth: seq<Sample>, g: Geometry, yMin: real, yMax: real, h: int, px: int): Result<seq<Point>, Fault>
    requires g.w > 0 && yMax != yMin
    decreases g.w - px
  {
    if px >= g.w then Ok([])
    else match ValueAt(smooth, ColumnIndex(g, px))
      case Err(e) => Err(e)
      case Ok(v) =>
        match Trace(smooth, g, yMin, yMax, h, px + 1)
        case Err(e) => Err(e)
        case Ok(rest) => Ok([Point(px as real, PixelY(v, yMin, yMax, h))] + rest)
  }

  function Prepend(points: seq<Point>, r: Result<seq<Point>, Fault>): Result<seq<Point>, Fault> {
    match r
    case Ok(rest) => Ok(points + rest)
    case Err(e) => Err(e)
  }

  /** The per-pixel loop: columns `int(left_edge)` .. `w - 1`, appended left to right. */
  method Interpolate(smooth: seq<Sample>, g: Geometry, yMin: real, yMax: real, h: int)
    returns (r: Result<seq<Point>, Fault>)
    requires g.w > 0 && yMax != yMin
    ensures r == Trace(smooth, g, yMin, yMax, h, Trunc(g.leftEdge))
  {
    var start := Trunc(g.leftEdge);
    var points := [];
    var px := start;
    assert Prepend([], Trace(smooth, g, yMin, yMax, h, start)) == Trace(smooth, g, yMin, yMax, h, start) by {
      var r := Trace(smooth, g, yMin, yMax, h, start);
      if r.Ok? {
        assert [] + r.value == r.value;
      }
    }
    while px < g.w
      invariant Trace(smooth, g, yMin, yMax, h, start) == Prepend(points, Trace(smooth, g, yMin, yMax, h, px))
      decreases g.w - px
    {
      var v := ValueAt(smooth, ColumnIndex(g, px));
      TraceStep(smooth, g, yMin, yMax, h, px);
      if v.Err? {
        return Err(v.error);
      }
      var y := PixelY(v.value, yMin, yMax, h);
      PrependTwice(points, Point(px as real, y), Trace(smooth, g, yMin, yMax, h, px + 1));
      points := points + [Point(px as real, y)];
      px := px + 1;
    }
    assert points + [] == points;
    return Ok(points);
  }

  /** One step of the per-pixel loop: column `px` either faults or contributes its point. */
  lemma TraceStep(smooth: seq<Sample>, g: Geometry, yMin: real, yMax: real, h: int, px: int)
    requires g.w > 0 && yMax != yMin && px < g.w
    ensures var v := ValueAt(smooth, ColumnIndex(g, px));
      Trace(smooth, g, yMin, yMax, h, px)
      == if v.Err? then Err(v.error)
         else Prepend([Point(px as real, PixelY(v.value, yMin, yMax, h))], Trace(smooth, g, yMin, yMax, h, px + 1))
  {
  }

  lemma PrependTwice(points: seq<Point>, p: Point, r: Result<seq<Point>, Fault>)
    ensures Prepend(points, Prepend([p], r)) == Prepend(points + [p], r)
  {
    if r.Ok? {
      assert points + ([p] + r.value) == (points + [p]) + r.value;
    }
  }

  /** A trace from column `px` has one point per column `px .. w - 1`, in increasing x. */
  lemma {:induction false} TraceColumns(smooth: seq<Sample>, g: Geometry, yMin: real, yMax: real, h: int, px: int)
    requires g.w > 0 && yMax != yMin
    requires Trace(smooth, g, yMin, yMax, h, px).Ok?
    ensures var pts := Trace(smooth, g, yMin, yMax, h, px).value;
      |pts| == Max(0, g.w - px) && forall k | 0 <= k < |pts| :: pts[k].x == (px + k) as real
    decreases g.w - px
  {
    if px < g.w {
      TraceColumns(smooth, g, yMin, yMax, h, px + 1);
    }
  }

  /** An interpolated value is a convex combination of present samples, so it stays in their range. */
  lemma ValueWithinRange(smooth: seq<Sample>, idx: real, lo: real, hi: real)
    requires Bounded(smooth, lo, hi)
    requires ValueAt(smooth, idx).Ok?
    ensures lo <= ValueAt(smooth, idx).value <= hi
  {
    var n := |smooth|;
    var idx0 := idx.Floor;
    var idx1 := Min(idx0 + 1, n - 1);
    if idx0 < 0 {
      assert ValueAt(smooth, idx) == Fetch(smooth, 0);
    } else {
      assert idx1 < n && idx0 < n;
      assert smooth[idx0].Some? && smooth[idx1].Some?;
      var f := idx - idx0 as real;
      assert 0.0 <= f < 1.0;
      ConvexBetween(smooth[idx0].value, smooth[idx1].value, f, lo, hi);
      assert ValueAt(smooth, idx).value == smooth[idx0].value + (smooth[idx1].value - smooth[idx0].value) * f;
    }
  }

  lemma ConvexBetween(v0: real, v1: real, f: real, lo: real, hi: real)
    requires lo <= v0 <= hi && lo <= v1 <= hi && 0.0 <= f <= 1.0
    ensures lo <= v0 + (v1 - v0) * f <= hi
  {
    var v := v0 + (v1 - v0) * f;
    var a, b := (1.0 - f) * (v0 - lo), f * (v1 - lo);
    NonNegativeProduct(1.0 - f, v0 - lo);
    NonNegativeProduct(f, v1 - lo);
    assert v - lo == a + b;
    var c, d := (1.0 - f) * (hi - v0), f * (hi - v1);
    NonNegativeProduct(1.0 - f, hi - v0);
    NonNegativeProduct(f, hi - v1);
    assert hi - v == c + d;
  }

  lemma NonNegativeProduct(a: real, b: real)
    requires a >= 0.0 && b >= 0.0
    ensures a * b >= 0.0
  {
  }

  /** At an integer index the interpolation returns the sample itself. */
  lemma ValueAtSampleIndex(smooth: seq<Sample>, k: int)
    requires AllPresent(smooth) && 0 <= k < |smooth|
    ensures ValueAt(smooth, k as real) == Ok(smooth[k].value)
  {
    var idx := k as real;
    var idx0 := idx.Floor;
    assert idx0 == k;
    var idx1 := Min(idx0 + 1, |smooth| - 1);
    assert 0 <= idx1 < |smooth| && smooth[idx0].Some? && smooth[idx1].Some?;
    var f := idx - idx0 as real;
    assert f == 0.0;
    assert ValueAt(smooth, idx).Ok?;
    assert ValueAt(smooth, idx).value == smooth[idx0].value + (smooth[idx1].value - smooth[idx0].value) * f;
    assert (smooth[idx1].value - smooth[idx0].value) * f == 0.0;
  }

  /** Every column's y lies between the pixels of the smoothed data's bounds. */
  lemma {:induction false} TraceWithinRange(smooth: seq<Sample>, g: Geometry, yMin: real, yMax: real, h: int, px: int, lo: real, hi: real)
    requires g.w > 0 && yMin < yMax && h >= 0
    requires Bounded(smooth, lo, hi)
    requires Trace(smooth, g, yMin, yMax, h, px).Ok?
    ensures forall p | p in Trace(smooth, g, yMin, yMax, h, px).value ::
      PixelY(hi, yMin, yMax, h) <= p.y <= PixelY(lo, yMin, yMax, h)
    decreases g.w - px
  {
    if px < g.w {
      var v := ValueAt(smooth, ColumnIndex(g, px)).value;
      ValueWithinRange(smooth, ColumnIndex(g, px), lo, hi);
      PixelYMonotone(v, hi, yMin, yMax, h);
      PixelYMonotone(lo, v, yMin, yMax, h);
      TraceWithinRange(smooth, g, yMin, yMax, h, px + 1, lo, hi);
    }
  }

  /** Every column left of the right edge shows an index strictly before the last sample. */
  lemma ColumnIndexBeforeLast(w: int, seconds: int, maxPoints: int, n: int, px: int)
    requires w > 0 && seconds > 0 && px < w
    ensures ColumnIndex(Layout(w, seconds, maxPoints, n), px) < (n - 1) as real
  {
    var g := Layout(w, seconds, maxPoints, n);
    var t := (seconds * (w - px)) as real / w as real;
    assert t > 0.0;
    var tp := g.timePerPoint;
    assert g.filledSeconds / tp == (n - 1) as real;
    assert (g.filledSeconds - t) / tp == g.filledSeconds / tp - t / tp;
    assert t / tp > 0.0;
  }

  /**
   * With at least as many smoothed samples as the geometry assumes, no column reads past the
   * end, and a gap-free series never faults.
   */
  lemma {:induction false} TraceFaults(smooth: seq<Sample>, w: int, seconds: int, maxPoints: int, n: int,
                                       yMin: real, yMax: real, h: int, px: int)
    requires w > 0 && seconds > 0 && yMax != yMin
    requires 1 <= n <= |smooth|
    ensures Trace(smooth, Layout(w, seconds, maxPoints, n), yMin, yMax, h, px) != Err(IndexOutOfRange)
    ensures AllPresent(smooth) ==> Trace(smooth, Layout(w, seconds, maxPoints, n), yMin, yMax, h, px).Ok?
    decreases w - px
  {
    if px < w {
      ColumnIndexBeforeLast(w, seconds, maxPoints, n, px);
      TraceFaults(smooth, w, seconds, maxPoints, n, yMin, yMax, h, px + 1);
    }
  }

  /** A column whose value cannot be computed makes the trace from any column left of it fail. */
  lemma {:induction false} TraceFailsIfColumnFails(smooth: seq<Sample>, g: Geometry, yMin: real, yMax: real, h: int, px: int, q: int)
    requires g.w > 0 && yMax != yMin && px <= q < g.w
    requires ValueAt(smooth, ColumnIndex(g, q)).Err?
    ensures Trace(smooth, g, yMin, yMax, h, px).Err?
    decreases q - px
  {
    if px < q {
      TraceFailsIfColumnFails(smooth, g, yMin, yMax, h, px + 1, q);
    }
  }

  /** On a gap-free series the only fault a trace can end with is a read past the end. */
  lemma {:induction false} GapFreeFaultIsIndex(smooth: seq<Sample>, g: Geometry, yMin: real, yMax: real, h: int, px: int)
    requires g.w > 0 && yMax != yMin && AllPresent(smooth)
    ensures Trace(smooth, g, yMin, yMax, h, px) != Err(MissingSample)
    decreases g.w - px
  {
    if px < g.w {
      GapFreeFaultIsIndex(smooth, g, yMin, yMax, h, px + 1);
    }
  }
}
