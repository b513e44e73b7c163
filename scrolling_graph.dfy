/**
 * The single-series scrolling graph: every redraw clears the canvas and draws the last
 * `seconds` of its sample buffer anchored to the right edge, newest sample at "now".
 */
module ScrollingGraph {
  import opened Wrappers
  import opened Canvas
  import opened Smoothing
  import opened TimeMapping
  import opened ChartParts
  import opened SampleBuffer

  /** The fixed settings of one graph: series colour, value range, visible window, grid and title. */
  datatype GraphConfig = GraphConfig(
    colour: Colour, yMin: real, yMax: real, seconds: int,
    grid: Colour, title: string, labelColour: Colour)

  /** Grid, title and the one-sample marker or the "N/A" placeholder, for a snapshot with nothing to plot. */
  function EmptyChart(data: seq<Sample>, cfg: GraphConfig, w: int, h: int): seq<Primitive>
    requires cfg.yMin != cfg.yMax && h >= 0
  {
    StaticGrid(w, h, cfg.grid) + Title(cfg.title, cfg.labelColour)
    + if |data| == 1 && |ValidValues(data)| > 0 && data[0].Some?
      then [Marker(w, PixelY(data[0].value, cfg.yMin, cfg.yMax, h), cfg.colour)]
      else [NotAvailableText(w, h, cfg.labelColour)]
  }

  /** Vertical and horizontal grid right of the data's left edge, then the title. */
  function Background(cfg: GraphConfig, g: Geometry, w: int, h: int): seq<Primitive>
    requires cfg.seconds > 0 && h >= 0
  {
    VerticalGrid(w, h, cfg.seconds, g.leftEdge, cfg.grid, 11) + HorizontalGrid(g.leftEdge, w, h, cfg.grid, 5)
    + Title(cfg.title, cfg.labelColour)
  }

  /** The five y-axis and up to six x-axis labels. */
  function Axes(cfg: GraphConfig, g: Geometry, w: int, h: int): seq<Primitive>
    requires cfg.seconds > 0
  {
    YLabels(g.leftEdge, h, cfg.yMin, cfg.yMax, cfg.labelColour, 5) + XLabels(w, h, cfg.seconds, g.leftEdge, cfg.labelColour, 6)
  }

  /** The geometry of a snapshot of `n` samples from a buffer of capacity `maxlen`. */
  function GeometryOf(data: seq<Sample>, maxlen: nat, cfg: GraphConfig, w: int): Geometry
    requires cfg.seconds > 0
  {
    Layout(w, cfg.seconds, MaxPoints(maxlen, |data|), |data|)
  }

  /** The interpolated points of the (smoothed) snapshot, one per visible column. */
  function Plot(data: seq<Sample>, maxlen: nat, cfg: GraphConfig, mode: Mode, w: int, h: int): Result<seq<Point>, Fault>
    requires cfg.seconds > 0 && cfg.yMin != cfg.yMax && w > 0
  {
    if w > 2 then Trace(Smooth(data, mode), GeometryOf(data, maxlen, cfg, w), cfg.yMin, cfg.yMax, h, Trunc(GeometryOf(data, maxlen, cfg, w).leftEdge))
    else Ok([])
  }

  /** What one redraw of a `w` x `h` canvas leaves on it for the snapshot `data`. */
  function ScrollingFrame(data: seq<Sample>, maxlen: nat, cfg: GraphConfig, mode: Mode, w: int, h: int): Frame
    requires cfg.seconds > 0 && cfg.yMin != cfg.yMax
  {
    if w < 10 || h < 10 then Frame([], None)
    else if |data| < 2 || |ValidValues(data)| == 0 then Frame(EmptyChart(data, cfg, w, h), None)
    else
      var g := GeometryOf(data, maxlen, cfg, w);
      match Plot(data, maxlen, cfg, mode, w, h)
      case Err(e) => Frame(Background(cfg, g, w, h), Some(e))
      case Ok(points) => Frame(Background(cfg, g, w, h) + Area(points, h, cfg.colour) + Axes(cfg, g, w, h), None)
  }

  class Graph {
    const source: SampleWindow
    const config: GraphConfig
    var smoothing: Mode
    /** The canvas' display list, in drawing order. */
    var items: seq<Primitive>

    constructor (source: SampleWindow, config: GraphConfig, smoothing: Mode)
      ensures this.source == source && this.config == config && this.smoothing == smoothing && items == []
    {
      this.source := source;
      this.config := config;
      this.smoothing := smoothing;
      items := [];
    }

    /** Clears the canvas and draws the current snapshot; a fault is the exception the drawing raised. */
    method Redraw(w: int, h: int) returns (raised: Option<Fault>)
      requires config.seconds > 0 && config.yMin != config.yMax
      modifies this`items
      ensures ScrollingFrame(source.items, source.maxlen, config, smoothing, w, h) == Frame(items, raised)
    {
      items := [];
      if w < 10 || h < 10 {
        return None;
      }
      var data := source.items;
      var n := |data|;
      var validData := ValidValues(data);
      if n < 2 || |validData| == 0 {
        items := DrawEmptyChart(data, w, h);
        return None;
      }
      var prims;
      prims, raised := DrawChart(data, source.maxlen, w, h);
      items := items + prims;
    }

    /** The no-data branch of a redraw: static grid, title, then the marker or "N/A". */
    method DrawEmptyChart(data: seq<Sample>, w: int, h: int) returns (prims: seq<Primitive>)
      requires config.yMin != config.yMax && h >= 0
      ensures prims == EmptyChart(data, config, w, h)
    {
      var n := |data|;
      var validData := ValidValues(data);
      prims := DrawStaticGrid(w, h, config.grid);
      prims := prims + Title(config.title, config.labelColour);
      if n == 1 && |validData| > 0 {
        assert validData[0] in validData;
        var v := data[n - 1].value;
        var y := PixelY(v, config.yMin, config.yMax, h);
        prims := prims + [Marker(w, y, config.colour)];
      } else {
        prims := prims + [NotAvailableText(w, h, config.labelColour)];
      }
    }

    /** The branch of a redraw with at least two samples, one of them valid. */
    method DrawChart(data: seq<Sample>, maxlen: nat, w: int, h: int) returns (prims: seq<Primitive>, raised: Option<Fault>)
      requires config.seconds > 0 && config.yMin != config.yMax && w >= 10 && h >= 10
      requires |data| >= 2 && |ValidValues(data)| > 0
      ensures ScrollingFrame(data, maxlen, config, smoothing, w, h) == Frame(prims, raised)
    {
      var n := |data|;
      var g := Layout(w, config.seconds, MaxPoints(maxlen, n), n);
      var verticals := DrawVerticalGrid(w, h, config.seconds, g.leftEdge, config.grid);
      var horizontals := DrawHorizontalGrid(g.leftEdge, w, h, config.grid);
      prims := verticals + horizontals + Title(config.title, config.labelColour);
      var points;
      points, raised := InterpolatePoints(data, g, w, h);
      assert raised.None? <==> Plot(data, maxlen, config, smoothing, w, h).Ok?;
      if raised.Some? {
        return;
      }
      var area := DrawArea(points, h);
      var yLabels := DrawYLabels(g.leftEdge, h, config.yMin, config.yMax, config.labelColour);
      var xLabels := DrawXLabels(w, h, config.seconds, g.leftEdge, config.labelColour);
      prims := prims + area + (yLabels + xLabels);
    }

    /** One point per visible column from the smoothed snapshot, or the fault that stopped it. */
    method InterpolatePoints(data: seq<Sample>, g: Geometry, w: int, h: int) returns (points: seq<Point>, raised: Option<Fault>)
      requires config.yMin != config.yMax && w >= 10 && g.w == w
      ensures var plot := if w > 2 then Trace(Smooth(data, smoothing), g, config.yMin, config.yMax, h, Trunc(g.leftEdge)) else Ok([]);
        (plot.Ok? ==> points == plot.value && raised == None) && (plot.Err? ==> raised == Some(plot.error))
    {
      points := [];
      raised := None;
      if w > 2 {
        var smoothData := ApplySmoothing(data, smoothing);
        var trace := Interpolate(smoothData, g, config.yMin, config.yMax, h);
        if trace.Err? {
          return [], Some(trace.error);
        }
        points := trace.value;
      }
    }

    /** The filled area and the line over it, when there are points. */
    method DrawArea(points: seq<Point>, h: int) returns (prims: seq<Primitive>)
      ensures prims == Area(points, h, config.colour)
    {
      prims := [];
      if |points| > 0 {
        prims := prims + [FillPolygon(points, h, config.colour)];
        var line := DrawSegments(points, config.colour);
        prims := prims + line;
      }
    }
  }

  /** A redraw leaves the canvas blank exactly when it is narrower or shorter than 10 px. */
  lemma BlankExactlyWhenTooSmall(data: seq<Sample>, maxlen: nat, cfg: GraphConfig, mode: Mode, w: int, h: int)
    requires cfg.seconds > 0 && cfg.yMin != cfg.yMax
    ensures var f := ScrollingFrame(data, maxlen, cfg, mode, w, h);
      (f.prims == [] && f.raised == None) <==> (w < 10 || h < 10)
  {
    var f := ScrollingFrame(data, maxlen, cfg, mode, w, h);
    if w >= 10 && h >= 10 && |data| >= 2 && |ValidValues(data)| > 0 {
      var g := GeometryOf(data, maxlen, cfg, w);
      assert |HorizontalGrid(g.leftEdge, w, h, cfg.grid, 5)| == 5;
      assert |f.prims| >= |Background(cfg, g, w, h)| >= 5;
    }
  }

  /**
   * With fewer than two samples, or none present and non-zero, the static grid and title are
   * drawn, followed by one item: the marker at x = w - 1 spanning 10 px around the sample's
   * height when there is exactly one valid sample, the "N/A" placeholder otherwise.
   */
  lemma EmptyChartShape(data: seq<Sample>, maxlen: nat, cfg: GraphConfig, mode: Mode, w: int, h: int)
    requires cfg.seconds > 0 && cfg.yMin != cfg.yMax && w >= 10 && h >= 10
    requires |data| < 2 || |ValidValues(data)| == 0
    ensures var f := ScrollingFrame(data, maxlen, cfg, mode, w, h);
      f.raised == None && f.prims[..16] == StaticGrid(w, h, cfg.grid)
      && |f.prims| == 17 + |Title(cfg.title, cfg.labelColour)|
    ensures var f := ScrollingFrame(data, maxlen, cfg, mode, w, h);
      var last := f.prims[|f.prims| - 1];
      if |data| == 1 && |ValidValues(data)| > 0 then
        data[0].Some? && data[0].value != 0.0
        && last == Line(Point((w - 1) as real, PixelY(data[0].value, cfg.yMin, cfg.yMax, h) - 5.0),
                        Point((w - 1) as real, PixelY(data[0].value, cfg.yMin, cfg.yMax, h) + 5.0), SeriesStroke(cfg.colour))
      else last == Text(Point((w / 2) as real, (h / 2) as real), Centre, NotAvailable, cfg.labelColour, PlaceholderFont)
  {
    StaticGridSpansSurface(w, h, cfg.grid);
    if |data| == 1 && |ValidValues(data)| > 0 {
      var r := ValidValues(data);
      assert r[0] in r;
    }
  }

  /** A full frame never shows the placeholder; a no-data frame shows it unless it shows the marker. */
  lemma PlaceholderExactlyWithoutData(data: seq<Sample>, maxlen: nat, cfg: GraphConfig, mode: Mode, w: int, h: int)
    requires cfg.seconds > 0 && cfg.yMin != cfg.yMax && w >= 10 && h >= 10
    ensures ShowsPlaceholder(ScrollingFrame(data, maxlen, cfg, mode, w, h).prims)
      <==> (|data| < 2 || |ValidValues(data)| == 0) && !(|data| == 1 && |ValidValues(data)| > 0)
  {
    var f := ScrollingFrame(data, maxlen, cfg, mode, w, h);
    var title := Title(cfg.title, cfg.labelColour);
    var g := GeometryOf(data, maxlen, cfg, w);
    var plot := Plot(data, maxlen, cfg, mode, w, h);
    PartsWithoutPlaceholder(w, h, cfg.seconds, g.leftEdge, cfg.yMin, cfg.yMax, cfg.grid, cfg.title, cfg.labelColour,
                            if plot.Ok? then plot.value else [], cfg.colour);
    if |data| < 2 || |ValidValues(data)| == 0 {
      var grid := StaticGrid(w, h, cfg.grid);
      StaticGridSpansSurface(w, h, cfg.grid);
      var last := f.prims[|f.prims| - 1];
      assert f.prims == grid + title + [last];
      PlaceholderConcat(grid + title, [last]);
      PlaceholderConcat(grid, title);
      if |data| == 1 && |ValidValues(data)| > 0 {
        var r := ValidValues(data);
        assert r[0] in r;
        assert last.Line?;
      } else {
        assert last in [last];
      }
    } else {
      var vg := VerticalGrid(w, h, cfg.seconds, g.leftEdge, cfg.grid, 11);
      var hg := HorizontalGrid(g.leftEdge, w, h, cfg.grid, 5);
      PlaceholderConcat(vg, hg);
      PlaceholderConcat(vg + hg, title);
      var bg := Background(cfg, g, w, h);
      if plot.Ok? {
        var area := Area(plot.value, h, cfg.colour);
        var yl := YLabels(g.leftEdge, h, cfg.yMin, cfg.yMax, cfg.labelColour, 5);
        var xl := XLabels(w, h, cfg.seconds, g.leftEdge, cfg.labelColour, 6);
        PlaceholderConcat(yl, xl);
        PlaceholderConcat(bg, area);
        PlaceholderConcat(bg + area, yl + xl);
      }
    }
  }

  /**
   * The visible window never reads past the end of the snapshot, so the only exception a
   * redraw can raise is arithmetic on a missing sample; a gap-free snapshot, or average
   * mode (which fills gaps), never raises.
   */
  lemma RedrawFaults(data: seq<Sample>, maxlen: nat, cfg: GraphConfig, mode: Mode, w: int, h: int)
    requires cfg.seconds > 0 && cfg.yMin != cfg.yMax
    ensures ScrollingFrame(data, maxlen, cfg, mode, w, h).raised != Some(IndexOutOfRange)
    ensures AllPresent(data) || mode == Average ==> ScrollingFrame(data, maxlen, cfg, mode, w, h).raised == None
  {
    if w >= 10 && h >= 10 && |data| >= 2 && |ValidValues(data)| > 0 && w > 2 {
      var smooth := Smooth(data, mode);
      var g := GeometryOf(data, maxlen, cfg, w);
      TraceFaults(smooth, w, cfg.seconds, MaxPoints(maxlen, |data|), |data|, cfg.yMin, cfg.yMax, h, Trunc(g.leftEdge));
      SmoothKeepsPresence(data, mode);
    }
  }

  /**
   * Once the buffer is full the data spans the whole width: all 11 vertical grid lines are
   * drawn and the plot has one point for each column 0 .. w - 1.
   */
  lemma FullBufferSpansWidth(data: seq<Sample>, cfg: GraphConfig, mode: Mode, w: int, h: int)
    requires cfg.seconds > 0 && cfg.yMin != cfg.yMax && w >= 10 && h >= 10 && |data| >= 2
    ensures var g := GeometryOf(data, |data|, cfg, w);
      g.leftEdge == 0.0 && |VerticalGrid(w, h, cfg.seconds, g.leftEdge, cfg.grid, 11)| == 11
    ensures var plot := Plot(data, |data|, cfg, mode, w, h);
      plot.Ok? ==> |plot.value| == w && forall k | 0 <= k < w :: plot.value[k].x == k as real
  {
    var g := GeometryOf(data, |data|, cfg, w);
    LeftEdgeWithinSurface(w, cfg.seconds, |data|, |data|);
    VerticalGridComplete(w, h, cfg.seconds, g.leftEdge, cfg.grid, 11);
    var plot := Plot(data, |data|, cfg, mode, w, h);
    if plot.Ok? {
      assert Trunc(g.leftEdge) == 0;
      TraceColumns(Smooth(data, mode), g, cfg.yMin, cfg.yMax, h, 0);
    }
  }

  /** Every plotted point lies between the heights of `hi` and `lo` when the samples lie in [lo, hi]. */
  lemma PlotWithinBand(data: seq<Sample>, maxlen: nat, cfg: GraphConfig, mode: Mode, w: int, h: int, lo: real, hi: real)
    requires cfg.seconds > 0 && cfg.yMin < cfg.yMax && w > 0 && h >= 0
    requires Bounded(data, lo, hi) && (mode == Average ==> lo <= 0.0 <= hi)
    requires Plot(data, maxlen, cfg, mode, w, h).Ok?
    ensures forall p | p in Plot(data, maxlen, cfg, mode, w, h).value ::
      PixelY(hi, cfg.yMin, cfg.yMax, h) <= p.y <= PixelY(lo, cfg.yMin, cfg.yMax, h)
  {
    if w > 2 {
      SmoothWithinRange(data, mode, lo, hi);
      var g := GeometryOf(data, maxlen, cfg, w);
      TraceWithinRange(Smooth(data, mode), g, cfg.yMin, cfg.yMax, h, Trunc(g.leftEdge), lo, hi);
    }
  }
}
