/**
 * The multi-series scrolling graph (used for the CPU and GPU temperatures): all series share
 * one time axis, computed from the largest buffer capacity and the longest buffer, and are
 * drawn in order, the first one filled, followed by the axis labels and a legend.
 */
module DualLineGraph {
  import opened Wrappers
  import opened Canvas
  import opened Smoothing
  import opened TimeMapping
  import opened ChartParts
  import opened SampleBuffer

  datatype DualConfig = DualConfig(
    colours: seq<Colour>, yMin: real, yMax: real, seconds: int,
    grid: Colour, title: string, labelColour: Colour, legends: seq<LegendEntry>)

  /** One buffer as a redraw sees it: its samples, oldest first, and its capacity. */
  datatype Snapshot = Snapshot(samples: seq<Sample>, maxlen: nat)

  /** Python's `max` over a non-empty list. */
  function MaxOf(s: seq<nat>): (m: nat)
    requires |s| > 0
    ensures m in s && forall x | x in s :: x <= m
  {
    if |s| == 1 then s[0]
    else
      var rest := MaxOf(s[1..]);
      assert forall x | x in s :: x == s[0] || x in s[1..];
      if s[0] >= rest then s[0] else rest
  }

  /** The longest buffer: every series is at most this long, and one is exactly this long. */
  function SharedLength(snaps: seq<Snapshot>): (n: nat)
    requires |snaps| > 0
    ensures forall i | 0 <= i < |snaps| :: |snaps[i].samples| <= n
    ensures exists i | 0 <= i < |snaps| :: |snaps[i].samples| == n
  {
    var lengths := seq(|snaps|, i requires 0 <= i < |snaps| => |snaps[i].samples|);
    var n := MaxOf(lengths);
    assert forall i | 0 <= i < |snaps| :: lengths[i] == |snaps[i].samples| && lengths[i] in lengths;
    n
  }

  /** The largest capacity (a buffer without one counts its length), attained by some series. */
  function SharedCapacity(snaps: seq<Snapshot>): (mp: nat)
    requires |snaps| > 0
    ensures forall i | 0 <= i < |snaps| :: MaxPoints(snaps[i].maxlen, |snaps[i].samples|) <= mp
    ensures exists i | 0 <= i < |snaps| :: MaxPoints(snaps[i].maxlen, |snaps[i].samples|) == mp
  {
    var capacities := seq(|snaps|, i requires 0 <= i < |snaps| => MaxPoints(snaps[i].maxlen, |snaps[i].samples|));
    var mp := MaxOf(capacities);
    assert forall i | 0 <= i < |snaps| :: capacities[i] == MaxPoints(snaps[i].maxlen, |snaps[i].samples|) && capacities[i] in capacities;
    mp
  }

  /** The time axis every series is drawn on. */
  function SharedGeometry(snaps: seq<Snapshot>, cfg: DualConfig, w: int): Geometry
    requires |snaps| > 0 && cfg.seconds > 0
  {
    Layout(w, cfg.seconds, SharedCapacity(snaps), SharedLength(snaps))
  }

  /**
   * What series `idx` adds to the canvas: the one-sample marker or nothing when it has no two
   * samples with a valid one, otherwise its line (filled underneath for the first series
   * only), or the fault its interpolation raised.
   */
  function SeriesLayer(idx: nat, data: seq<Sample>, colour: Colour, cfg: DualConfig, mode: Mode, g: Geometry, w: int, h: int)
    : (r: Result<seq<Primitive>, Fault>)
    requires cfg.yMin != cfg.yMax && g.w == w && w > 0
    ensures r.Ok? ==> forall p | p in r.value ::
      (p.Line? && p.stroke == SeriesStroke(colour)) || (p.Polygon? && p.fill == colour && idx == 0)
  {
    if |data| < 2 || |ValidValues(data)| == 0 then
      Ok(if |data| == 1 && |ValidValues(data)| > 0 && data[0].Some?
         then [Marker(w, PixelY(data[0].value, cfg.yMin, cfg.yMax, h), colour)] else [])
    else
      var trace := if w > 2 then Trace(Smooth(data, mode), g, cfg.yMin, cfg.yMax, h, Trunc(g.leftEdge)) else Ok([]);
      match trace
      case Err(e) => Err(e)
      case Ok(points) =>
        Ok((if |points| > 0 && idx == 0 then [FillPolygon(points, h, colour)] else [])
           + (if |points| > 0 then Segments(points, colour, |points|) else []))
  }

  /** Series `0 .. k - 1` drawn in order, stopping at the first that raises. */
  function Layers(snaps: seq<Snapshot>, cfg: DualConfig, mode: Mode, g: Geometry, w: int, h: int, k: nat): Frame
    requires k <= |snaps| <= |cfg.colours| && cfg.yMin != cfg.yMax && g.w == w && w > 0
  {
    if k == 0 then Frame([], None)
    else
      var prev := Layers(snaps, cfg, mode, g, w, h, k - 1);
      if prev.raised.Some? then prev
      else match SeriesLayer(k - 1, snaps[k - 1].samples, cfg.colours[k - 1], cfg, mode, g, w, h)
        case Err(e) => Frame(prev.prims, Some(e))
        case Ok(layer) => Frame(prev.prims + layer, None)
  }

  function Background(cfg: DualConfig, g: Geometry, w: int, h: int): seq<Primitive>
    requires cfg.seconds > 0 && h >= 0
  {
    VerticalGrid(w, h, cfg.seconds, g.leftEdge, cfg.grid, 11) + HorizontalGrid(g.leftEdge, w, h, cfg.grid, 5)
    + Title(cfg.title, cfg.labelColour)
  }

  function Axes(cfg: DualConfig, g: Geometry, w: int, h: int): seq<Primitive>
    requires cfg.seconds > 0
  {
    YLabels(g.leftEdge, h, cfg.yMin, cfg.yMax, cfg.labelColour, 5) + XLabels(w, h, cfg.seconds, g.leftEdge, cfg.labelColour, 6)
    + Legend(w, cfg.legends, cfg.labelColour, |cfg.legends|)
  }

  /** What one redraw of a `w` x `h` canvas leaves on it for the snapshots of all series. */
  function DualFrame(snaps: seq<Snapshot>, cfg: DualConfig, mode: Mode, w: int, h: int): Frame
    requires 0 < |snaps| <= |cfg.colours| && cfg.seconds > 0 && cfg.yMin != cfg.yMax
  {
    if w < 10 || h < 10 then Frame([], None)
    else
      var g := SharedGeometry(snaps, cfg, w);
      var layers := Layers(snaps, cfg, mode, g, w, h, |snaps|);
      if layers.raised.Some? then Frame(Background(cfg, g, w, h) + layers.prims, layers.raised)
      else Frame(Background(cfg, g, w, h) + layers.prims + Axes(cfg, g, w, h), None)
  }

  /** The buffers' current contents and capacities. */
  function Snapshots(sources: seq<SampleWindow>): (r: seq<Snapshot>)
    reads sources
    ensures |r| == |sources| && forall i | 0 <= i < |sources| :: r[i] == Snapshot(sources[i].items, sources[i].maxlen)
  {
    if sources == [] then [] else [Snapshot(sources[0].items, sources[0].maxlen)] + Snapshots(sources[1..])
  }

  class Graph {
    const sources: seq<SampleWindow>
    const config: DualConfig
    var smoothing: Mode
    /** The canvas' display list, in drawing order. */
    var items: seq<Primitive>

    constructor (sources: seq<SampleWindow>, config: DualConfig, smoothing: Mode)
      ensures this.sources == sources && this.config == config && this.smoothing == smoothing && items == []
    {
      this.sources := sources;
      this.config := config;
      this.smoothing := smoothing;
      items := [];
    }

    /** Clears the canvas and draws every series; a fault is the exception the drawing raised. */
    method Redraw(w: int, h: int) returns (raised: Option<Fault>)
      requires 0 < |sources| <= |config.colours| && config.seconds > 0 && config.yMin != config.yMax
      modifies this`items
      ensures DualFrame(Snapshots(sources), config, smoothing, w, h) == Frame(items, raised)
    {
      items := [];
      if w < 10 || h < 10 {
        return None;
      }
      var snaps := Snapshots(sources);
      var prims;
      prims, raised := DrawFrame(snaps, w, h);
      items := items + prims;
      assert Snapshots(sources) == snaps;
    }

    /** Everything a redraw of a canvas of at least 10 x 10 draws, in order. */
    method DrawFrame(snaps: seq<Snapshot>, w: int, h: int) returns (prims: seq<Primitive>, raised: Option<Fault>)
      requires 0 < |snaps| <= |config.colours| && config.seconds > 0 && config.yMin != config.yMax
      requires w >= 10 && h >= 10
      ensures DualFrame(snaps, config, smoothing, w, h) == Frame(prims, raised)
    {
      var g := SharedGeometry(snaps, config, w);
      var verticals := DrawVerticalGrid(w, h, config.seconds, g.leftEdge, config.grid);
      var horizontals := DrawHorizontalGrid(g.leftEdge, w, h, config.grid);
      prims := verticals + horizontals + Title(config.title, config.labelColour);
      var layers;
      layers, raised := DrawLayers(snaps, g, w, h);
      prims := prims + layers;
      if raised.Some? {
        return;
      }
      var yLabels := DrawYLabels(g.leftEdge, h, config.yMin, config.yMax, config.labelColour);
      var xLabels := DrawXLabels(w, h, config.seconds, g.leftEdge, config.labelColour);
      var legend := DrawLegend(w, config.legends, config.labelColour);
      prims := prims + (yLabels + xLabels + legend);
    }

    /** The loop over the series, in order, stopping at the first one that raises. */
    method DrawLayers(snaps: seq<Snapshot>, g: Geometry, w: int, h: int) returns (prims: seq<Primitive>, raised: Option<Fault>)
      requires 0 < |snaps| <= |config.colours| && config.yMin != config.yMax && g.w == w && w > 0
      ensures Layers(snaps, config, smoothing, g, w, h, |snaps|) == Frame(prims, raised)
    {
      prims, raised := [], None;
      var idx := 0;
      while idx < |snaps| && raised.None?
        invariant idx <= |snaps|
        invariant Layers(snaps, config, smoothing, g, w, h, idx) == Frame(prims, raised)
        invariant raised.Some? ==> Layers(snaps, config, smoothing, g, w, h, |snaps|) == Frame(prims, raised)
      {
        prims, raised := DrawNextLayer(snaps, g, w, h, idx, prims);
        idx := idx + 1;
      }
    }

    /** One iteration of the series loop: draws series `idx` after the fault-free series before it. */
    method DrawNextLayer(snaps: seq<Snapshot>, g: Geometry, w: int, h: int, idx: nat, before: seq<Primitive>)
      returns (prims: seq<Primitive>, raised: Option<Fault>)
      requires idx < |snaps| <= |config.colours| && config.yMin != config.yMax && g.w == w && w > 0
      requires Layers(snaps, config, smoothing, g, w, h, idx) == Frame(before, None)
      ensures Layers(snaps, config, smoothing, g, w, h, idx + 1) == Frame(prims, raised)
      ensures raised.Some? ==> Layers(snaps, config, smoothing, g, w, h, |snaps|) == Frame(prims, raised)
    {
      var layer := DrawSeries(idx, snaps[idx].samples, config.colours[idx], g, w, h);
      LayersStep(snaps, config, smoothing, g, w, h, idx);
      if layer.Err? {
        LayersKeepFirstFault(snaps, config, smoothing, g, w, h, idx + 1, |snaps|);
        return before, Some(layer.error);
      }
      return before + layer.value, None;
    }

    /** Draws one series: the marker or nothing without data, else its (filled) line. */
    method DrawSeries(idx: nat, data: seq<Sample>, colour: Colour, g: Geometry, w: int, h: int)
      returns (layer: Result<seq<Primitive>, Fault>)
      requires config.yMin != config.yMax && g.w == w && w > 0
      ensures layer == SeriesLayer(idx, data, colour, config, smoothing, g, w, h)
    {
      var n := |data|;
      var validData := ValidValues(data);
      if n < 2 || |validData| == 0 {
        if n == 1 && |validData| > 0 {
          assert validData[0] in validData;
          var v := data[n - 1].value;
          var y := PixelY(v, config.yMin, config.yMax, h);
          return Ok([Marker(w, y, colour)]);
        }
        return Ok([]);
      }
      var smoothData := ApplySmoothing(data, smoothing);
      var points: seq<Point> := [];
      if w > 2 {
        var trace := Interpolate(smoothData, g, config.yMin, config.yMax, h);
        if trace.Err? {
          return Err(trace.error);
        }
        points := trace.value;
      }
      var prims: seq<Primitive> := [];
      if |points| > 0 && idx == 0 {
        prims := prims + [FillPolygon(points, h, colour)];
      }
      if |points| > 0 {
        var line := DrawSegments(points, colour);
        prims := prims + line;
      }
      assert prims == (if |points| > 0 && idx == 0 then [FillPolygon(points, h, colour)] else [])
                      + (if |points| > 0 then Segments(points, colour, |points|) else []);
      return Ok(prims);
    }
  }

  /** Drawing one more series after a fault-free prefix. */
  lemma LayersStep(snaps: seq<Snapshot>, cfg: DualConfig, mode: Mode, g: Geometry, w: int, h: int, k: nat)
    requires k < |snaps| <= |cfg.colours| && cfg.yMin != cfg.yMax && g.w == w && w > 0
    requires Layers(snaps, cfg, mode, g, w, h, k).raised.None?
    ensures var prev := Layers(snaps, cfg, mode, g, w, h, k);
      Layers(snaps, cfg, mode, g, w, h, k + 1)
      == match SeriesLayer(k, snaps[k].samples, cfg.colours[k], cfg, mode, g, w, h)
         case Err(e) => Frame(prev.prims, Some(e))
         case Ok(layer) => Frame(prev.prims + layer, None)
  {
  }

  /** Once a series has raised, the later ones are not drawn and the fault is the redraw's. */
  lemma {:induction false} LayersKeepFirstFault(snaps: seq<Snapshot>, cfg: DualConfig, mode: Mode, g: Geometry, w: int, h: int, j: nat, k: nat)
    requires j <= k <= |snaps| <= |cfg.colours| && cfg.yMin != cfg.yMax && g.w == w && w > 0
    requires Layers(snaps, cfg, mode, g, w, h, j).raised.Some?
    ensures Layers(snaps, cfg, mode, g, w, h, k) == Layers(snaps, cfg, mode, g, w, h, j)
    decreases k - j
  {
    if j < k {
      LayersKeepFirstFault(snaps, cfg, mode, g, w, h, j, k - 1);
    }
  }

  /** A redraw leaves the canvas blank exactly when it is narrower or shorter than 10 px. */
  lemma DualBlankExactlyWhenTooSmall(snaps: seq<Snapshot>, cfg: DualConfig, mode: Mode, w: int, h: int)
    requires 0 < |snaps| <= |cfg.colours| && cfg.seconds > 0 && cfg.yMin != cfg.yMax
    ensures var f := DualFrame(snaps, cfg, mode, w, h);
      (f.prims == [] && f.raised == None) <==> (w < 10 || h < 10)
  {
    if w >= 10 && h >= 10 {
      var g := SharedGeometry(snaps, cfg, w);
      assert |HorizontalGrid(g.leftEdge, w, h, cfg.grid, 5)| == 5;
    }
  }

  /**
   * A series with fewer than two samples, or none present and non-zero, adds only the marker
   * at x = w - 1 when it has exactly one valid sample, and nothing otherwise.
   */
  lemma SeriesWithoutPlot(idx: nat, data: seq<Sample>, colour: Colour, cfg: DualConfig, mode: Mode, g: Geometry, w: int, h: int)
    requires cfg.yMin != cfg.yMax && g.w == w && w > 0
    requires |data| < 2 || |ValidValues(data)| == 0
    ensures var r := SeriesLayer(idx, data, colour, cfg, mode, g, w, h);
      r.Ok? && |r.value| <= 1 && (|r.value| == 1 <==> |data| == 1 && data[0].Some? && data[0].value != 0.0)
    ensures var r := SeriesLayer(idx, data, colour, cfg, mode, g, w, h);
      |r.value| == 1 ==> r.value[0] == Line(Point((w - 1) as real, PixelY(data[0].value, cfg.yMin, cfg.yMax, h) - 5.0),
                                            Point((w - 1) as real, PixelY(data[0].value, cfg.yMin, cfg.yMax, h) + 5.0), SeriesStroke(colour))
  {
    if |data| == 1 && data[0].Some? && data[0].value != 0.0 {
      assert data[0].value in ValidValues(data);
    }
    if |data| == 1 && |ValidValues(data)| > 0 {
      var r := ValidValues(data);
      assert r[0] in r;
    }
  }

  /** No step of this graph draws the "N/A" placeholder, whatever the buffers hold. */
  lemma NeverShowsPlaceholder(snaps: seq<Snapshot>, cfg: DualConfig, mode: Mode, w: int, h: int)
    requires 0 < |snaps| <= |cfg.colours| && cfg.seconds > 0 && cfg.yMin != cfg.yMax
    ensures !ShowsPlaceholder(DualFrame(snaps, cfg, mode, w, h).prims)
  {
    if w >= 10 && h >= 10 {
      var g := SharedGeometry(snaps, cfg, w);
      var layers := Layers(snaps, cfg, mode, g, w, h, |snaps|);
      LayersWithoutPlaceholder(snaps, cfg, mode, g, w, h, |snaps|);
      PartsWithoutPlaceholder(w, h, cfg.seconds, g.leftEdge, cfg.yMin, cfg.yMax, cfg.grid, cfg.title, cfg.labelColour, [], cfg.grid);
      var vg := VerticalGrid(w, h, cfg.seconds, g.leftEdge, cfg.grid, 11);
      var hg := HorizontalGrid(g.leftEdge, w, h, cfg.grid, 5);
      var title := Title(cfg.title, cfg.labelColour);
      var bg := Background(cfg, g, w, h);
      PlaceholderConcat(vg, hg);
      PlaceholderConcat(vg + hg, title);
      PlaceholderConcat(bg, layers.prims);
      var yl := YLabels(g.leftEdge, h, cfg.yMin, cfg.yMax, cfg.labelColour, 5);
      var xl := XLabels(w, h, cfg.seconds, g.leftEdge, cfg.labelColour, 6);
      var legend := Legend(w, cfg.legends, cfg.labelColour, |cfg.legends|);
      assert !ShowsPlaceholder(legend);
      PlaceholderConcat(yl, xl);
      PlaceholderConcat(yl + xl, legend);
      PlaceholderConcat(bg + layers.prims, Axes(cfg, g, w, h));
    }
  }

  lemma {:induction false} LayersWithoutPlaceholder(snaps: seq<Snapshot>, cfg: DualConfig, mode: Mode, g: Geometry, w: int, h: int, k: nat)
    requires k <= |snaps| <= |cfg.colours| && cfg.yMin != cfg.yMax && g.w == w && w > 0
    ensures !ShowsPlaceholder(Layers(snaps, cfg, mode, g, w, h, k).prims)
  {
    if k > 0 {
      LayersWithoutPlaceholder(snaps, cfg, mode, g, w, h, k - 1);
      var prev := Layers(snaps, cfg, mode, g, w, h, k - 1);
      var r := SeriesLayer(k - 1, snaps[k - 1].samples, cfg.colours[k - 1], cfg, mode, g, w, h);
      if prev.raised.None? && r.Ok? {
        PlaceholderConcat(prev.prims, r.value);
      }
    }
  }

  /**
   * Every segment of a series with at least two samples joins two heights between those of
   * `hi` and `lo` when the series' samples lie in [lo, hi], whatever the shared geometry.
   */
  lemma SeriesWithinBand(idx: nat, data: seq<Sample>, colour: Colour, cfg: DualConfig, mode: Mode, g: Geometry,
                         w: int, h: int, lo: real, hi: real)
    requires cfg.yMin < cfg.yMax && g.w == w && w > 0 && h >= 0 && |data| >= 2
    requires Bounded(data, lo, hi) && (mode == Average ==> lo <= 0.0 <= hi)
    requires SeriesLayer(idx, data, colour, cfg, mode, g, w, h).Ok?
    ensures forall p | p in SeriesLayer(idx, data, colour, cfg, mode, g, w, h).value && p.Line? ::
      PixelY(hi, cfg.yMin, cfg.yMax, h) <= p.from.y <= PixelY(lo, cfg.yMin, cfg.yMax, h)
      && PixelY(hi, cfg.yMin, cfg.yMax, h) <= p.to.y <= PixelY(lo, cfg.yMin, cfg.yMax, h)
  {
    if |ValidValues(data)| > 0 && w > 2 {
      var smooth := Smooth(data, mode);
      SmoothWithinRange(data, mode, lo, hi);
      var trace := Trace(smooth, g, cfg.yMin, cfg.yMax, h, Trunc(g.leftEdge));
      var points := trace.value;
      TraceWithinRange(smooth, g, cfg.yMin, cfg.yMax, h, Trunc(g.leftEdge), lo, hi);
      if |points| > 0 {
        var segs := Segments(points, colour, |points|);
        SegmentsJoinNeighbours(points, colour, |points|);
        var r := SeriesLayer(idx, data, colour, cfg, mode, g, w, h).value;
        assert r == (if idx == 0 then [FillPolygon(points, h, colour)] else []) + segs;
        forall p | p in r && p.Line?
          ensures p.from in points && p.to in points
        {
          var i :| 0 <= i < |segs| && segs[i] == p;
          assert p == Line(points[i], points[i + 1], SeriesStroke(colour));
        }
      }
    }
  }

  /**
   * A series as long as the shared geometry assumes never reads past its end, and raises
   * nothing when it has no gaps or is averaged.
   */
  lemma SeriesFaults(idx: nat, data: seq<Sample>, colour: Colour, cfg: DualConfig, mode: Mode,
                     w: int, h: int, maxPoints: int)
    requires cfg.seconds > 0 && cfg.yMin != cfg.yMax && w > 0
    ensures var r := SeriesLayer(idx, data, colour, cfg, mode, Layout(w, cfg.seconds, maxPoints, |data|), w, h);
      r != Err(IndexOutOfRange) && (AllPresent(data) || mode == Average ==> r.Ok?)
  {
    var g := Layout(w, cfg.seconds, maxPoints, |data|);
    if |data| >= 2 && |ValidValues(data)| > 0 && w > 2 {
      TraceFaults(Smooth(data, mode), w, cfg.seconds, maxPoints, |data|, cfg.yMin, cfg.yMax, h, Trunc(g.leftEdge));
      SmoothKeepsPresence(data, mode);
    }
  }

  lemma {:induction false} LayersFaults(snaps: seq<Snapshot>, cfg: DualConfig, mode: Mode, w: int, h: int, maxPoints: int, n: int, k: nat)
    requires k <= |snaps| <= |cfg.colours| && cfg.seconds > 0 && cfg.yMin != cfg.yMax && w > 0
    requires forall i | 0 <= i < |snaps| :: |snaps[i].samples| == n
    ensures var f := Layers(snaps, cfg, mode, Layout(w, cfg.seconds, maxPoints, n), w, h, k);
      f.raised != Some(IndexOutOfRange)
      && ((forall i | 0 <= i < |snaps| :: AllPresent(snaps[i].samples)) || mode == Average ==> f.raised == None)
  {
    if k > 0 {
      LayersFaults(snaps, cfg, mode, w, h, maxPoints, n, k - 1);
      SeriesFaults(k - 1, snaps[k - 1].samples, cfg.colours[k - 1], cfg, mode, w, h, maxPoints);
    }
  }

  /**
   * When all buffers have the same length (the host appends to both temperature buffers in
   * the same tick) no series reads past its end, and gap-free or averaged data never raises.
   */
  lemma EqualLengthsNeverIndexFault(snaps: seq<Snapshot>, cfg: DualConfig, mode: Mode, w: int, h: int)
    requires 0 < |snaps| <= |cfg.colours| && cfg.seconds > 0 && cfg.yMin != cfg.yMax
    requires forall i | 0 <= i < |snaps| :: |snaps[i].samples| == |snaps[0].samples|
    ensures DualFrame(snaps, cfg, mode, w, h).raised != Some(IndexOutOfRange)
    ensures (forall i | 0 <= i < |snaps| :: AllPresent(snaps[i].samples)) || mode == Average
      ==> DualFrame(snaps, cfg, mode, w, h).raised == None
  {
    if w >= 10 && h >= 10 {
      var n := SharedLength(snaps);
      assert n == |snaps[0].samples|;
      LayersFaults(snaps, cfg, mode, w, h, SharedCapacity(snaps), n, |snaps|);
    }
  }

  /**
   * The shared length can exceed a shorter series' own: with capacity 4, a 4-sample and a
   * 2-sample buffer on a 10 px canvas over 60 s, the second series reads index 2 of 2 at
   * column 7 and the redraw raises an index error.
   */
  lemma ShorterSeriesReadsPastEnd(cfg: DualConfig)
    requires 2 <= |cfg.colours| && cfg.seconds == 60 && cfg.yMin != cfg.yMax
    ensures var full := Snapshot([Some(1.0), Some(2.0), Some(3.0), Some(4.0)], 4);
      var short := Snapshot([Some(1.0), Some(2.0)], 4);
      DualFrame([full, short], cfg, NoSmoothing, 10, 10).raised == Some(IndexOutOfRange)
  {
    var full := Snapshot([Some(1.0), Some(2.0), Some(3.0), Some(4.0)], 4);
    var short := Snapshot([Some(1.0), Some(2.0)], 4);
    var snaps := [full, short];
    assert SharedLength(snaps) == 4 && SharedCapacity(snaps) == 4;
    ExampleGeometry();
    assert SharedGeometry(snaps, cfg, 10) == Geometry(10, 60, 20.0, 60.0, 0.0);
    ExampleLayers(snaps, cfg);
  }

  lemma ExampleLayers(snaps: seq<Snapshot>, cfg: DualConfig)
    requires snaps == [Snapshot([Some(1.0), Some(2.0), Some(3.0), Some(4.0)], 4), Snapshot([Some(1.0), Some(2.0)], 4)]
    requires 2 <= |cfg.colours| && cfg.seconds == 60 && cfg.yMin != cfg.yMax
    ensures Layers(snaps, cfg, NoSmoothing, Geometry(10, 60, 20.0, 60.0, 0.0), 10, 10, 2).raised == Some(IndexOutOfRange)
  {
    var g := Geometry(10, 60, 20.0, 60.0, 0.0);
    ExampleGeometry();
    var first := snaps[0].samples;
    assert AllPresent(first);
    SeriesFaults(0, first, cfg.colours[0], cfg, NoSmoothing, 10, 10, 4);
    assert SeriesLayer(0, first, cfg.colours[0], cfg, NoSmoothing, g, 10, 10).Ok?;
    assert Layers(snaps, cfg, NoSmoothing, g, 10, 10, 0) == Frame([], None);
    LayersStep(snaps, cfg, NoSmoothing, g, 10, 10, 0);
    assert Layers(snaps, cfg, NoSmoothing, g, 10, 10, 1).raised.None?;
    ShortSeriesFaults(snaps[1].samples, cfg);
    LayersStep(snaps, cfg, NoSmoothing, g, 10, 10, 1);
  }

  /** The geometry of the example: 20 s per sample, 60 s filled, data from x = 0; column 7 shows index 2.1. */
  lemma ExampleGeometry()
    ensures Layout(10, 60, 4, 4) == Geometry(10, 60, 20.0, 60.0, 0.0)
    ensures ColumnIndex(Geometry(10, 60, 20.0, 60.0, 0.0), 7) == 2.1
  {
  }

  lemma ShortSeriesFaults(short: seq<Sample>, cfg: DualConfig)
    requires short == [Some(1.0), Some(2.0)] && cfg.yMin != cfg.yMax && 2 <= |cfg.colours|
    ensures SeriesLayer(1, short, cfg.colours[1], cfg, NoSmoothing, Geometry(10, 60, 20.0, 60.0, 0.0), 10, 10) == Err(IndexOutOfRange)
  {
    var g := Geometry(10, 60, 20.0, 60.0, 0.0);
    ExampleGeometry();
    var idx := ColumnIndex(g, 7);
    assert idx.Floor == 2 by {
      var f := idx.Floor;
      assert f as real <= 2.1 < f as real + 1.0;
    }
    assert ValueAt(short, idx) == Err(IndexOutOfRange);
    TraceFailsIfColumnFails(short, g, cfg.yMin, cfg.yMax, 10, 0, 7);
    GapFreeFaultIsIndex(short, g, cfg.yMin, cfg.yMax, 10, 0);
    assert Trunc(0.0) == 0;
    assert Some(1.0) in short;
    assert 1.0 in ValidValues(short);
  }

  /**
   * With every buffer empty the shared left edge lies right of the canvas: no vertical grid
   * line and no x-axis label is drawn, and the horizontal lines and y-axis labels start
   * beyond the right edge, so only the title and the legend are visible.
   */
  lemma EmptyBuffersDrawOffCanvas(snaps: seq<Snapshot>, cfg: DualConfig, mode: Mode, w: int, h: int)
    requires 0 < |snaps| <= |cfg.colours| && cfg.seconds > 0 && cfg.yMin != cfg.yMax && w >= 10 && h >= 10
    requires forall i | 0 <= i < |snaps| :: snaps[i].samples == []
    ensures var g := SharedGeometry(snaps, cfg, w);
      g.leftEdge > w as real
      && DualFrame(snaps, cfg, mode, w, h) == Frame(Background(cfg, g, w, h) + Axes(cfg, g, w, h), None)
      && VerticalGrid(w, h, cfg.seconds, g.leftEdge, cfg.grid, 11) == []
      && XLabels(w, h, cfg.seconds, g.leftEdge, cfg.labelColour, 6) == []
  {
    var g := SharedGeometry(snaps, cfg, w);
    assert SharedLength(snaps) == 0;
    var mp := SharedCapacity(snaps);
    var tpp := g.timePerPoint;
    assert g.filledSeconds == -tpp;
    assert g.leftEdge == w as real + w as real * (tpp / cfg.seconds as real);
    assert w as real * (tpp / cfg.seconds as real) > 0.0 by {
      assert tpp / cfg.seconds as real > 0.0;
    }
    EmptyLayers(snaps, cfg, mode, g, w, h, |snaps|);
    NothingRightOfEdge(w, h, cfg, g.leftEdge, 11, 6);
  }

  lemma {:induction false} EmptyLayers(snaps: seq<Snapshot>, cfg: DualConfig, mode: Mode, g: Geometry, w: int, h: int, k: nat)
    requires k <= |snaps| <= |cfg.colours| && cfg.yMin != cfg.yMax && g.w == w && w > 0
    requires forall i | 0 <= i < |snaps| :: snaps[i].samples == []
    ensures Layers(snaps, cfg, mode, g, w, h, k) == Frame([], None)
  {
    if k > 0 {
      EmptyLayers(snaps, cfg, mode, g, w, h, k - 1);
      var data := snaps[k - 1].samples;
      assert data == [];
      assert SeriesLayer(k - 1, data, cfg.colours[k - 1], cfg, mode, g, w, h) == Ok([]);
    }
  }

  /** Grid lines and x-axis labels all lie at or left of the right edge, so none survive a left edge beyond it. */
  lemma {:induction false} NothingRightOfEdge(w: int, h: int, cfg: DualConfig, leftEdge: real, k: nat, j: nat)
    requires cfg.seconds > 0 && w >= 0 && leftEdge > w as real
    ensures VerticalGrid(w, h, cfg.seconds, leftEdge, cfg.grid, k) == []
    ensures XLabels(w, h, cfg.seconds, leftEdge, cfg.labelColour, j) == []
  {
    if k > 0 {
      NothingRightOfEdge(w, h, cfg, leftEdge, k - 1, 0);
      GridLineXClosedForm(w, cfg.seconds, k - 1);
      NonNegativeProduct((k - 1) as real, w as real);
    }
    if j > 0 {
      NothingRightOfEdge(w, h, cfg, leftEdge, 0, j - 1);
      var t := (cfg.seconds * (j - 1)) / 5;
      assert t >= 0;
      NonNegativeProduct(t as real / cfg.seconds as real, w as real);
    }
  }
}
