/**
 * The drawing steps the single- and the dual-series graph share: grid lines, title, axis
 * labels, the fill polygon, the line segments, the one-sample marker and the legend. Each
 * loop of the source is a method proved equal to a function that builds the same list.
 */
module ChartParts {
  import opened Wrappers
  import opened Canvas
  import opened Smoothing
  import opened TimeMapping

  /** What one redraw leaves on the canvas, and the exception that cut it short, if any. */
  datatype Frame = Frame(prims: seq<Primitive>, raised: Option<Fault>)

  /** The samples a graph counts as data: present and non-zero, in order. */
  function ValidValues(data: seq<Sample>): (r: seq<real>)
    ensures forall x :: x in r <==> Some(x) in data && x != 0.0
  {
    if data == [] then [] else (if data[0].Some? && data[0].value != 0.0 then [data[0].value] else []) + ValidValues(data[1..])
  }

  /** Some primitive is the "N/A" placeholder. */
  predicate ShowsPlaceholder(prims: seq<Primitive>) {
    exists p | p in prims :: p.Text? && p.content == NotAvailable
  }

  lemma PlaceholderConcat(a: seq<Primitive>, b: seq<Primitive>)
    ensures ShowsPlaceholder(a + b) <==> ShowsPlaceholder(a) || ShowsPlaceholder(b)
  {
    if ShowsPlaceholder(a + b) {
      var p :| p in a + b && p.Text? && p.content == NotAvailable;
      assert p in a || p in b;
    }
    if ShowsPlaceholder(b) {
      var p :| p in b && p.Text? && p.content == NotAvailable;
      assert p in a + b;
    }
  }

  /** x of the i-th vertical grid line: `t = i * (seconds / 10)`, `x = w - (t / seconds) * w`. */
  function GridLineX(w: int, seconds: int, i: int): real
    requires seconds > 0
  {
    var t := i as real * (seconds as real / 10.0);
    w as real - (t / seconds as real) * w as real
  }

  /** The i-th vertical grid line sits i tenths of the width left of the right edge. */
  lemma GridLineXClosedForm(w: int, seconds: int, i: int)
    requires seconds > 0
    ensures GridLineX(w, seconds, i) == w as real - (i as real * w as real) / 10.0
  {
    var t := i as real * (seconds as real / 10.0);
    assert t / seconds as real == i as real / 10.0;
  }

  function GridLine(x: real, h: int, colour: Colour): Primitive {
    Line(Point(x, 0.0), Point(x, h as real), GridStroke(colour))
  }

  /** The vertical grid lines `0 .. k - 1` that are not left of the data. */
  function VerticalGrid(w: int, h: int, seconds: int, leftEdge: real, colour: Colour, k: nat): (r: seq<Primitive>)
    requires seconds > 0
    ensures |r| <= k
    ensures forall p | p in r ::
      (p.Line? && p.stroke == GridStroke(colour) && p.from.x == p.to.x >= leftEdge && p.from.y == 0.0 && p.to.y == h as real)
  {
    if k == 0 then []
    else
      var x := GridLineX(w, seconds, k - 1);
      VerticalGrid(w, h, seconds, leftEdge, colour, k - 1) + (if x < leftEdge then [] else [GridLine(x, h, colour)])
  }

  method DrawVerticalGrid(w: int, h: int, seconds: int, leftEdge: real, colour: Colour) returns (prims: seq<Primitive>)
    requires seconds > 0
    ensures prims == VerticalGrid(w, h, seconds, leftEdge, colour, 11)
  {
    prims := [];
    for i := 0 to 11
      invariant prims == VerticalGrid(w, h, seconds, leftEdge, colour, i)
    {
      var x := GridLineX(w, seconds, i);
      if x < leftEdge {
        continue;
      }
      prims := prims + [GridLine(x, h, colour)];
    }
  }

  /** When the data reaches the left border, all `k` vertical lines are drawn, the first one at "now". */
  lemma {:induction false} VerticalGridComplete(w: int, h: int, seconds: int, leftEdge: real, colour: Colour, k: nat)
    requires w >= 0 && seconds > 0 && k <= 11 && leftEdge <= 0.0
    ensures var r := VerticalGrid(w, h, seconds, leftEdge, colour, k);
      |r| == k && (k > 0 ==> r[0] == GridLine(w as real, h, colour))
  {
    if k > 0 {
      VerticalGridComplete(w, h, seconds, leftEdge, colour, k - 1);
      var x := GridLineX(w, seconds, k - 1);
      GridLineVisible(w, seconds, k - 1, leftEdge);
      var prev := VerticalGrid(w, h, seconds, leftEdge, colour, k - 1);
      assert VerticalGrid(w, h, seconds, leftEdge, colour, k) == prev + [GridLine(x, h, colour)];
      if k > 1 {
        assert (prev + [GridLine(x, h, colour)])[0] == prev[0];
      }
    }
  }

  /** Each of the eleven grid lines lies between the left border and the right edge; the first is on the right edge. */
  lemma GridLineVisible(w: int, seconds: int, i: int, leftEdge: real)
    requires w >= 0 && seconds > 0 && 0 <= i <= 10 && leftEdge <= 0.0
    ensures leftEdge <= GridLineX(w, seconds, i) <= w as real
    ensures i == 0 ==> GridLineX(w, seconds, i) == w as real
  {
    GridLineXClosedForm(w, seconds, i);
    NonNegativeProduct((10 - i) as real, w as real);
    NonNegativeProduct(i as real, w as real);
  }

  /** The `k` horizontal grid lines at `y = h * i // 4`, from `x0` to the right edge. */
  function HorizontalGrid(x0: real, w: int, h: int, colour: Colour, k: nat): (r: seq<Primitive>)
    requires h >= 0
    ensures |r| == k
    ensures forall i | 0 <= i < k :: r[i] == Line(Point(x0, ((h * i) / 4) as real), Point(w as real, ((h * i) / 4) as real), GridStroke(colour))
  {
    if k == 0 then []
    else
      var y := ((h * (k - 1)) / 4) as real;
      HorizontalGrid(x0, w, h, colour, k - 1) + [Line(Point(x0, y), Point(w as real, y), GridStroke(colour))]
  }

  method DrawHorizontalGrid(x0: real, w: int, h: int, colour: Colour) returns (prims: seq<Primitive>)
    requires h >= 0
    ensures prims == HorizontalGrid(x0, w, h, colour, 5)
  {
    prims := [];
    for i := 0 to 5
      invariant prims == HorizontalGrid(x0, w, h, colour, i)
    {
      var y := h * i / 4;
      prims := prims + [Line(Point(x0, y as real), Point(w as real, y as real), GridStroke(colour))];
    }
  }

  /** The `k` evenly spaced vertical lines `x = w * i // 10` of the no-data grid. */
  function StaticVerticals(w: int, h: int, colour: Colour, k: nat): (r: seq<Primitive>)
    ensures |r| == k
    ensures forall i | 0 <= i < k :: r[i] == GridLine(((w * i) / 10) as real, h, colour)
  {
    if k == 0 then [] else StaticVerticals(w, h, colour, k - 1) + [GridLine(((w * (k - 1)) / 10) as real, h, colour)]
  }

  /** The grid drawn when there is nothing to plot: 11 vertical and 5 horizontal full-size lines. */
  function StaticGrid(w: int, h: int, colour: Colour): seq<Primitive>
    requires h >= 0
  {
    StaticVerticals(w, h, colour, 11) + HorizontalGrid(0.0, w, h, colour, 5)
  }

  method DrawStaticGrid(w: int, h: int, colour: Colour) returns (prims: seq<Primitive>)
    requires h >= 0
    ensures prims == StaticGrid(w, h, colour)
  {
    prims := [];
    for i := 0 to 11
      invariant prims == StaticVerticals(w, h, colour, i)
    {
      var x := w * i / 10;
      prims := prims + [GridLine(x as real, h, colour)];
    }
    for i := 0 to 5
      invariant prims == StaticVerticals(w, h, colour, 11) + HorizontalGrid(0.0, w, h, colour, i)
    {
      var y := h * i / 4;
      prims := prims + [Line(Point(0.0, y as real), Point(w as real, y as real), GridStroke(colour))];
    }
  }

  /** The static grid spans the whole surface: 16 lines, the outer vertical ones on x = 0 and x = w. */
  lemma StaticGridSpansSurface(w: int, h: int, colour: Colour)
    requires w >= 0 && h >= 0
    ensures var r := StaticGrid(w, h, colour);
      |r| == 16 && r[0] == GridLine(0.0, h, colour) && r[10] == GridLine(w as real, h, colour)
      && forall p | p in r :: p.Line? && p.stroke == GridStroke(colour)
  {
    var r := StaticGrid(w, h, colour);
    assert r[10] == StaticVerticals(w, h, colour, 11)[10];
    assert (w * 10) / 10 == w;
  }

  /** The optional title in the top-left corner. */
  function Title(caption: string, labelColour: Colour): seq<Primitive> {
    if caption != "" then [Text(Point(10.0, 10.0), NorthWest, Caption(caption), labelColour, TitleFont)] else []
  }

  /** The 10 px vertical mark at the right edge that stands for a single sample at height `y`. */
  function Marker(w: int, y: real, colour: Colour): Primitive {
    Line(Point((w - 1) as real, y - 5.0), Point((w - 1) as real, y + 5.0), SeriesStroke(colour))
  }

  function NotAvailableText(w: int, h: int, labelColour: Colour): Primitive {
    Text(Point((w / 2) as real, (h / 2) as real), Centre, NotAvailable, labelColour, PlaceholderFont)
  }

  /** None of the grid, title, axis-label or plot steps ever draws the placeholder. */
  lemma PartsWithoutPlaceholder(w: int, h: int, seconds: int, leftEdge: real, yMin: real, yMax: real,
                                grid: Colour, caption: string, labelColour: Colour, points: seq<Point>, colour: Colour)
    requires seconds > 0 && h >= 0
    ensures !ShowsPlaceholder(VerticalGrid(w, h, seconds, leftEdge, grid, 11))
    ensures !ShowsPlaceholder(HorizontalGrid(leftEdge, w, h, grid, 5))
    ensures !ShowsPlaceholder(Title(caption, labelColour))
    ensures !ShowsPlaceholder(Area(points, h, colour))
    ensures !ShowsPlaceholder(YLabels(leftEdge, h, yMin, yMax, labelColour, 5))
    ensures !ShowsPlaceholder(XLabels(w, h, seconds, leftEdge, labelColour, 6))
  {
    var hg := HorizontalGrid(leftEdge, w, h, grid, 5);
    forall p | p in hg ensures p.Line? {
      var i :| 0 <= i < 5 && hg[i] == p;
    }
    var yl := YLabels(leftEdge, h, yMin, yMax, labelColour, 5);
    forall p | p in yl ensures p.content.AxisValue? {
      var i :| 0 <= i < 5 && yl[i] == p;
    }
  }

  /** The area under the line: the points closed down to the bottom edge at both ends. */
  function FillPolygon(points: seq<Point>, h: int, colour: Colour): (p: Primitive)
    requires |points| > 0
    ensures p.Polygon? && |p.vertices| == |points| + 2 && p.vertices[1..|points| + 1] == points
    ensures p.vertices[0] == Point(points[0].x, h as real)
    ensures p.vertices[|points| + 1] == Point(points[|points| - 1].x, h as real)
  {
    Polygon([Point(points[0].x, h as real)] + points + [Point(points[|points| - 1].x, h as real)], colour)
  }

  /** The segments `points[i - 1] -> points[i]` for `1 <= i < k`. */
  function Segments(points: seq<Point>, colour: Colour, k: nat): (r: seq<Primitive>)
    requires k <= |points|
    ensures forall p | p in r :: p.Line? && p.stroke == SeriesStroke(colour)
  {
    if k <= 1 then [] else Segments(points, colour, k - 1) + [Line(points[k - 2], points[k - 1], SeriesStroke(colour))]
  }

  /** The plotted series: the filled area under it, then its line, or nothing without points. */
  function Area(points: seq<Point>, h: int, colour: Colour): (r: seq<Primitive>)
    ensures forall p | p in r :: (p.Polygon? && p.fill == colour) || (p.Line? && p.stroke == SeriesStroke(colour))
  {
    if |points| == 0 then [] else [FillPolygon(points, h, colour)] + Segments(points, colour, |points|)
  }

  method DrawSegments(points: seq<Point>, colour: Colour) returns (prims: seq<Primitive>)
    ensures prims == Segments(points, colour, |points|)
  {
    prims := [];
    if |points| > 1 {
      for i := 1 to |points|
        invariant prims == Segments(points, colour, i)
      {
        prims := prims + [Line(points[i - 1], points[i], SeriesStroke(colour))];
      }
    }
  }

  /** The line is `|points| - 1` segments, each joining two consecutive points. */
  lemma {:induction false} SegmentsJoinNeighbours(points: seq<Point>, colour: Colour, k: nat)
    requires 1 <= k <= |points|
    ensures var r := Segments(points, colour, k);
      |r| == k - 1 && forall i | 0 <= i < k - 1 :: r[i] == Line(points[i], points[i + 1], SeriesStroke(colour))
  {
    if k > 1 {
      SegmentsJoinNeighbours(points, colour, k - 1);
    }
  }

  /** The value of the i-th y-axis label: from `yMax` at the top down to `yMin` at the bottom. */
  function YLabelValue(yMin: real, yMax: real, i: int): real {
    yMax - (yMax - yMin) * i as real / 4.0
  }

  /** Floor division by 4 of a non-negative integer agrees with the floor of the real quotient. */
  lemma QuarterFloor(n: int)
    requires n >= 0
    ensures (n / 4) as real == (n as real / 4.0).Floor as real
  {
    var q, m := n / 4, n % 4;
    var x := n as real / 4.0;
    assert n == 4 * q + m && 0 <= m < 4;
    assert q as real <= x < q as real + 1.0;
    var f := x.Floor;
    assert f as real <= x < f as real + 1.0;
    assert q - 1 < f < q + 1;
  }

  /** The `k` y-axis labels, at `h * i // 4`, 5 px right of the left edge of the data. */
  function YLabels(leftEdge: real, h: int, yMin: real, yMax: real, labelColour: Colour, k: nat): (r: seq<Primitive>)
    ensures |r| == k
    ensures forall i | 0 <= i < k :: r[i] == Text(Point(leftEdge + 5.0, ((h * i) / 4) as real), NorthWest,
                                                   AxisValue(YLabelValue(yMin, yMax, i)), labelColour, AxisFont)
  {
    if k == 0 then []
    else YLabels(leftEdge, h, yMin, yMax, labelColour, k - 1)
         + [Text(Point(leftEdge + 5.0, ((h * (k - 1)) / 4) as real), NorthWest,
                 AxisValue(YLabelValue(yMin, yMax, k - 1)), labelColour, AxisFont)]
  }

  method DrawYLabels(leftEdge: real, h: int, yMin: real, yMax: real, labelColour: Colour) returns (prims: seq<Primitive>)
    ensures prims == YLabels(leftEdge, h, yMin, yMax, labelColour, 5)
  {
    prims := [];
    for i := 0 to 5
      invariant prims == YLabels(leftEdge, h, yMin, yMax, labelColour, i)
    {
      var yVal := yMax - (yMax - yMin) * i as real / 4.0;
      var y := h * i / 4;
      prims := prims + [Text(Point(leftEdge + 5.0, y as real), NorthWest, AxisValue(yVal), labelColour, AxisFont)];
    }
  }

  /**
   * Each y-axis label names the value that the series' value-to-pixel map sends exactly to
   * `h * i / 4`; the label is drawn at the floor of that pixel.
   */
  lemma YLabelsAgreeWithScale(yMin: real, yMax: real, h: int, i: int)
    requires yMin != yMax && h >= 0 && 0 <= i
    ensures PixelY(YLabelValue(yMin, yMax, i), yMin, yMax, h) == (h * i) as real / 4.0
    ensures ((h * i) / 4) as real == ((h * i) as real / 4.0).Floor as real
  {
    var d := yMax - yMin;
    var v := YLabelValue(yMin, yMax, i);
    var f := 1.0 - i as real / 4.0;
    assert v - yMin == d * f;
    assert (v - yMin) / d == f;
    assert h as real - f * h as real == (h * i) as real / 4.0;
    assert h * i >= 0 by {
      NonNegativeProduct(h as real, i as real);
    }
    QuarterFloor(h * i);
  }

  /** The text of the i-th x-axis label at `t` seconds: "now" at t = 0, else `seconds - t` seconds. */
  function XLabelContent(seconds: int, t: int): TextContent {
    if t > 0 then SecondsLabel(seconds - t) else Now
  }

  /** x of the x-axis label at `t` seconds ago. */
  function XLabelX(w: int, seconds: int, t: int): real
    requires seconds > 0
  {
    w as real - (t as real / seconds as real) * w as real
  }

  /** The x-axis labels `0 .. k - 1` (`t = seconds * i // 5`) that are not left of the data. */
  function XLabels(w: int, h: int, seconds: int, leftEdge: real, labelColour: Colour, k: nat): (r: seq<Primitive>)
    requires seconds > 0
    ensures |r| <= k
    ensures forall p | p in r ::
      (p.Text? && p.at.x >= leftEdge && p.at.y == (h - 2) as real && p.anchor == SouthWest && (p.content.Now? || p.content.SecondsLabel?))
  {
    if k == 0 then []
    else
      var t := (seconds * (k - 1)) / 5;
      var x := XLabelX(w, seconds, t);
      XLabels(w, h, seconds, leftEdge, labelColour, k - 1)
      + (if x < leftEdge then []
         else [Text(Point(x, (h - 2) as real), SouthWest, XLabelContent(seconds, t), labelColour, AxisFont)])
  }

  method DrawXLabels(w: int, h: int, seconds: int, leftEdge: real, labelColour: Colour) returns (prims: seq<Primitive>)
    requires seconds > 0
    ensures prims == XLabels(w, h, seconds, leftEdge, labelColour, 6)
  {
    prims := [];
    for i := 0 to 6
      invariant prims == XLabels(w, h, seconds, leftEdge, labelColour, i)
    {
      var t := seconds * i / 5;
      var x := XLabelX(w, seconds, t);
      if x < leftEdge {
        continue;
      }
      var content := if t > 0 then SecondsLabel(seconds - t) else Now;
      prims := prims + [Text(Point(x, (h - 2) as real), SouthWest, content, labelColour, AxisFont)];
    }
  }

  /** The first x-axis label is "now" on the right edge whenever the data reaches it. */
  lemma XLabelsStartWithNow(w: int, h: int, seconds: int, leftEdge: real, labelColour: Colour, k: nat)
    requires seconds > 0 && 1 <= k && leftEdge <= w as real
    ensures var r := XLabels(w, h, seconds, leftEdge, labelColour, k);
      |r| >= 1 && r[0] == Text(Point(w as real, (h - 2) as real), SouthWest, Now, labelColour, AxisFont)
    decreases k
  {
    if k == 1 {
      assert (seconds * 0) / 5 == 0;
      assert XLabelX(w, seconds, 0) == w as real;
    } else {
      XLabelsStartWithNow(w, h, seconds, leftEdge, labelColour, k - 1);
      var prev := XLabels(w, h, seconds, leftEdge, labelColour, k - 1);
      assert XLabels(w, h, seconds, leftEdge, labelColour, k)[0] == prev[0];
    }
  }

  datatype LegendEntry = LegendEntry(text: string, colour: Colour)

  /** Legend rows `0 .. k - 1`: a swatch and its text, stacked from the top-right corner. */
  function Legend(w: int, entries: seq<LegendEntry>, labelColour: Colour, k: nat): (r: seq<Primitive>)
    requires k <= |entries|
    ensures forall p | p in r :: p.Rect? || (p.Text? && p.content.Caption?)
  {
    if k == 0 then []
    else
      var i := k - 1;
      var x, y := (w - 120) as real, 10.0;
      Legend(w, entries, labelColour, k - 1)
      + [Rect(Point(x, y + (i * 22) as real), Point(x + 18.0, y + 16.0 + (i * 22) as real), entries[i].colour),
         Text(Point(x + 25.0, y + 8.0 + (i * 22) as real), West, Caption(entries[i].text), labelColour, LegendFont)]
  }

  method DrawLegend(w: int, entries: seq<LegendEntry>, labelColour: Colour) returns (prims: seq<Primitive>)
    ensures prims == Legend(w, entries, labelColour, |entries|)
  {
    prims := [];
    if |entries| > 0 {
      var legendX, legendY := (w - 120) as real, 10.0;
      for i := 0 to |entries|
        invariant prims == Legend(w, entries, labelColour, i)
      {
        prims := prims + [Rect(Point(legendX, legendY + (i * 22) as real), Point(legendX + 18.0, legendY + 16.0 + (i * 22) as real), entries[i].colour),
                          Text(Point(legendX + 25.0, legendY + 8.0 + (i * 22) as real), West, Caption(entries[i].text), labelColour, LegendFont)];
      }
    }
  }

  /**
   * Legend row i is a swatch from (w - 120, 10 + 22i) to (w - 102, 26 + 22i) in the entry's
   * colour, followed by its text anchored at (w - 95, 18 + 22i), in list order.
   */
  lemma {:induction false} LegendRows(w: int, entries: seq<LegendEntry>, labelColour: Colour, k: nat)
    requires k <= |entries|
    ensures var r := Legend(w, entries, labelColour, k);
      |r| == 2 * k
      && forall i | 0 <= i < k ::
        r[2 * i] == Rect(Point((w - 120) as real, (10 + 22 * i) as real), Point((w - 102) as real, (26 + 22 * i) as real), entries[i].colour)
        && r[2 * i + 1] == Text(Point((w - 95) as real, (18 + 22 * i) as real), West, Caption(entries[i].text), labelColour, LegendFont)
  {
    if k > 0 {
      LegendRows(w, entries, labelColour, k - 1);
      var i := k - 1;
      var r := Legend(w, entries, labelColour, k);
      var prev := Legend(w, entries, labelColour, i);
      var swatch := Rect(Point((w - 120) as real, (10 + 22 * i) as real), Point((w - 102) as real, (26 + 22 * i) as real), entries[i].colour);
      var caption := Text(Point((w - 95) as real, (18 + 22 * i) as real), West, Caption(entries[i].text), labelColour, LegendFont);
      assert r == prev + [swatch, caption];
      forall j | 0 <= j < i
        ensures r[2 * j] == prev[2 * j] && r[2 * j + 1] == prev[2 * j + 1]
      {
      }
    }
  }
}
