/**
 * The drawing primitives a redraw emits onto a Tk canvas. Colours and fonts are opaque
 * tags; text is kept as the value it renders, not as formatted characters.
 */
module Canvas {

  type Colour = string

  datatype Point = Point(x: real, y: real)

  /** Grid lines are 1 px wide with a 25% stipple; series lines and markers are 2 px wide. */
  datatype Stroke = GridStroke(colour: Colour) | SeriesStroke(colour: Colour)

  datatype Anchor = NorthWest | SouthWest | West | Centre

  datatype Font = TitleFont | PlaceholderFont | AxisFont | LegendFont

  datatype TextContent =
    | Caption(text: string)        // a title or a legend entry
    | NotAvailable                 // the centred "N/A" placeholder
    | AxisValue(value: real)       // a y-axis label, rendered with no decimals
    | SecondsLabel(seconds: int)   // an x-axis label "<seconds>s"
    | Now                          // the x-axis label "now"

  datatype Primitive =
    | Line(from: Point, to: Point, stroke: Stroke)
    | Polygon(vertices: seq<Point>, fill: Colour)   // 50% stipple, no outline
    | Text(at: Point, anchor: Anchor, content: TextContent, colour: Colour, font: Font)
    | Rect(corner: Point, opposite: Point, fill: Colour)
}
