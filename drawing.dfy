/**
 * The chart renderer of static/scripts.js (drawLine, drawTriangle,
 * drawLabels, drawLineChart, drawChart). The 2D context is a recorder that
 * keeps the primitives drawn, in order; each drawing method is specified by
 * the exact list of primitives it appends.
 */
module Drawing {
  import opened Wrappers
  import opened Stocks
  import opened Projection

  /** A primitive as it ends up on the canvas. A `Polyline` is a stroked path:
      `beginPath`, a `moveTo` and the `lineTo`s, then `stroke`. */
  datatype Command =
    | Line(from: Pt, to: Pt, style: string)
    | Triangle(a: Pt, b: Pt, c: Pt)
    | Text(text: string, at: Pt)
    | Polyline(style: string, vertices: seq<Pt>)

  const GRID_STYLE: string := "#BBB"

  /** `style || 'black'`: a missing or empty style strokes in black. */
  function StrokeStyle(style: Option<string>): (s: string)
    ensures s != ""
  {
    if style.Some? && style.value != "" then style.value else "black"
  }

  /** `COLORS[i]`, undefined past the palette. */
  function PaletteEntry(i: nat): Option<string>
  {
    if i < |COLORS| then Some(COLORS[i]) else None
  }

  /** Both the path and the legend swatch of series i are stroked in ColourOf(i). */
  lemma PaletteStroke(i: nat)
    ensures StrokeStyle(PaletteEntry(i)) == ColourOf(i)
  {
  }

  /** The decimal text of a number, as `fillText` shows it. */
  function Decimal(n: nat): string
  {
    var digit := ['0', '1', '2', '3', '4', '5', '6', '7', '8', '9'][n % 10];
    if n < 10 then [digit] else Decimal(n / 10) + [digit]
  }

  /** The recording 2D context. */
  class Canvas {
    var commands: seq<Command>

    constructor ()
      ensures commands == []
    {
      commands := [];
    }

    /** drawLine. */
    method DrawLine(start: Pt, end: Pt, style: Option<string>)
      modifies this
      ensures commands == old(commands) + [Line(start, end, StrokeStyle(style))]
    {
      commands := commands + [Line(start, end, StrokeStyle(style))];
    }

    /** drawTriangle: a filled triangle. */
    method DrawTriangle(a: Pt, b: Pt, c: Pt)
      modifies this
      ensures commands == old(commands) + [Triangle(a, b, c)]
    {
      commands := commands + [Triangle(a, b, c)];
    }

    /** fillText. */
    method FillText(text: string, at: Pt)
      modifies this
      ensures commands == old(commands) + [Text(text, at)]
    {
      commands := commands + [Text(text, at)];
    }

    /** beginPath with a stroke style: opens a path with no vertex yet. */
    method BeginPath(style: string)
      modifies this
      ensures commands == old(commands) + [Polyline(style, [])]
    {
      commands := commands + [Polyline(style, [])];
    }

    /** moveTo (on the empty path) or lineTo: adds a vertex to the open path. */
    method LineTo(p: Pt)
      requires commands != [] && commands[|commands| - 1].Polyline?
      modifies this
      ensures var n := |old(commands)|; var path := old(commands)[n - 1];
        commands == old(commands)[..n - 1] + [Polyline(path.style, path.vertices + [p])]
    {
      var last := commands[|commands| - 1];
      commands := commands[..|commands| - 1] + [Polyline(last.style, last.vertices + [p])];
    }
  }

  // ---------------------------------------------------------------------------
  // What each drawing step emits

  /** The axes and their arrowheads, drawn first by drawChart. */
  function AxesCommands(): seq<Command>
  {
    [ Line(Pt(GRAPH_LEFT, GRAPH_TOP - 15.0), Pt(GRAPH_LEFT, GRAPH_BOTTOM), "black"),
      Triangle(Pt(GRAPH_LEFT - 15.0, GRAPH_TOP - 15.0), Pt(GRAPH_LEFT + 15.0, GRAPH_TOP - 15.0), Pt(GRAPH_LEFT, GRAPH_TOP - 30.0)),
      Line(Pt(GRAPH_LEFT, GRAPH_BOTTOM), Pt(GRAPH_RIGHT + 15.0, GRAPH_BOTTOM), "black"),
      Triangle(Pt(GRAPH_RIGHT + 15.0, GRAPH_BOTTOM - 15.0), Pt(GRAPH_RIGHT + 15.0, GRAPH_BOTTOM + 15.0), Pt(GRAPH_RIGHT + 30.0, GRAPH_BOTTOM)) ]
  }

  /** The two axis titles. */
  function TitleCommands(): seq<Command>
  {
    [ Text("Time (Hours Ago)", Pt(GRAPH_WIDTH / 2.0 + GRAPH_LEFT, GRAPH_BOTTOM + 50.0)),
      Text("Price ($)", Pt(GRAPH_LEFT - 85.0, GRAPH_HEIGHT / 2.0 + GRAPH_TOP)) ]
  }

  const HOUR_LABEL_Y: real := GRAPH_BOTTOM + 25.0

  /** The labels "0" .. "k-1" hours ago. */
  function HourTexts(k: nat): (cs: seq<Command>)
    ensures |cs| == k
  {
    seq(k, i requires 0 <= i < k => Text(Decimal(i), Pt(HourLabelX(i), HOUR_LABEL_Y)))
  }

  /** The x-axis labels: NUM_HOURS at the left edge, then 0 .. NUM_HOURS-1. */
  function HourLabelCommands(): seq<Command>
  {
    [Text(Decimal(NUM_HOURS), Pt(GRAPH_LEFT, HOUR_LABEL_Y))] + HourTexts(NUM_HOURS)
  }

  /** One y-axis tick: its label, and for every tick but 0 a grey gridline. */
  function TickStep(t: nat, maxValue: real): seq<Command>
    requires maxValue != 0.0
  {
    var y := YCoord(t as real, maxValue);
    [Text(Decimal(t), Pt(GRAPH_LEFT - 25.0, y))]
      + (if t > 0 then [Line(Pt(GRAPH_LEFT, y), Pt(GRAPH_RIGHT, y), GRID_STYLE)] else [])
  }

  function TickCommands(ts: seq<nat>, maxValue: real): seq<Command>
    requires forall k :: 0 <= k < |ts| ==> (ts[k] as real) < maxValue
  {
    if ts == [] then [] else TickStep(ts[0], maxValue) + TickCommands(ts[1..], maxValue)
  }

  /** The commands of the ticks from i start with tick i's own. */
  lemma TickCommandsFirst(i: nat, maxValue: real)
    requires (i as real) < maxValue
    ensures TickCommands(TicksFrom(i, maxValue), maxValue)
      == TickStep(i, maxValue) + TickCommands(TicksFrom(i + TICK_STEP, maxValue), maxValue)
  {
    assert TicksFrom(i, maxValue) == [i] + TicksFrom(i + TICK_STEP, maxValue);
  }

  /** Everything drawLabels emits for a given maximum. */
  function LabelCommands(maxValue: real): seq<Command>
  {
    TitleCommands() + HourLabelCommands() + TickCommands(Ticks(maxValue), maxValue)
  }

  /** The series can be drawn: a proper time window, aligned lists, and a
      non-zero maximum wherever a value has to be placed. */
  predicate Drawable(data: seq<ChartSeries>, maxValue: real, minT: real, maxT: real)
  {
    && minT < maxT
    && (forall k :: 0 <= k < |data| ==> Aligned(data[k]))
    && (forall k :: 0 <= k < |data| && data[k].values != [] ==> maxValue != 0.0)
  }

  /** The pixel positions of one series' points. */
  function Vertices(s: ChartSeries, maxValue: real, minT: real, maxT: real): (vs: seq<Pt>)
    requires Aligned(s) && minT < maxT && (s.values != [] ==> maxValue != 0.0)
    ensures |vs| == |s.values|
  {
    seq(|s.values|, k requires 0 <= k < |s.values| =>
      Pt(XCoord(s.timestamps[k], minT, maxT), YCoord(s.values[k], maxValue)))
  }

  /** The path of series i: its points in its colour. */
  function PathOf(data: seq<ChartSeries>, i: nat, maxValue: real, minT: real, maxT: real): (c: Command)
    requires i < |data| && Drawable(data, maxValue, minT, maxT)
  {
    Polyline(ColourOf(i), Vertices(data[i], maxValue, minT, maxT))
  }

  /** What drawLineChart emits for series i: its path and its legend entry. */
  function LineChartCommands(data: seq<ChartSeries>, i: nat, maxValue: real, minT: real, maxT: real, fontHeight: real): (cs: seq<Command>)
    requires i < |data| && Drawable(data, maxValue, minT, maxT)
    ensures |cs| == 3 && cs[0].Polyline? && !cs[1].Polyline? && !cs[2].Polyline?
  {
    var x, y := LegendX(i, |data|), LegendY(fontHeight);
    [ PathOf(data, i, maxValue, minT, maxT),
      Line(Pt(x, y), Pt(x + 20.0, y), ColourOf(i)),
      Text(data[i].symbol, Pt(x + 25.0, y + fontHeight / 3.0)) ]
  }

  /** The paths and legend entries of the first k series. */
  function SeriesCommands(data: seq<ChartSeries>, k: nat, maxValue: real, minT: real, maxT: real, fontHeight: real): seq<Command>
    requires k <= |data| && Drawable(data, maxValue, minT, maxT)
  {
    if k == 0 then [] else
      SeriesCommands(data, k - 1, maxValue, minT, maxT, fontHeight)
      + LineChartCommands(data, k - 1, maxValue, minT, maxT, fontHeight)
  }

  /** The maximum drawChart draws with; with no value in any series the
      source's maximum is -Infinity, which draws the same labels as 0. */
  function ChartMax(data: seq<ChartSeries>): real
  {
    match MaxValue(data)
    case None => 0.0
    case Some(m) => m
  }

  /** The largest value, if it is not 0, can place every point of every series. */
  lemma ChartMaxDrawable(data: seq<ChartSeries>, now: real)
    requires forall k :: 0 <= k < |data| ==> Aligned(data[k])
    requires MaxValue(data) != Some(0.0)
    ensures Drawable(data, ChartMax(data), WindowStart(now), now)
  {
  }

  /** What drawChart emits after the axes: the bare labels when there is no
      data, otherwise the labels for the largest value and one path and
      legend entry per series over the NUM_HOURS hours before `now`. */
  function PlotCommands(data: seq<ChartSeries>, now: real, fontHeight: real): seq<Command>
    requires forall k :: 0 <= k < |data| ==> Aligned(data[k])
    requires MaxValue(data) != Some(0.0)
  {
    if data == [] then LabelCommands(0.0)
    else
      var m := ChartMax(data);
      ChartMaxDrawable(data, now);
      LabelCommands(m) + SeriesCommands(data, |data|, m, WindowStart(now), now, fontHeight)
  }

  /** Everything drawChart emits. */
  function ChartCommands(data: seq<ChartSeries>, now: real, fontHeight: real): seq<Command>
    requires forall k :: 0 <= k < |data| ==> Aligned(data[k])
    requires MaxValue(data) != Some(0.0)
  {
    AxesCommands() + PlotCommands(data, now, fontHeight)
  }

  // ---------------------------------------------------------------------------
  // The drawing methods

  /** drawLabels: the axis titles, the hour labels along the x-axis and the
      value ticks along the y-axis. */
  method DrawLabels(ctx: Canvas, maxValue: real)
    modifies ctx
    ensures ctx.commands == old(ctx.commands) + LabelCommands(maxValue)
  {
    ctx.FillText("Time (Hours Ago)", Pt(GRAPH_WIDTH / 2.0 + GRAPH_LEFT, GRAPH_BOTTOM + 50.0));
    ctx.FillText("Price ($)", Pt(GRAPH_LEFT - 85.0, GRAPH_HEIGHT / 2.0 + GRAPH_TOP));
    DrawHourLabels(ctx);
    DrawValueTicks(ctx, maxValue);
  }

  /** The x-axis reference values of drawLabels. */
  method DrawHourLabels(ctx: Canvas)
    modifies ctx
    ensures ctx.commands == old(ctx.commands) + HourLabelCommands()
  {
    var yCoord := GRAPH_BOTTOM + 25.0;
    ctx.FillText(Decimal(NUM_HOURS), Pt(GRAPH_LEFT, yCoord));
    ghost var hours := ctx.commands;
    for i := 0 to NUM_HOURS
      invariant ctx.commands == hours + HourTexts(i)
    {
      ctx.FillText(Decimal(i), Pt((NUM_HOURS - i) as real / NUM_HOURS as real * GRAPH_WIDTH + GRAPH_LEFT, yCoord));
      assert HourTexts(i + 1) == HourTexts(i) + [Text(Decimal(i), Pt(HourLabelX(i), HOUR_LABEL_Y))];
    }
  }

  /** The y-axis reference values of drawLabels: a label at every tick and a
      gridline at every tick but 0. */
  method DrawValueTicks(ctx: Canvas, maxValue: real)
    modifies ctx
    ensures ctx.commands == old(ctx.commands) + TickCommands(Ticks(maxValue), maxValue)
  {
    ghost var labels := ctx.commands;
    var i: nat := 0;
    while (i as real) < maxValue
      invariant ctx.commands + TickCommands(TicksFrom(i, maxValue), maxValue)
             == labels + TickCommands(Ticks(maxValue), maxValue)
      decreases maxValue.Floor - i
    {
      ghost var before := ctx.commands;
      DrawTick(ctx, i, maxValue);
      TickCommandsFirst(i, maxValue);
      AppendAssoc(before, TickStep(i, maxValue), TickCommands(TicksFrom(i + TICK_STEP, maxValue), maxValue));
      i := i + TICK_STEP;
    }
  }

  /** One pass of the tick loop of drawLabels. */
  method DrawTick(ctx: Canvas, i: nat, maxValue: real)
    requires maxValue != 0.0
    modifies ctx
    ensures ctx.commands == old(ctx.commands) + TickStep(i, maxValue)
  {
    var yCoord := GRAPH_BOTTOM - (i as real) / maxValue * GRAPH_HEIGHT;
    ctx.FillText(Decimal(i), Pt(GRAPH_LEFT - 25.0, yCoord));
    if i > 0 {
      ctx.DrawLine(Pt(GRAPH_LEFT, yCoord), Pt(GRAPH_RIGHT, yCoord), Some(GRID_STYLE));
    }
  }

  /** drawLineChart: the path of series `stockIndex` in its colour, then its
      legend entry. An empty series gives a path without vertices (the
      source's `moveTo` then receives NaN coordinates, computed from the
      missing first point, which a canvas ignores). */
  method DrawLineChart(ctx: Canvas, stockData: seq<ChartSeries>, stockIndex: nat, maxValue: real,
                       minTimestamp: real, maxTimestamp: real, fontHeight: real)
    requires stockIndex < |stockData| && Drawable(stockData, maxValue, minTimestamp, maxTimestamp)
    modifies ctx
    ensures ctx.commands == old(ctx.commands)
      + LineChartCommands(stockData, stockIndex, maxValue, minTimestamp, maxTimestamp, fontHeight)
  {
    var s := stockData[stockIndex];
    ghost var vertices := Vertices(s, maxValue, minTimestamp, maxTimestamp);
    ghost var start := ctx.commands;
    PaletteStroke(stockIndex);
    ctx.BeginPath(StrokeStyle(PaletteEntry(stockIndex)));
    assert ctx.commands[..|start|] == start;
    if |s.values| > 0 {
      ctx.LineTo(Pt(XCoord(s.timestamps[0], minTimestamp, maxTimestamp), YCoord(s.values[0], maxValue)));
      assert [] + [vertices[0]] == vertices[..1];
      for pointIndex := 1 to |s.values|
        invariant ctx.commands == start + [Polyline(ColourOf(stockIndex), vertices[..pointIndex])]
      {
        assert ctx.commands[..|start|] == start;
        ctx.LineTo(Pt(XCoord(s.timestamps[pointIndex], minTimestamp, maxTimestamp), YCoord(s.values[pointIndex], maxValue)));
        assert vertices[..pointIndex + 1] == vertices[..pointIndex] + [vertices[pointIndex]];
      }
      assert vertices[..|s.values|] == vertices;
    }

    // legend
    var startX := stockIndex as real / |stockData| as real * GRAPH_WIDTH + GRAPH_LEFT
                  + 1.0 / |stockData| as real * GRAPH_WIDTH / 2.0;
    var startY := GRAPH_TOP - fontHeight / 3.0 - 15.0;
    ctx.DrawLine(Pt(startX, startY), Pt(startX + 20.0, startY), PaletteEntry(stockIndex));
    ctx.FillText(s.symbol, Pt(startX + 25.0, startY + fontHeight / 3.0));
  }

  /** The x and y axes of drawChart, each ending in an arrowhead. */
  method DrawAxes(ctx: Canvas)
    modifies ctx
    ensures ctx.commands == old(ctx.commands) + AxesCommands()
  {
    ctx.DrawLine(Pt(GRAPH_LEFT, GRAPH_TOP - 15.0), Pt(GRAPH_LEFT, GRAPH_BOTTOM), None);
    ctx.DrawTriangle(Pt(GRAPH_LEFT - 15.0, GRAPH_TOP - 15.0), Pt(GRAPH_LEFT + 15.0, GRAPH_TOP - 15.0), Pt(GRAPH_LEFT, GRAPH_TOP - 30.0));
    ctx.DrawLine(Pt(GRAPH_LEFT, GRAPH_BOTTOM), Pt(GRAPH_RIGHT + 15.0, GRAPH_BOTTOM), None);
    ctx.DrawTriangle(Pt(GRAPH_RIGHT + 15.0, GRAPH_BOTTOM - 15.0), Pt(GRAPH_RIGHT + 15.0, GRAPH_BOTTOM + 15.0), Pt(GRAPH_RIGHT + 30.0, GRAPH_BOTTOM));
  }

  /** The loop of drawChart over the series, each drawn by drawLineChart. */
  method DrawLineCharts(ctx: Canvas, stockData: seq<ChartSeries>, maxValue: real,
                        minTimestamp: real, maxTimestamp: real, fontHeight: real)
    requires Drawable(stockData, maxValue, minTimestamp, maxTimestamp)
    modifies ctx
    ensures ctx.commands == old(ctx.commands)
      + SeriesCommands(stockData, |stockData|, maxValue, minTimestamp, maxTimestamp, fontHeight)
  {
    ghost var start := ctx.commands;
    for i := 0 to |stockData|
      invariant ctx.commands == start + SeriesCommands(stockData, i, maxValue, minTimestamp, maxTimestamp, fontHeight)
    {
      DrawLineChart(ctx, stockData, i, maxValue, minTimestamp, maxTimestamp, fontHeight);
    }
  }

  /** Concatenation of recorded commands is associative. */
  lemma AppendAssoc(a: seq<Command>, b: seq<Command>, c: seq<Command>)
    ensures a + b + c == a + (b + c)
  {
  }

  /** drawChart: the axes, then the labels and the series. */
  method DrawChart(ctx: Canvas, stockData: seq<ChartSeries>, now: real, fontHeight: real)
    requires forall k :: 0 <= k < |stockData| ==> Aligned(stockData[k])
    requires MaxValue(stockData) != Some(0.0)
    modifies ctx
    ensures ctx.commands == old(ctx.commands) + ChartCommands(stockData, now, fontHeight)
  {
    ghost var start := ctx.commands;
    DrawAxes(ctx);
    DrawPlot(ctx, stockData, now, fontHeight);
    AppendAssoc(start, AxesCommands(), PlotCommands(stockData, now, fontHeight));
  }

  /** The part of drawChart after the axes. */
  method DrawPlot(ctx: Canvas, stockData: seq<ChartSeries>, now: real, fontHeight: real)
    requires forall k :: 0 <= k < |stockData| ==> Aligned(stockData[k])
    requires MaxValue(stockData) != Some(0.0)
    modifies ctx
    ensures ctx.commands == old(ctx.commands) + PlotCommands(stockData, now, fontHeight)
  {
    // If no stock data is available, only display the chart labels
    if |stockData| == 0 {
      DrawLabels(ctx, 0.0);
    } else {
      var maxValue := ChartMax(stockData);
      var maxTimestamp := now;
      var minTimestamp := WindowStart(now);
      DrawLabels(ctx, maxValue);
      ChartMaxDrawable(stockData, now);
      DrawLineCharts(ctx, stockData, maxValue, minTimestamp, maxTimestamp, fontHeight);
      AppendAssoc(old(ctx.commands), LabelCommands(maxValue),
                  SeriesCommands(stockData, |stockData|, maxValue, minTimestamp, maxTimestamp, fontHeight));
    }
  }

  // ---------------------------------------------------------------------------
  // What the chart shows

  /** The paths among recorded commands, in drawing order. */
  function Paths(cs: seq<Command>): (ps: seq<Command>)
    ensures |ps| <= |cs|
    ensures forall k :: 0 <= k < |ps| ==> ps[k].Polyline?
  {
    if cs == [] then []
    else Paths(cs[..|cs| - 1]) + (if cs[|cs| - 1].Polyline? then [cs[|cs| - 1]] else [])
  }

  lemma {:induction false} PathsAppend(a: seq<Command>, b: seq<Command>)
    ensures Paths(a + b) == Paths(a) + Paths(b)
    decreases |b|
  {
    if b != [] {
      var b' := b[..|b| - 1];
      assert (a + b)[..|a + b| - 1] == a + b';
      PathsAppend(a, b');
    } else {
      assert a + b == a;
    }
  }

  lemma {:induction false} NoPaths(cs: seq<Command>)
    requires forall k :: 0 <= k < |cs| ==> !cs[k].Polyline?
    ensures Paths(cs) == []
    decreases |cs|
  {
    if cs != [] {
      NoPaths(cs[..|cs| - 1]);
    }
  }

  lemma {:induction false} TickCommandsNoPaths(ts: seq<nat>, maxValue: real)
    requires forall k :: 0 <= k < |ts| ==> (ts[k] as real) < maxValue
    ensures Paths(TickCommands(ts, maxValue)) == []
  {
    if ts != [] {
      TickCommandsNoPaths(ts[1..], maxValue);
      var step := TickStep(ts[0], maxValue);
      NoPaths(step);
      PathsAppend(step, TickCommands(ts[1..], maxValue));
    }
  }

  /** drawLabels draws no path. */
  lemma LabelsDrawNoPath(maxValue: real)
    ensures Paths(LabelCommands(maxValue)) == []
  {
    var titles, hours, ticks := TitleCommands(), HourLabelCommands(), TickCommands(Ticks(maxValue), maxValue);
    NoPaths(titles);
    NoPaths(hours);
    TickCommandsNoPaths(Ticks(maxValue), maxValue);
    PathsAppend(titles, hours);
    PathsAppend(titles + hours, ticks);
  }

  /** Without data the chart is the axes, the titles and the hour labels:
      no value tick, no path, no legend. */
  lemma ChartWithoutData(now: real, fontHeight: real)
    ensures ChartCommands([], now, fontHeight) == AxesCommands() + TitleCommands() + HourLabelCommands()
    ensures Paths(ChartCommands([], now, fontHeight)) == []
  {
    NoTicksWithoutPositiveMax(0.0);
    assert TickCommands(Ticks(0.0), 0.0) == [];
    assert LabelCommands(0.0) == TitleCommands() + HourLabelCommands();
    NoPaths(AxesCommands());
    LabelsDrawNoPath(0.0);
    PathsAppend(AxesCommands(), LabelCommands(0.0));
  }

  /** Appending a block of three keeps the earlier blocks and adds it as the
      next one. */
  lemma AppendBlock(prev: seq<Command>, block: seq<Command>, k: nat, i: nat)
    requires |prev| == 3 * k && |block| == 3 && i <= k
    ensures (prev + block)[3 * i..3 * i + 3] == if i < k then prev[3 * i..3 * i + 3] else block
  {
  }

  /** The series commands are three per series. */
  lemma {:induction false} SeriesLength(data: seq<ChartSeries>, k: nat, maxValue: real, minT: real, maxT: real, fontHeight: real)
    requires k <= |data| && Drawable(data, maxValue, minT, maxT)
    ensures |SeriesCommands(data, k, maxValue, minT, maxT, fontHeight)| == 3 * k
  {
    if k > 0 {
      SeriesLength(data, k - 1, maxValue, minT, maxT, fontHeight);
    }
  }

  /** Block i of the series commands is series i's path and legend entry. */
  lemma {:induction false} SeriesBlock(data: seq<ChartSeries>, k: nat, i: nat, maxValue: real, minT: real, maxT: real, fontHeight: real)
    requires i < k <= |data| && Drawable(data, maxValue, minT, maxT)
    ensures |SeriesCommands(data, k, maxValue, minT, maxT, fontHeight)| == 3 * k
    ensures SeriesCommands(data, k, maxValue, minT, maxT, fontHeight)[3 * i..3 * i + 3]
      == LineChartCommands(data, i, maxValue, minT, maxT, fontHeight)
  {
    SeriesLength(data, k, maxValue, minT, maxT, fontHeight);
    var prev := SeriesCommands(data, k - 1, maxValue, minT, maxT, fontHeight);
    SeriesLength(data, k - 1, maxValue, minT, maxT, fontHeight);
    AppendBlock(prev, LineChartCommands(data, k - 1, maxValue, minT, maxT, fontHeight), k - 1, i);
    if i < k - 1 {
      SeriesBlock(data, k - 1, i, maxValue, minT, maxT, fontHeight);
    }
  }

  /** The paths of a block whose only path is its first command. */
  lemma BlockPaths(block: seq<Command>)
    requires |block| == 3 && block[0].Polyline? && !block[1].Polyline? && !block[2].Polyline?
    ensures Paths(block) == [block[0]]
  {
    var first := [block[0]];
    assert first[..0] == [];
    assert block == first + block[1..];
    PathsAppend(first, block[1..]);
    NoPaths(block[1..]);
  }

  /** The first k series draw k paths. */
  lemma {:induction false} SeriesPathCount(data: seq<ChartSeries>, k: nat, maxValue: real, minT: real, maxT: real, fontHeight: real)
    requires k <= |data| && Drawable(data, maxValue, minT, maxT)
    ensures |Paths(SeriesCommands(data, k, maxValue, minT, maxT, fontHeight))| == k
  {
    if k > 0 {
      SeriesPathCount(data, k - 1, maxValue, minT, maxT, fontHeight);
      var block := LineChartCommands(data, k - 1, maxValue, minT, maxT, fontHeight);
      PathsAppend(SeriesCommands(data, k - 1, maxValue, minT, maxT, fontHeight), block);
      BlockPaths(block);
    }
  }

  /** Path i of the first k series is series i's, in its colour. */
  lemma {:induction false} SeriesPathAt(data: seq<ChartSeries>, k: nat, i: nat, maxValue: real, minT: real, maxT: real, fontHeight: real)
    requires i < k <= |data| && Drawable(data, maxValue, minT, maxT)
    ensures |Paths(SeriesCommands(data, k, maxValue, minT, maxT, fontHeight))| == k
    ensures Paths(SeriesCommands(data, k, maxValue, minT, maxT, fontHeight))[i] == PathOf(data, i, maxValue, minT, maxT)
  {
    SeriesPathCount(data, k, maxValue, minT, maxT, fontHeight);
    SeriesPathCount(data, k - 1, maxValue, minT, maxT, fontHeight);
    var prev := SeriesCommands(data, k - 1, maxValue, minT, maxT, fontHeight);
    var block := LineChartCommands(data, k - 1, maxValue, minT, maxT, fontHeight);
    PathsAppend(prev, block);
    BlockPaths(block);
    if i < k - 1 {
      SeriesPathAt(data, k - 1, i, maxValue, minT, maxT, fontHeight);
    }
  }

  /** With data, the chart is the axes, the labels for the largest value and
      the series. */
  lemma ChartUnfold(data: seq<ChartSeries>, now: real, fontHeight: real)
    requires data != []
    requires forall k :: 0 <= k < |data| ==> Aligned(data[k])
    requires MaxValue(data) != Some(0.0)
    ensures Drawable(data, ChartMax(data), WindowStart(now), now)
    ensures ChartCommands(data, now, fontHeight) == AxesCommands() + LabelCommands(ChartMax(data))
      + SeriesCommands(data, |data|, ChartMax(data), WindowStart(now), now, fontHeight)
  {
    ChartMaxDrawable(data, now);
    AppendAssoc(AxesCommands(), LabelCommands(ChartMax(data)),
                SeriesCommands(data, |data|, ChartMax(data), WindowStart(now), now, fontHeight));
  }

  /** With data, the chart draws exactly one path per series, in the order of
      the series, each in its colour over its points. */
  lemma ChartPaths(data: seq<ChartSeries>, now: real, fontHeight: real)
    requires data != []
    requires forall k :: 0 <= k < |data| ==> Aligned(data[k])
    requires MaxValue(data) != Some(0.0)
    ensures Drawable(data, ChartMax(data), WindowStart(now), now)
    ensures |Paths(ChartCommands(data, now, fontHeight))| == |data|
    ensures forall i :: 0 <= i < |data| ==>
      Paths(ChartCommands(data, now, fontHeight))[i] == PathOf(data, i, ChartMax(data), WindowStart(now), now)
  {
    var m := ChartMax(data);
    ChartUnfold(data, now, fontHeight);
    var head := AxesCommands() + LabelCommands(m);
    var series := SeriesCommands(data, |data|, m, WindowStart(now), now, fontHeight);
    HeadDrawsNoPath(m);
    PathsAppend(head, series);
    assert Paths(head + series) == Paths(series);
    SeriesPathCount(data, |data|, m, WindowStart(now), now, fontHeight);
    forall i | 0 <= i < |data|
      ensures Paths(series)[i] == PathOf(data, i, m, WindowStart(now), now)
    {
      SeriesPathAt(data, |data|, i, m, WindowStart(now), now, fontHeight);
    }
  }

  /** The axes and the labels draw no path. */
  lemma HeadDrawsNoPath(maxValue: real)
    ensures Paths(AxesCommands() + LabelCommands(maxValue)) == []
  {
    NoPaths(AxesCommands());
    LabelsDrawNoPath(maxValue);
    PathsAppend(AxesCommands(), LabelCommands(maxValue));
  }

  /** With data, the chart ends with one legend entry per series: a stroke in
      the series' colour at LegendX and the symbol beside it. */
  lemma ChartLegend(data: seq<ChartSeries>, now: real, fontHeight: real, i: nat)
    requires i < |data|
    requires forall k :: 0 <= k < |data| ==> Aligned(data[k])
    requires MaxValue(data) != Some(0.0)
    ensures |ChartCommands(data, now, fontHeight)| >= 3 * |data|
    ensures ChartCommands(data, now, fontHeight)[|ChartCommands(data, now, fontHeight)| - 3 * (|data| - i) + 1]
      == Line(Pt(LegendX(i, |data|), LegendY(fontHeight)), Pt(LegendX(i, |data|) + 20.0, LegendY(fontHeight)), ColourOf(i))
    ensures ChartCommands(data, now, fontHeight)[|ChartCommands(data, now, fontHeight)| - 3 * (|data| - i) + 2]
      == Text(data[i].symbol, Pt(LegendX(i, |data|) + 25.0, LegendY(fontHeight) + fontHeight / 3.0))
  {
    var m := ChartMax(data);
    ChartUnfold(data, now, fontHeight);
    var head := AxesCommands() + LabelCommands(m);
    var series := SeriesCommands(data, |data|, m, WindowStart(now), now, fontHeight);
    SeriesBlock(data, |data|, i, m, WindowStart(now), now, fontHeight);
    LegendAt(head, series, LineChartCommands(data, i, m, WindowStart(now), now, fontHeight), |data|, i);
  }

  /** Where block i of the series commands sits in the whole chart. */
  lemma LegendAt(head: seq<Command>, series: seq<Command>, block: seq<Command>, n: nat, i: nat)
    requires i < n && |series| == 3 * n && |block| == 3 && series[3 * i..3 * i + 3] == block
    ensures (head + series)[|head + series| - 3 * (n - i) + 1] == block[1]
    ensures (head + series)[|head + series| - 3 * (n - i) + 2] == block[2]
  {
    assert series[3 * i + 1] == block[1];
    assert series[3 * i + 2] == block[2];
  }

  /** Points inside the time window with values between 0 and the maximum
      are drawn inside the plot area. */
  lemma VerticesInsidePlot(s: ChartSeries, maxValue: real, minT: real, maxT: real)
    requires Aligned(s) && minT < maxT && maxValue > 0.0
    requires forall k :: 0 <= k < |s.values| ==> minT <= s.timestamps[k] <= maxT && 0.0 <= s.values[k] <= maxValue
    ensures forall k :: 0 <= k < |s.values| ==>
      var p := Vertices(s, maxValue, minT, maxT)[k];
      GRAPH_LEFT <= p.x <= GRAPH_RIGHT && GRAPH_TOP <= p.y <= GRAPH_BOTTOM
  {
    forall k | 0 <= k < |s.values|
      ensures var p := Vertices(s, maxValue, minT, maxT)[k];
        GRAPH_LEFT <= p.x <= GRAPH_RIGHT && GRAPH_TOP <= p.y <= GRAPH_BOTTOM
    {
      XCoordInside(s.timestamps[k], minT, maxT);
      YCoordInside(s.values[k], maxValue);
    }
  }

  /** Every point of every series of the last NUM_HOURS hours with a
      non-negative value is drawn inside the plot (ChartReachesTop: the
      highest touches its top). */
  lemma ChartInsidePlot(data: seq<ChartSeries>, now: real, k: nat)
    requires k < |data|
    requires forall j :: 0 <= j < |data| ==> Aligned(data[j])
    requires forall j, t :: 0 <= j < |data| && 0 <= t < |data[j].timestamps| ==>
      WindowStart(now) <= data[j].timestamps[t] <= now
    requires forall j, t :: 0 <= j < |data| && 0 <= t < |data[j].values| ==> 0.0 <= data[j].values[t]
    requires MaxValue(data) != Some(0.0)
    ensures Drawable(data, ChartMax(data), WindowStart(now), now)
    ensures forall t :: 0 <= t < |data[k].values| ==>
      var p := Vertices(data[k], ChartMax(data), WindowStart(now), now)[t];
      GRAPH_LEFT <= p.x <= GRAPH_RIGHT && GRAPH_TOP <= p.y <= GRAPH_BOTTOM
  {
    ChartMaxDrawable(data, now);
    if data[k].values != [] {
      var m := ChartMax(data);
      assert data[k].values[0] in data[k].values;
      assert m > 0.0;
      forall t | 0 <= t < |data[k].values|
        ensures data[k].values[t] <= m
      {
        assert data[k].values[t] in data[k].values;
      }
      VerticesInsidePlot(data[k], m, WindowStart(now), now);
    }
  }

  /** The chart is scaled to its largest value: some point of some series is
      drawn on the top edge of the plot. */
  lemma ChartReachesTop(data: seq<ChartSeries>, now: real)
    requires forall j :: 0 <= j < |data| ==> Aligned(data[j])
    requires MaxValue(data).Some? && MaxValue(data) != Some(0.0)
    ensures Drawable(data, ChartMax(data), WindowStart(now), now)
    ensures exists j, t ::
      && 0 <= j < |data| && 0 <= t < |data[j].values|
      && Vertices(data[j], ChartMax(data), WindowStart(now), now)[t].y == GRAPH_TOP
  {
    ChartMaxDrawable(data, now);
    var m := ChartMax(data);
    var j :| 0 <= j < |data| && m in data[j].values;
    var t :| 0 <= t < |data[j].values| && data[j].values[t] == m;
    YCoordEnds(m);
    assert Vertices(data[j], m, WindowStart(now), now)[t].y == GRAPH_TOP;
  }
}
