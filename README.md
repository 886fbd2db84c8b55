# Stock price chart — a Dafny model

The front end of a small stock-chart page (`static/scripts.js`) asks a local
server for the list of stock symbols, requests every symbol's price series
concurrently, keeps the series that arrived, draws them as coloured line
charts on a canvas over the last nine hours, and shows a banner naming the
stocks whose data could not be obtained.

This project models that pipeline and proves what it guarantees:

- `wrappers.dfy` (module `Wrappers`): the `Option` type.
- `stocks.dfy` (module `Stocks`): the retrieval and aggregation of the series
  (`getStockSymbols`, `getAllStockPoints`, `getStockData`) and the reshaping
  step `processStockData`. Every `fetch` is replaced by the outcome it settled
  with. The order in which the concurrent requests settle is a permutation
  `completion` of their slots. The URLs fetched are returned as a trace.
  `getAllStockPoints` is a method: a fan-out loop and a loop over the
  settlement order that writes slots and pushes onto the shared error list.
- `projection.dfy` (module `Projection`): the chart geometry. It holds the
  plot rectangle, the time and value maps to pixels, the y-axis ticks, the
  hour labels, the legend positions, the colour rule and the largest value.
- `drawing.dfy` (module `Drawing`): the drawing code. The canvas is a
  `Canvas` class that records the primitives drawn: lines, filled triangles,
  texts and stroked paths. `drawLabels`, `drawLineChart` and `drawChart` are
  methods that draw on it, each proved to append exactly the commands of a
  specification function. Lemmas about those functions say what the chart
  shows.
- `banner.dfy` (module `Banner`): the choice and the text of the error banner.
- `driver.dfy` (module `Driver`): `displayElements`, which puts the pieces
  together, and whole-pipeline scenarios.

Three things are parameters rather than computed:

- the current time `now`, in milliseconds;
- the font height the legend uses;
- the outcomes of the requests and the order in which they settle.

Numbers are exact reals.

The banner is meant to name every stock whose data could not be obtained
(`static/scripts.js:240`, `246`), so every symbol should be either charted or
named there. The code breaks this for a 200 answer whose body is `null`
(lines 169-170 and 210): `stockPoints` stays null, so the series is filtered
out, and no error is pushed. The model does what
the code does. `Stocks.NullSuccessIsDropped` shows such a symbol disappearing.
`Stocks.AggregationPartition` proves the partition for every other input.

## Model

| member | source | states |
|---|---|---|
| Stocks.Requests | static/scripts.js:163-166 | the fan-out fetches one URL per symbol, `http://localhost:3000/stocks/` followed by the symbol, in input order |
| Stocks.StockUrl | static/scripts.js:166 | definition: the URL of one symbol's series, `http://localhost:3000/stocks/` followed by the symbol |
| Stocks.GetStockSymbols | static/scripts.js:137-155 | the symbol list is returned only for a 200 answer (as its `stockSymbols` field); a 500 answer, any other status and an exception all give null |
| Stocks.SettleStock | static/scripts.js:163-182 | one callback: its record carries the symbol; it pushes the symbol exactly when the answer is not a 200; points are non-null only on a 200 and then are the body |
| Stocks.Records | static/scripts.js:163-184 | `Promise.all` gives one record per symbol, in input order, holding the body of a 200 answer and null otherwise |
| Stocks.ErrorsAt | static/scripts.js:171-180 | the error list pushed while slots settle in a given order has only input symbols and at most one entry per settlement |
| Stocks.PermutationInRange | static/scripts.js:163-184 | a settlement order of the n requests settles every slot exactly once, each slot index in range |
| Stocks.FanOut | static/scripts.js:163-166 | the fan-out loop issues exactly the per-symbol requests, in input order |
| Stocks.GetAllStockPoints | static/scripts.js:158-187 | the loops issue exactly the per-symbol requests in input order; the records are in input order; `stockError` is in settlement order; an empty symbol list gives no request and `{data: [], error: []}` |
| Stocks.GetStockData | static/scripts.js:190-206 | a null symbol list gives the fatal message "Some error happened when retreiving the stock symbols" and no per-symbol request; otherwise it returns the aggregate for those symbols, after the single request for the list |
| Stocks.ValidData | static/scripts.js:210 | the filter is no longer than its input and keeps only records with points |
| Stocks.ValidDataKeeps | static/scripts.js:210 | the filter's result is a subsequence of the records and contains every record that has points |
| Stocks.Values | static/scripts.js:214 | the values are the points' values, one per point, in order |
| Stocks.Timestamps | static/scripts.js:215 | the timestamps are the points' timestamps, one per point, in order |
| Stocks.Reshape | static/scripts.js:212-216 | a reshaped record keeps its symbol; its values and timestamps are aligned, position by position, with its points |
| Stocks.ProcessStockData | static/scripts.js:209-218 | one aligned series per kept record, in the order of the kept records |
| Stocks.RecordSymbols | static/scripts.js:182 | one symbol per record |
| Stocks.SeriesSymbols | static/scripts.js:213 | the i-th entry is the symbol of the i-th series |
| Stocks.NullSymbols | static/scripts.js:164 | the symbols of records with null points are at most one per record |
| Stocks.ErrorsAtAppend | static/scripts.js:171-180 | the pushes of two successive runs of settlements concatenate |
| Stocks.ErrorsOrderIndependent | static/scripts.js:163-184 | two settlement orders that are permutations of each other give the same error list as a multiset |
| Stocks.ErrorsMoveLast | static/scripts.js:171-180 | moving one settlement to another place does not change which symbols are pushed (as a multiset) |
| Stocks.InputOrderErrors | static/scripts.js:164-180 | settled in input order, with non-null 200 bodies, the error list is exactly the list of symbols whose record has null points |
| Stocks.ErrorsAreNullRecords | static/scripts.js:158-187 | with non-null 200 bodies, a symbol is in the error list exactly as often as its record has null points, whatever the settlement order |
| Stocks.RecordsPartition | static/scripts.js:209-218 | every record is either charted or has null points, counting duplicates |
| Stocks.ValidPartition | static/scripts.js:210 | the records split into the kept ones and the ones with null points |
| Stocks.ChartSymbolsOfValid | static/scripts.js:211-217 | the charted symbols are those of the kept records, in order |
| Stocks.RecordSymbolsAt | static/scripts.js:182 | the i-th symbol is that of the i-th record |
| Stocks.RecordSymbolsOfRecords | static/scripts.js:163-184 | the records' symbols are the requested symbols, in input order |
| Stocks.AggregationPartition | static/scripts.js:158-218 | with non-null 200 bodies, the input symbols are exactly the charted symbols plus the reported ones, counting duplicates, for every settlement order |
| Stocks.ChartKeepsInputOrder | static/scripts.js:163-218 | the charted symbols appear in input order |
| Stocks.SubsequenceMapsSymbols | static/scripts.js:211-217 | the symbols of a subsequence of records are a subsequence of their symbols |
| Stocks.NullSuccessIsDropped | static/scripts.js:169-170 | a 200 answer with a null body is neither charted nor reported |
| Projection.WindowStart | static/scripts.js:119-121 | the window starts NUM_HOURS hours before `now` |
| Projection.XCoord | static/scripts.js:74-76 | definition: the affine map of a timestamp in the window onto the plot width, from x = 100 to x = 1000 |
| Projection.YCoord | static/scripts.js:79-81 | definition: the linear map of a value onto the plot height, 0 at the bottom (y = 550) and the maximum at the top (y = 50) |
| Projection.HourLabelX | static/scripts.js:53 | definition: label i hours ago sits at (NUM_HOURS − i)/NUM_HOURS of the plot width from the left edge |
| Projection.Ticks | static/scripts.js:57 | definition: the values the tick loop visits, 0 and every step of 10 below the maximum |
| Projection.LegendX | static/scripts.js:97 | definition: `startX` of legend entry i of n |
| Projection.LegendY | static/scripts.js:98 | definition: `startY`, a third of the font height plus 15 pixels above the plot top |
| Projection.XCoordEnds | static/scripts.js:74-76 | the start of the window maps to x = 100 and `now` maps to x = 1000 |
| Projection.XCoordIncreasing | static/scripts.js:74-76 | later timestamps are drawn further right |
| Projection.XCoordInside | static/scripts.js:74-76 | timestamps inside the window land between the left and right plot edges |
| Projection.YCoordEnds | static/scripts.js:79-81 | value 0 maps to y = 550 and the maximum to y = 50 |
| Projection.YCoordDecreasing | static/scripts.js:79-81 | with a positive maximum, larger values are drawn higher |
| Projection.YCoordInside | static/scripts.js:79-81 | values between 0 and the maximum land between the top and bottom plot edges |
| Projection.HourLabelMatchesTime | static/scripts.js:51-54 | label i sits at the x of the time i hours before `now`; label 9 is at x = 100 and label 0 at x = 1000 |
| Projection.HourLabelsDecreasing | static/scripts.js:52-53 | the hour labels move left as i grows |
| Projection.TicksFrom | static/scripts.js:57 | the ticks from i are at least i and below the maximum |
| Projection.TicksFromAt | static/scripts.js:57 | the k-th tick from i is i + 10k |
| Projection.TicksFromComplete | static/scripts.js:57 | every i + 10k below the maximum is among the ticks from i |
| Projection.TickMembership | static/scripts.js:57 | t is a tick exactly when it is a non-negative multiple of 10 below the maximum |
| Projection.TicksAscending | static/scripts.js:57 | the ticks are 0, 10, 20, … in that order |
| Projection.TickInsidePlot | static/scripts.js:57-58 | with a positive maximum every tick's y lies in (50, 550] |
| Projection.NoTicksWithoutPositiveMax | static/scripts.js:57 | a maximum of 0 or less gives no tick |
| Projection.ColourOf | static/scripts.js:86 | series i is stroked in COLORS[i] for i < 5 and in black otherwise |
| Projection.ColoursNotCyclic | static/scripts.js:18 | the palette does not wrap around (series 5 is black, not red), and the first five series have distinct colours |
| Projection.LegendXCentred | static/scripts.js:97 | legend entry i of n starts at (i + 1/2)/n of the plot width, strictly inside the plot's left and right edges |
| Projection.LegendXIncreasing | static/scripts.js:97 | legend entries go left to right in series order |
| Projection.LegendAbovePlot | static/scripts.js:98-100 | the legend sits above the plot, and its text baseline is 15 pixels above the plot's top |
| Projection.SeriesMax | static/scripts.js:118 | `Math.max` of a series is absent exactly for an empty series; otherwise it is one of the values and no value exceeds it |
| Projection.MaxValue | static/scripts.js:118 | the chart's maximum is absent exactly when every series is empty; otherwise it is a value of some series and bounds every value of every series |
| Drawing.StrokeStyle | static/scripts.js:26 | a missing or empty style strokes black; any other style is used as given |
| Drawing.PaletteStroke | static/scripts.js:99 | the legend stroke of series i gets the same colour as its path, also past the palette |
| Drawing.PaletteEntry | static/scripts.js:86 | definition: `COLORS[i]`, undefined past the five palette colours |
| Drawing.Decimal | static/scripts.js:51-59 | definition: the decimal text `fillText` shows for a whole-number label |
| Drawing.ChartMax | static/scripts.js:118 | definition: the largest value drawChart draws with; the -Infinity of a chart with no value is taken as 0 |
| Drawing.AxesCommands | static/scripts.js:106-109 | definition: the two black axes, each followed by its arrowhead |
| Drawing.TitleCommands | static/scripts.js:45-46 | definition: the two axis titles at their positions |
| Drawing.HourLabelCommands | static/scripts.js:51-54 | definition: "9" at the left edge, then the hour labels 0 to 8 |
| Drawing.TickStep | static/scripts.js:58-64 | definition: one tick's label at its y, and for a tick other than 0 a "#BBB" gridline across the plot |
| Drawing.TickCommands | static/scripts.js:57-65 | definition: the commands of a list of ticks, one tick after another |
| Drawing.LabelCommands | static/scripts.js:42-66 | definition: everything drawLabels draws for a maximum: titles, hour labels, ticks |
| Drawing.PathOf | static/scripts.js:84-91 | definition: series i's path, through its vertices in `ColourOf(i)` |
| Drawing.SeriesCommands | static/scripts.js:128-130 | definition: the commands of the first k series, one drawLineChart after another |
| Drawing.PlotCommands | static/scripts.js:111-130 | definition: after the axes, the bare labels without data, otherwise the labels for the largest value and every series over the window |
| Drawing.ChartCommands | static/scripts.js:104-131 | definition: everything drawChart draws, the axes followed by the plot commands |
| Drawing.Canvas.constructor | static/scripts.js:8 | a fresh canvas has nothing drawn |
| Drawing.Canvas.DrawLine | static/scripts.js:24-30 | drawLine appends one line from start to end in its stroke style |
| Drawing.Canvas.DrawTriangle | static/scripts.js:33-39 | drawTriangle appends one filled triangle |
| Drawing.Canvas.FillText | static/scripts.js:45 | fillText appends one text at its position |
| Drawing.Canvas.BeginPath | static/scripts.js:84-86 | opens an empty path in the given stroke style |
| Drawing.Canvas.LineTo | static/scripts.js:87-89 | extends the open path by one vertex and changes nothing else |
| Drawing.HourTexts | static/scripts.js:52-54 | the loop draws one label per hour |
| Drawing.TickCommandsFirst | static/scripts.js:57-65 | the tick commands from i are tick i's then those from i + 10 |
| Drawing.Vertices | static/scripts.js:87-89 | one vertex per point |
| Drawing.LineChartCommands | static/scripts.js:69-101 | a series draws three commands: first its path, then a legend line and a legend text, which are not paths |
| Drawing.ChartMaxDrawable | static/scripts.js:118-129 | the largest value, unless it is 0, can place every point of every series |
| Drawing.DrawLabels | static/scripts.js:42-66 | drawLabels appends the two titles, the hour labels and the value ticks for its maximum |
| Drawing.DrawHourLabels | static/scripts.js:50-54 | appends "9" at the left edge, then the labels 0 to 8 |
| Drawing.DrawValueTicks | static/scripts.js:57-65 | appends, for each tick in ascending order, its label and, except for 0, a grey gridline |
| Drawing.DrawTick | static/scripts.js:58-64 | one pass of the tick loop: the label, and the "#BBB" gridline when the tick is not 0 |
| Drawing.DrawLineChart | static/scripts.js:69-101 | drawLineChart appends the series' path through all its points in its colour, then its legend line and symbol |
| Drawing.DrawAxes | static/scripts.js:106-109 | appends the two axes in black, each followed by its arrowhead |
| Drawing.DrawLineCharts | static/scripts.js:128-130 | appends every series' commands, in series order |
| Drawing.DrawChart | static/scripts.js:104-131 | drawChart appends the axes, then the labels and the series |
| Drawing.DrawPlot | static/scripts.js:111-130 | without data only the labels (for maximum 0); otherwise the labels for the largest value and every series over the nine-hour window |
| Drawing.Paths | static/scripts.js:84-91 | picks out the stroked paths, in drawing order |
| Drawing.PathsAppend | static/scripts.js:84-91 | the paths of two runs of drawing concatenate |
| Drawing.NoPaths | static/scripts.js:24-39 | commands that are not paths contribute no path |
| Drawing.TickCommandsNoPaths | static/scripts.js:57-65 | the ticks draw no path |
| Drawing.LabelsDrawNoPath | static/scripts.js:42-66 | drawLabels draws no path |
| Drawing.HeadDrawsNoPath | static/scripts.js:104-124 | the axes and the labels draw no path |
| Drawing.ChartWithoutData | static/scripts.js:111-115 | without data the chart is the axes, the titles and the hour labels only: no tick, no path, no legend |
| Drawing.SeriesLength | static/scripts.js:128-130 | the first k series draw 3k commands |
| Drawing.SeriesBlock | static/scripts.js:128-130 | block i of the series commands is what drawLineChart draws for series i |
| Drawing.BlockPaths | static/scripts.js:69-101 | a series block has exactly one path, its first command |
| Drawing.SeriesPathCount | static/scripts.js:128-130 | the first k series draw exactly k paths |
| Drawing.SeriesPathAt | static/scripts.js:128-130 | path i is series i's points in series i's colour |
| Drawing.ChartUnfold | static/scripts.js:104-131 | with data the chart is the axes, the labels for the largest value and the series, in that order |
| Drawing.ChartPaths | static/scripts.js:104-131 | with data the chart draws exactly one path per series, in series order, each in `COLORS[i]` or black and through that series' points |
| Drawing.ChartLegend | static/scripts.js:93-100 | series i's legend line is drawn at LegendX(i, n) in the series' colour, with its symbol 25 pixels to the right |
| Drawing.VerticesInsidePlot | static/scripts.js:74-81 | points inside the window with values between 0 and the maximum are drawn inside the plot rectangle |
| Drawing.ChartInsidePlot | static/scripts.js:117-129 | when every point is inside the window and has a non-negative value, every vertex of every series lies inside the plot rectangle |
| Drawing.ChartReachesTop | static/scripts.js:118-129 | the chart is scaled to its largest value: some vertex of some series lies on the plot's top edge |
| Banner.Join | static/scripts.js:244 | `toString()` of a one-element list is its element; an empty list gives "" |
| Banner.ReplaceCommas | static/scripts.js:250 | the replacement lengthens the text by one character per comma |
| Banner.DropCommaSpaces | static/scripts.js:250 | dropping the spaces after commas never lengthens a text |
| Banner.ErrorBanner | static/scripts.js:240-251 | the banner is left unchanged exactly when no stock failed |
| Banner.ReplaceCommasAppend | static/scripts.js:250 | the comma replacement distributes over concatenation |
| Banner.ReplaceCommasUndone | static/scripts.js:250 | the replacement adds only the spaces after commas |
| Banner.ReplaceWithoutCommas | static/scripts.js:250 | a text without commas is unchanged |
| Banner.ReplaceJoin | static/scripts.js:250 | for comma-free symbols, the comma-joined list becomes the list joined with ", " |
| Banner.BannerCases | static/scripts.js:240-251 | for comma-free symbols: no banner for no failure; the singular text with the symbol for one; the plural text with the symbols joined by ", " for several |
| Banner.JoinNamesAll | static/scripts.js:244-250 | every element of a list occurs in its join |
| Banner.BannerNamesAll | static/scripts.js:240-251 | every comma-free failed symbol occurs word for word in the banner text |
| Driver.DisplayElements | static/scripts.js:223-261 | a missing symbol list shows its message, fetches nothing more and draws nothing; otherwise the banner is chosen from the error list, the chart of the records with points is drawn, and the canvas is shown |
| Driver.OneStockFailsChart | static/scripts.js:209-218 | of three stocks whose second answers 500, the first and third are charted in order, and only the second has null points |
| Driver.OneStockFailsBanner | static/scripts.js:240-245 | in that case, whatever the settlement order, the error list is the second alone and the banner names it in the singular |
| Driver.SymbolsUnavailable | static/scripts.js:137-155 | a non-200 answer, whether or not its body carries a `stockSymbols` list, or an exception for the symbol list gives no symbols |
| Driver.EveryStockFailsChart | static/scripts.js:111-115 | two stocks that both fail give an empty chart with no path |
| Driver.EveryStockFailsErrors | static/scripts.js:171-180 | when the second of two failing stocks settles first, it is pushed first |
| Driver.TwoStocksBanner | static/scripts.js:247-251 | two comma-free failed symbols are listed joined by ", " in the plural text |
| Driver.EveryStockFailsBanner | static/scripts.js:247-251 | in that case the banner lists the second, then the first |
| Driver.EveryStockAnswersChart | static/scripts.js:104-131 | two stocks that both answer, the first with a positive first value, draw two paths |
| Driver.EveryStockAnswersBanner | static/scripts.js:240-251 | when every stock answers 200 with points, no banner is shown, whatever the settlement order |

Some lemmas are proof helpers with no counterpart in the program, so they have
no row: `Stocks.SubsequenceExtend`, `Stocks.RemoveLastAndAt`,
`Projection.DivAdd`, `Projection.DivBelowOne`, `Drawing.AppendAssoc`,
`Drawing.AppendBlock`, `Drawing.LegendAt`, `Driver.JoinTwo` and
`Driver.Regroup`.

## Left out

- Browser I/O is out of the model: the requests themselves, `async`/`await` scheduling, `console` logging, the spinner and content visibility toggles, and `errors.innerHTML`. The banner text is an out-parameter instead.
- The message of a 500 answer is only logged, so it is not modelled.
- A 200 answer whose body is not a list of points (or whose `stockSymbols` is not a list) is not modelled; bodies are typed as lists.
- The `catch` branch of getStockData (lines 202-205) is not modelled. getStockSymbols catches everything itself, and the result of getAllStockPoints is returned without `await`, so that `catch` never runs for the inputs modelled.
- Canvas state that changes how a primitive looks, not which primitives are drawn or where, is not modelled: the fonts (lines 44, 49, 94), `lineWidth = 3` (line 127, which thickens every series path and legend swatch), `lineJoin`, and the `stroke`/`fill` calls.
- `measureText` is not modelled; its font height is a parameter shared by all legend entries, since it depends on the font rather than the text.
- The clock is a parameter (`now`). The window start is exactly nine hours of milliseconds earlier; `setHours` across a daylight-saving change is not modelled.
- Numbers are exact reals: doubles, rounding, NaN and Infinity are not modelled. `Math.max` of no values (-Infinity) is modelled as an absent maximum, drawn like 0, which gives the same labels.
- Drawing.DrawChart: requires that the largest value is not 0, where the source divides by zero and draws at NaN coordinates.
- Driver.DisplayElements: has the same requirement on the data it charts.
- Drawing.DrawLineChart: for a series without points the source moves to NaN coordinates (`undefined - minTimestamp` at line 75), which a canvas ignores. The model records an empty path.
- Timestamps are modelled as numbers of milliseconds. The server may also send a timestamp as a string, which the subtraction at line 75 coerces (a non-numeric one gives NaN and no visible vertex); string timestamps and their coercion are not modelled.
- Banner.BannerCases and Banner.BannerNamesAll: stated for comma-free symbols only. Line 250 also puts a space after a comma inside a symbol, so such a symbol is not shown word for word; `ErrorBanner` models that, but no lemma describes its text.
- `app.js`, the static file server, the page markup and the lint configuration are not part of this model.
