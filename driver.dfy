/**
 * displayElements: fetch everything, pick the error banner, reshape the data
 * and draw the chart on the recorder.
 */
module Driver {
  import opened Wrappers
  import opened Stocks
  import opened Projection
  import opened Drawing
  import opened Banner

  /** displayElements. `banner` is what is written into the errors element
      (None: it is left as it is), `chartShown` whether the canvas is made
      visible, `requests` the URLs fetched, in the order they are issued. A
      missing symbol list shows its message and draws nothing; otherwise the
      banner is chosen from the failed stocks and the chart is drawn from the
      records that have points. */
  method DisplayElements(ctx: Canvas, symbolsAttempt: SymbolsAttempt, attempts: seq<SeriesAttempt>,
                         completion: seq<int>, now: real, fontHeight: real)
    returns (banner: Option<string>, chartShown: bool, requests: seq<string>)
    requires GetStockSymbols(symbolsAttempt).Some? ==>
      var symbols := GetStockSymbols(symbolsAttempt).value;
      && |attempts| == |symbols|
      && IsPermutation(completion, |symbols|)
      && MaxValue(ProcessStockData(Records(symbols, attempts))) != Some(0.0)
    modifies ctx
    ensures GetStockSymbols(symbolsAttempt).None? ==>
      && banner == Some(SYMBOLS_ERROR) && !chartShown
      && requests == [SYMBOLS_URL] && ctx.commands == old(ctx.commands)
    ensures GetStockSymbols(symbolsAttempt).Some? ==>
      var symbols := GetStockSymbols(symbolsAttempt).value;
      && banner == ErrorBanner(ErrorsAt(symbols, attempts, completion))
      && chartShown
      && requests == [SYMBOLS_URL] + Requests(symbols)
      && ctx.commands == old(ctx.commands) + ChartCommands(ProcessStockData(Records(symbols, attempts)), now, fontHeight)
  {
    var result;
    result, requests := GetStockData(symbolsAttempt, attempts, completion);

    // If no stock data, display error message
    if result.Fatal? {
      return Some(result.message), false, requests;
    }

    banner := ErrorBanner(result.error);
    var stockData := ProcessStockData(result.data);
    DrawChart(ctx, stockData, now, fontHeight);
    chartShown := true;
  }

  // ---------------------------------------------------------------------------
  // Scenarios

  /** The attempts of a three-stock scenario in which the second answers 500. */
  function SecondFails(pa: seq<Point>, pc: seq<Point>): seq<SeriesAttempt>
  {
    [SeriesAnswered(200, Some(pa)), SeriesAnswered(500, None), SeriesAnswered(200, Some(pc))]
  }

  /** Three stocks of which the second answers 500: the chart has the other
      two, in input order, and only the second has null points. */
  lemma OneStockFailsChart(a: Symbol, b: Symbol, c: Symbol, pa: seq<Point>, pc: seq<Point>)
    ensures SeriesSymbols(ProcessStockData(Records([a, b, c], SecondFails(pa, pc)))) == [a, c]
    ensures NullSymbols(Records([a, b, c], SecondFails(pa, pc))) == [b]
  {
    var records := Records([a, b, c], SecondFails(pa, pc));
    var r0, r1, r2 := StockRecord(a, Some(pa)), StockRecord(b, None), StockRecord(c, Some(pc));
    assert records == [r0, r1, r2];
    assert [r0, r1, r2][..2] == [r0, r1];
    assert [r0, r1][..1] == [r0];
    assert [r0][..0] == [];
    assert ValidData([r0]) == [r0];
    assert ValidData([r0, r1]) == [r0];
    assert ValidData(records) == [r0, r2];
    assert NullSymbols([r0]) == [];
    assert NullSymbols([r0, r1]) == [b];
    ChartSymbolsOfValid(records);
    assert [r0, r2][..1] == [r0];
  }

  /** Whatever order the requests settle in, the banner names the failed
      stock in the singular. */
  lemma OneStockFailsBanner(a: Symbol, b: Symbol, c: Symbol, pa: seq<Point>, pc: seq<Point>, completion: seq<int>)
    requires IsPermutation(completion, 3)
    ensures ErrorsAt([a, b, c], SecondFails(pa, pc), completion) == [b]
    ensures ErrorBanner(ErrorsAt([a, b, c], SecondFails(pa, pc), completion)) == Some(SINGULAR_PREFIX + b + SUFFIX)
  {
    OneStockFailsChart(a, b, c, pa, pc);
    ErrorsAreNullRecords([a, b, c], SecondFails(pa, pc), completion);
    var e := ErrorsAt([a, b, c], SecondFails(pa, pc), completion);
    assert multiset(e) == multiset{b};
    assert |e| == 1;
    assert e[0] in multiset(e);
  }

  /** The symbol list cannot be fetched: its message is shown, nothing else is
      fetched and the chart stays hidden and blank. */
  lemma SymbolsUnavailable(status: int, symbols: Option<seq<Symbol>>, message: string)
    requires status != 200
    ensures GetStockSymbols(SymbolsAnswered(status, symbols)).None?
    ensures GetStockSymbols(SymbolsThrew(message)).None?
  {
  }

  /** Two stocks that both fail, one with an answer other than 200 and one
      with an exception: nothing is charted and no path is drawn. */
  lemma EveryStockFailsChart(a: Symbol, b: Symbol, status: int, body: Option<seq<Point>>, message: string,
                             now: real, fontHeight: real)
    requires status != 200
    ensures var attempts := [SeriesAnswered(status, body), SeriesThrew(message)];
      && ProcessStockData(Records([a, b], attempts)) == []
      && Paths(ChartCommands(ProcessStockData(Records([a, b], attempts)), now, fontHeight)) == []
  {
    var attempts := [SeriesAnswered(status, body), SeriesThrew(message)];
    var records := Records([a, b], attempts);
    assert records == [StockRecord(a, None), StockRecord(b, None)];
    assert records[..1] == [records[0]];
    assert ValidData(records) == [];
    ChartWithoutData(now, fontHeight);
  }

  /** The error list when the second of two failing stocks settles first. */
  lemma EveryStockFailsErrors(a: Symbol, b: Symbol, status: int, body: Option<seq<Point>>, message: string)
    requires status != 200
    ensures ErrorsAt([a, b], [SeriesAnswered(status, body), SeriesThrew(message)], [1, 0]) == [b, a]
  {
    var attempts := [SeriesAnswered(status, body), SeriesThrew(message)];
    assert [1, 0][..1] == [1];
    assert [1][..0] == [];
    assert ErrorsAt([a, b], attempts, [1]) == [b];
  }

  /** The banner for two failed stocks lists both, joined with ", ". */
  lemma TwoStocksBanner(x: Symbol, y: Symbol)
    requires ',' !in x && ',' !in y
    ensures ErrorBanner([x, y]) == Some(PLURAL_PREFIX + x + ", " + y + SUFFIX)
  {
    BannerCases([x, y]);
    JoinTwo(x, y, ", ");
    Regroup(PLURAL_PREFIX, x, ", ", y, SUFFIX);
  }

  lemma JoinTwo(x: string, y: string, sep: string)
    ensures Join([x, y], sep) == x + sep + y
  {
    assert [x, y][1..] == [y];
  }

  lemma Regroup(p: string, a: string, b: string, c: string, q: string)
    ensures p + (a + b + c) + q == p + a + b + c + q
  {
  }

  /** When the second settles first, the banner lists both, the second first,
      joined with ", ". */
  lemma EveryStockFailsBanner(a: Symbol, b: Symbol, status: int, body: Option<seq<Point>>, message: string)
    requires status != 200 && ',' !in a && ',' !in b
    ensures ErrorBanner(ErrorsAt([a, b], [SeriesAnswered(status, body), SeriesThrew(message)], [1, 0]))
      == Some(PLURAL_PREFIX + b + ", " + a + SUFFIX)
  {
    EveryStockFailsErrors(a, b, status, body, message);
    TwoStocksBanner(b, a);
  }

  /** Two stocks that both answer, the first with a positive value: one path
      per stock. */
  lemma EveryStockAnswersChart(a: Symbol, b: Symbol, pa: seq<Point>, pb: seq<Point>, now: real, fontHeight: real)
    requires pa != [] && pa[0].value > 0.0
    ensures var stockData := ProcessStockData(Records([a, b], [SeriesAnswered(200, Some(pa)), SeriesAnswered(200, Some(pb))]));
      && MaxValue(stockData) != Some(0.0)
      && |Paths(ChartCommands(stockData, now, fontHeight))| == 2
  {
    var records := Records([a, b], [SeriesAnswered(200, Some(pa)), SeriesAnswered(200, Some(pb))]);
    assert records == [StockRecord(a, Some(pa)), StockRecord(b, Some(pb))];
    assert records[..1] == [records[0]];
    assert [records[0]][..0] == [];
    assert ValidData(records) == records;
    var stockData := ProcessStockData(records);
    assert |stockData| == 2;
    assert stockData[0].values[0] == pa[0].value;
    assert stockData[0].values[0] in stockData[0].values;
    ChartPaths(stockData, now, fontHeight);
  }

  /** When every stock answers 200 with points, no banner is shown, whatever
      order they settle in. */
  lemma EveryStockAnswersBanner(a: Symbol, b: Symbol, pa: seq<Point>, pb: seq<Point>, completion: seq<int>)
    requires IsPermutation(completion, 2)
    ensures ErrorBanner(ErrorsAt([a, b], [SeriesAnswered(200, Some(pa)), SeriesAnswered(200, Some(pb))], completion)).None?
  {
    var attempts := [SeriesAnswered(200, Some(pa)), SeriesAnswered(200, Some(pb))];
    ErrorsAreNullRecords([a, b], attempts, completion);
    var records := Records([a, b], attempts);
    assert records == [StockRecord(a, Some(pa)), StockRecord(b, Some(pb))];
    assert records[..1] == [records[0]];
    assert [records[0]][..0] == [];
    assert NullSymbols(records) == [];
  }
}
