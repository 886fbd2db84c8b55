/**
 * Retrieval and aggregation of the stock series (static/scripts.js,
 * getStockSymbols, getAllStockPoints, getStockData and processStockData).
 *
 * The network is abstracted: every `fetch` is replaced by the outcome it
 * settled with, given as a parameter, and the order in which the concurrent
 * per-symbol requests settle is given as a permutation of their slots.
 * Requests are recorded as the trace of URLs that were fetched.
 */
module Stocks {
  import opened Wrappers

  type Symbol = string

  /** One sample of a series: a timestamp in milliseconds and a price. */
  datatype Point = Point(timestamp: real, value: real)

  /** How the request for the list of symbols settled: an HTTP answer with its
      status and the `stockSymbols` field of its body (None when the field is
      absent or null), or an exception thrown by `fetch` or `response.json()`. */
  datatype SymbolsAttempt =
    | SymbolsAnswered(status: int, stockSymbols: Option<seq<Symbol>>)
    | SymbolsThrew(message: string)

  /** How the request for one symbol's points settled: an HTTP answer with its
      status and its body read as a list of points (None for a null body), or
      an exception. */
  datatype SeriesAttempt =
    | SeriesAnswered(status: int, body: Option<seq<Point>>)
    | SeriesThrew(message: string)

  /** The `{ symbol, stockPoints }` record produced for one symbol. */
  datatype StockRecord = StockRecord(symbol: Symbol, stockPoints: Option<seq<Point>>)

  /** A settled per-symbol request: its record and whether it pushed the
      symbol onto the error list. */
  datatype Settled = Settled(record: StockRecord, failed: bool)

  /** What getAllStockPoints resolves to. */
  datatype Aggregate = Aggregate(data: seq<StockRecord>, error: seq<Symbol>)

  /** What getStockData resolves to: `{ data: null, error: { message } }` when
      the symbol list could not be obtained, the aggregate otherwise. */
  datatype StockDataResult =
    | Fatal(message: string)
    | Collected(data: seq<StockRecord>, error: seq<Symbol>)

  /** One reshaped series, with the values and timestamps positionally aligned. */
  datatype ChartSeries = ChartSeries(symbol: Symbol, values: seq<real>, timestamps: seq<real>)

  const SYMBOLS_URL: string := "http://localhost:3000/stocks"

  /** Message shown when the symbol list is missing (spelling as in the code). */
  const SYMBOLS_ERROR: string := "Some error happened when retreiving the stock symbols"

  function StockUrl(symbol: Symbol): string
  {
    SYMBOLS_URL + "/" + symbol
  }

  /** The URLs fetched by the fan-out, one per symbol, in input order. */
  function Requests(symbols: seq<Symbol>): (urls: seq<string>)
    ensures |urls| == |symbols|
    ensures forall i :: 0 <= i < |symbols| ==> urls[i] == StockUrl(symbols[i])
  {
    seq(|symbols|, i requires 0 <= i < |symbols| => StockUrl(symbols[i]))
  }

  // ---------------------------------------------------------------------------
  // getStockSymbols

  /** The symbol list is returned only for a 200 answer; a 500 answer, any
      other status and an exception all give null. */
  function GetStockSymbols(a: SymbolsAttempt): (r: Option<seq<Symbol>>)
    ensures r.Some? ==> a.SymbolsAnswered? && a.status == 200
    ensures a.SymbolsAnswered? && a.status == 200 ==> r == a.stockSymbols
  {
    match a
    case SymbolsThrew(_) => None
    case SymbolsAnswered(status, stockSymbols) =>
      if status == 200 then stockSymbols
      else if status == 500 then None
      else None
  }

  // ---------------------------------------------------------------------------
  // getAllStockPoints

  /** The asynchronous callback for one symbol: `stockPoints` starts null and
      takes the body only on a 200 answer; every other outcome pushes the
      symbol onto the error list. */
  function SettleStock(symbol: Symbol, a: SeriesAttempt): (s: Settled)
    ensures s.record.symbol == symbol
    ensures s.failed <==> !(a.SeriesAnswered? && a.status == 200)
    ensures s.record.stockPoints.Some? ==> !s.failed && s.record.stockPoints == a.body
    ensures !s.failed ==> s.record.stockPoints == a.body
  {
    match a
    case SeriesThrew(_) => Settled(StockRecord(symbol, None), true)
    case SeriesAnswered(status, body) =>
      if status == 200 then Settled(StockRecord(symbol, body), false)
      else if status == 500 then Settled(StockRecord(symbol, None), true)
      else Settled(StockRecord(symbol, None), true)
  }

  /** The array `Promise.all` resolves to: one record per input slot. */
  function Records(symbols: seq<Symbol>, attempts: seq<SeriesAttempt>): (data: seq<StockRecord>)
    requires |attempts| == |symbols|
    ensures |data| == |symbols|
    ensures forall i :: 0 <= i < |data| ==> data[i].symbol == symbols[i]
    ensures forall i :: 0 <= i < |data| ==>
      data[i].stockPoints == (if attempts[i].SeriesAnswered? && attempts[i].status == 200
                              then attempts[i].body else None)
  {
    seq(|symbols|, i requires 0 <= i < |symbols| => SettleStock(symbols[i], attempts[i]).record)
  }

  /** The slot numbers 0 .. n-1 in order. */
  function Indices(n: nat): (r: seq<int>)
    ensures |r| == n
    ensures forall i :: 0 <= i < n ==> r[i] == i
  {
    seq(n, i => i)
  }

  /** The order in which the n concurrent requests settle. */
  predicate IsPermutation(order: seq<int>, n: nat)
  {
    multiset(order) == multiset(Indices(n))
  }

  /** The symbols pushed onto the error list when the slots in `order` settle
      one after another. */
  function ErrorsAt(symbols: seq<Symbol>, attempts: seq<SeriesAttempt>, order: seq<int>): (e: seq<Symbol>)
    requires |attempts| == |symbols|
    ensures |e| <= |order|
    ensures forall k :: 0 <= k < |e| ==> e[k] in symbols
  {
    if order == [] then []
    else
      var i := order[|order| - 1];
      ErrorsAt(symbols, attempts, order[..|order| - 1])
        + (if 0 <= i < |symbols| && SettleStock(symbols[i], attempts[i]).failed then [symbols[i]] else [])
  }

  lemma PermutationInRange(order: seq<int>, n: nat)
    requires IsPermutation(order, n)
    ensures |order| == n
    ensures forall k :: 0 <= k < n ==> 0 <= order[k] < n
    ensures forall j :: 0 <= j < n ==> j in order
  {
    assert |order| == |multiset(order)| == |multiset(Indices(n))| == n;
    forall k | 0 <= k < |order| ensures 0 <= order[k] < n {
      assert order[k] in multiset(Indices(n));
    }
    forall j | 0 <= j < n ensures j in order {
      assert Indices(n)[j] == j;
      assert j in multiset(Indices(n));
    }
  }

  /** getAllStockPoints. The fan-out starts every request in input order; the
      callbacks then run in the order the requests settle, each writing its
      own slot and possibly pushing onto the shared `stockError` list; finally
      `Promise.all` hands back the slots in input order. */
  method GetAllStockPoints(symbols: seq<Symbol>, attempts: seq<SeriesAttempt>, completion: seq<int>)
    returns (result: Aggregate, requests: seq<string>)
    requires |attempts| == |symbols|
    requires IsPermutation(completion, |symbols|)
    ensures requests == Requests(symbols)
    ensures result.data == Records(symbols, attempts)
    ensures result.error == ErrorsAt(symbols, attempts, completion)
    ensures symbols == [] ==> result == Aggregate([], []) && requests == []
  {
    var n := |symbols|;
    PermutationInRange(completion, n);
    requests := FanOut(symbols);

    var slots: seq<Option<StockRecord>> := seq(n, _ => None);
    var stockError: seq<Symbol> := [];
    for k := 0 to n
      invariant |slots| == n
      invariant forall j :: 0 <= j < n ==>
        slots[j] == if j in completion[..k] then Some(SettleStock(symbols[j], attempts[j]).record) else None
      invariant stockError == ErrorsAt(symbols, attempts, completion[..k])
    {
      var i := completion[k];
      var settled := SettleStock(symbols[i], attempts[i]);
      assert completion[..k + 1] == completion[..k] + [i];
      assert completion[..k + 1][..k] == completion[..k];
      slots := slots[i := Some(settled.record)];
      if settled.failed {
        stockError := stockError + [symbols[i]];
      }
    }
    assert completion[..n] == completion;
    var data := seq(n, j requires 0 <= j < n => slots[j].value);
    assert data == Records(symbols, attempts);
    result := Aggregate(data, stockError);
  }

  /** The fan-out of getAllStockPoints: `stockSymbols.map` starts one request
      per symbol, in input order. */
  method FanOut(symbols: seq<Symbol>) returns (requests: seq<string>)
    ensures requests == Requests(symbols)
  {
    requests := [];
    for i := 0 to |symbols|
      invariant requests == Requests(symbols[..i])
    {
      requests := requests + [StockUrl(symbols[i])];
    }
    assert symbols[..|symbols|] == symbols;
  }

  // ---------------------------------------------------------------------------
  // getStockData

  /** getStockData: a missing symbol list ends the pipeline with a message and
      no per-symbol request; an empty list is truthy and is aggregated. */
  method GetStockData(symbolsAttempt: SymbolsAttempt, attempts: seq<SeriesAttempt>, completion: seq<int>)
    returns (result: StockDataResult, requests: seq<string>)
    requires GetStockSymbols(symbolsAttempt).Some? ==>
      |attempts| == |GetStockSymbols(symbolsAttempt).value| &&
      IsPermutation(completion, |GetStockSymbols(symbolsAttempt).value|)
    ensures GetStockSymbols(symbolsAttempt).None? ==>
      result == Fatal(SYMBOLS_ERROR) && requests == [SYMBOLS_URL]
    ensures GetStockSymbols(symbolsAttempt).Some? ==>
      var symbols := GetStockSymbols(symbolsAttempt).value;
      result == Collected(Records(symbols, attempts), ErrorsAt(symbols, attempts, completion)) &&
      requests == [SYMBOLS_URL] + Requests(symbols)
  {
    var stockSymbols := GetStockSymbols(symbolsAttempt);
    if stockSymbols.None? {
      return Fatal(SYMBOLS_ERROR), [SYMBOLS_URL];
    }
    var aggregate, stockRequests := GetAllStockPoints(stockSymbols.value, attempts, completion);
    result := Collected(aggregate.data, aggregate.error);
    requests := [SYMBOLS_URL] + stockRequests;
  }

  // ---------------------------------------------------------------------------
  // processStockData

  /** `stockData.filter(stock => stock.stockPoints)`: an empty list of points
      is truthy and kept, a null one dropped. */
  function ValidData(records: seq<StockRecord>): (r: seq<StockRecord>)
    ensures |r| <= |records|
    ensures forall k :: 0 <= k < |r| ==> r[k].stockPoints.Some?
  {
    if records == [] then []
    else
      var init, last := records[..|records| - 1], records[|records| - 1];
      if last.stockPoints.Some? then ValidData(init) + [last] else ValidData(init)
  }

  /** The filter keeps every record that has points, in the records' order. */
  lemma {:induction false} ValidDataKeeps(records: seq<StockRecord>)
    ensures IsSubsequence(ValidData(records), records)
    ensures forall k :: 0 <= k < |records| && records[k].stockPoints.Some? ==> records[k] in ValidData(records)
  {
    if records != [] {
      var init, last := records[..|records| - 1], records[|records| - 1];
      ValidDataKeeps(init);
      assert records == init + [last];
      SubsequenceExtend(ValidData(init), init, last);
      forall k | 0 <= k < |records| && records[k].stockPoints.Some?
        ensures records[k] in ValidData(records)
      {
        if k < |init| {
          assert records[k] == init[k];
        }
      }
    }
  }

  /** `a` is `b` with some elements left out, the rest in their order. */
  predicate IsSubsequence<T(==)>(a: seq<T>, b: seq<T>)
  {
    || a == []
    || (b != [] && a[|a| - 1] == b[|b| - 1] && IsSubsequence(a[..|a| - 1], b[..|b| - 1]))
    || (b != [] && IsSubsequence(a, b[..|b| - 1]))
  }

  lemma SubsequenceExtend<T>(a: seq<T>, b: seq<T>, x: T)
    requires IsSubsequence(a, b)
    ensures IsSubsequence(a, b + [x])
    ensures IsSubsequence(a + [x], b + [x])
  {
    assert (a + [x])[..|a|] == a;
    assert (b + [x])[..|b|] == b;
  }

  /** `stockPoints.map(data => data.value)`. */
  function Values(points: seq<Point>): (vs: seq<real>)
    ensures |vs| == |points|
    ensures forall i :: 0 <= i < |points| ==> vs[i] == points[i].value
  {
    if points == [] then [] else [points[0].value] + Values(points[1..])
  }

  /** `stockPoints.map(data => data.timestamp)`. */
  function Timestamps(points: seq<Point>): (ts: seq<real>)
    ensures |ts| == |points|
    ensures forall i :: 0 <= i < |points| ==> ts[i] == points[i].timestamp
  {
    if points == [] then [] else [points[0].timestamp] + Timestamps(points[1..])
  }

  /** Values and timestamps of a series have one entry per point. */
  predicate Aligned(s: ChartSeries)
  {
    |s.values| == |s.timestamps|
  }

  function Reshape(rec: StockRecord): (s: ChartSeries)
    requires rec.stockPoints.Some?
    ensures s.symbol == rec.symbol && Aligned(s)
    ensures |s.values| == |rec.stockPoints.value|
    ensures forall i :: 0 <= i < |s.values| ==>
      s.values[i] == rec.stockPoints.value[i].value && s.timestamps[i] == rec.stockPoints.value[i].timestamp
  {
    ChartSeries(rec.symbol, Values(rec.stockPoints.value), Timestamps(rec.stockPoints.value))
  }

  /** processStockData: keep the records that have points, and turn each into
      aligned lists of values and timestamps. */
  function ProcessStockData(records: seq<StockRecord>): (series: seq<ChartSeries>)
    ensures |series| == |ValidData(records)|
    ensures forall k :: 0 <= k < |series| ==> Aligned(series[k])
    ensures forall k :: 0 <= k < |series| ==> series[k] == Reshape(ValidData(records)[k])
  {
    var valid := ValidData(records);
    seq(|valid|, k requires 0 <= k < |valid| => Reshape(valid[k]))
  }

  // ---------------------------------------------------------------------------
  // Properties of the pipeline

  function RecordSymbols(records: seq<StockRecord>): (s: seq<Symbol>)
    ensures |s| == |records|
  {
    if records == [] then [] else RecordSymbols(records[..|records| - 1]) + [records[|records| - 1].symbol]
  }

  function SeriesSymbols(series: seq<ChartSeries>): (s: seq<Symbol>)
    ensures |s| == |series|
    ensures forall k :: 0 <= k < |series| ==> s[k] == series[k].symbol
  {
    if series == [] then [] else SeriesSymbols(series[..|series| - 1]) + [series[|series| - 1].symbol]
  }

  /** The symbols whose record has null points, in record order. */
  function NullSymbols(records: seq<StockRecord>): (s: seq<Symbol>)
    ensures |s| <= |records|
  {
    if records == [] then []
    else
      var last := records[|records| - 1];
      NullSymbols(records[..|records| - 1]) + (if last.stockPoints.None? then [last.symbol] else [])
  }

  /** Every 200 answer carries a (possibly empty) list of points, never null. */
  predicate NoNullSuccess(attempts: seq<SeriesAttempt>)
  {
    forall k :: 0 <= k < |attempts| && attempts[k].SeriesAnswered? && attempts[k].status == 200 ==>
      attempts[k].body.Some?
  }

  lemma {:induction false} ErrorsAtAppend(symbols: seq<Symbol>, attempts: seq<SeriesAttempt>, a: seq<int>, b: seq<int>)
    requires |attempts| == |symbols|
    ensures ErrorsAt(symbols, attempts, a + b) == ErrorsAt(symbols, attempts, a) + ErrorsAt(symbols, attempts, b)
    decreases |b|
  {
    if b == [] {
      assert a + b == a;
    } else {
      var b' := b[..|b| - 1];
      assert (a + b)[..|a + b| - 1] == a + b';
      ErrorsAtAppend(symbols, attempts, a, b');
    }
  }

  /** The multiset of pushed symbols does not depend on the settling order. */
  lemma {:induction false} ErrorsOrderIndependent(symbols: seq<Symbol>, attempts: seq<SeriesAttempt>, o1: seq<int>, o2: seq<int>)
    requires |attempts| == |symbols|
    requires multiset(o1) == multiset(o2)
    ensures multiset(ErrorsAt(symbols, attempts, o1)) == multiset(ErrorsAt(symbols, attempts, o2))
    decreases |o1|
  {
    if o1 == [] {
      assert |o2| == |multiset(o2)| == 0;
    } else {
      var x, init := o1[|o1| - 1], o1[..|o1| - 1];
      assert o1 == init + [x];
      assert x in multiset(o2);
      assert x in o2;
      var p :| 0 <= p < |o2| && o2[p] == x;
      var before, after := o2[..p], o2[p + 1..];
      RemoveLastAndAt(o1, o2, p);
      ErrorsMoveLast(symbols, attempts, before, after, x);
      ErrorsOrderIndependent(symbols, attempts, init, before + after);
      ErrorsAtAppend(symbols, attempts, init, [x]);
      var eInit, eX := ErrorsAt(symbols, attempts, init), ErrorsAt(symbols, attempts, [x]);
      assert ErrorsAt(symbols, attempts, o1) == eInit + eX;
      assert multiset(ErrorsAt(symbols, attempts, o1)) == multiset(eInit) + multiset(eX);
    }
  }

  /** Taking the same slot out of two orders over the same slots leaves two
      orders over the same slots. */
  lemma RemoveLastAndAt(o1: seq<int>, o2: seq<int>, p: nat)
    requires o1 != [] && p < |o2| && o2[p] == o1[|o1| - 1]
    requires multiset(o1) == multiset(o2)
    ensures o1 == o1[..|o1| - 1] + [o2[p]]
    ensures o2 == o2[..p] + [o2[p]] + o2[p + 1..]
    ensures multiset(o1[..|o1| - 1]) == multiset(o2[..p] + o2[p + 1..])
  {
    var x := o2[p];
    assert o1 == o1[..|o1| - 1] + [x];
    assert o2 == o2[..p] + [x] + o2[p + 1..];
    assert multiset(o1[..|o1| - 1]) == multiset(o1) - multiset{x};
    assert multiset(o2[..p] + o2[p + 1..]) == multiset(o2) - multiset{x};
  }

  /** Settling one slot later does not change which symbols were pushed. */
  lemma ErrorsMoveLast(symbols: seq<Symbol>, attempts: seq<SeriesAttempt>, before: seq<int>, after: seq<int>, x: int)
    requires |attempts| == |symbols|
    ensures multiset(ErrorsAt(symbols, attempts, before + [x] + after))
      == multiset(ErrorsAt(symbols, attempts, before + after)) + multiset(ErrorsAt(symbols, attempts, [x]))
  {
    ErrorsAtAppend(symbols, attempts, before, after);
    ErrorsAtAppend(symbols, attempts, before, [x]);
    ErrorsAtAppend(symbols, attempts, before + [x], after);
  }

  /** Settled in input order, the error list is the list of null records. */
  lemma {:induction false} InputOrderErrors(symbols: seq<Symbol>, attempts: seq<SeriesAttempt>, k: nat)
    requires |attempts| == |symbols| && k <= |symbols| && NoNullSuccess(attempts)
    ensures ErrorsAt(symbols, attempts, Indices(k)) == NullSymbols(Records(symbols, attempts)[..k])
  {
    if k > 0 {
      InputOrderErrors(symbols, attempts, k - 1);
      assert Indices(k)[..k - 1] == Indices(k - 1);
      assert Records(symbols, attempts)[..k][..k - 1] == Records(symbols, attempts)[..k - 1];
    }
  }

  /** For non-null 200 bodies, a symbol is in the error list (as a multiset)
      exactly as often as its record has null points, whatever the order in
      which the requests settled. */
  lemma ErrorsAreNullRecords(symbols: seq<Symbol>, attempts: seq<SeriesAttempt>, completion: seq<int>)
    requires |attempts| == |symbols| && IsPermutation(completion, |symbols|) && NoNullSuccess(attempts)
    ensures multiset(ErrorsAt(symbols, attempts, completion)) == multiset(NullSymbols(Records(symbols, attempts)))
  {
    var n := |symbols|;
    PermutationInRange(completion, n);
    InputOrderErrors(symbols, attempts, n);
    assert Records(symbols, attempts)[..n] == Records(symbols, attempts);
    ErrorsOrderIndependent(symbols, attempts, completion, Indices(n));
  }

  /** Every record either reaches the chart or has null points. */
  lemma RecordsPartition(records: seq<StockRecord>)
    ensures multiset(RecordSymbols(records))
      == multiset(SeriesSymbols(ProcessStockData(records))) + multiset(NullSymbols(records))
  {
    ChartSymbolsOfValid(records);
    ValidPartition(records);
  }

  lemma {:induction false} ValidPartition(records: seq<StockRecord>)
    ensures multiset(RecordSymbols(records))
      == multiset(RecordSymbols(ValidData(records))) + multiset(NullSymbols(records))
  {
    if records != [] {
      var init, last := records[..|records| - 1], records[|records| - 1];
      ValidPartition(init);
      if last.stockPoints.Some? {
        assert RecordSymbols(ValidData(records)) == RecordSymbols(ValidData(init)) + [last.symbol];
      } else {
        assert ValidData(records) == ValidData(init);
      }
    }
  }

  /** The symbols reaching the chart are those of the valid records. */
  lemma ChartSymbolsOfValid(records: seq<StockRecord>)
    ensures SeriesSymbols(ProcessStockData(records)) == RecordSymbols(ValidData(records))
  {
    var series, valid := ProcessStockData(records), ValidData(records);
    RecordSymbolsAt(valid);
    assert SeriesSymbols(series) == RecordSymbols(valid);
  }

  lemma {:induction false} RecordSymbolsAt(records: seq<StockRecord>)
    ensures forall k :: 0 <= k < |records| ==> RecordSymbols(records)[k] == records[k].symbol
  {
    if records != [] {
      RecordSymbolsAt(records[..|records| - 1]);
    }
  }

  lemma RecordSymbolsOfRecords(symbols: seq<Symbol>, attempts: seq<SeriesAttempt>)
    requires |attempts| == |symbols|
    ensures RecordSymbols(Records(symbols, attempts)) == symbols
  {
    RecordSymbolsAt(Records(symbols, attempts));
  }

  /** For non-null 200 bodies, every input symbol is either charted or
      reported, never both and never neither (counting duplicates). */
  lemma AggregationPartition(symbols: seq<Symbol>, attempts: seq<SeriesAttempt>, completion: seq<int>)
    requires |attempts| == |symbols| && IsPermutation(completion, |symbols|) && NoNullSuccess(attempts)
    ensures multiset(symbols)
      == multiset(SeriesSymbols(ProcessStockData(Records(symbols, attempts))))
       + multiset(ErrorsAt(symbols, attempts, completion))
  {
    ErrorsAreNullRecords(symbols, attempts, completion);
    RecordsPartition(Records(symbols, attempts));
    RecordSymbolsOfRecords(symbols, attempts);
  }

  /** The charted symbols appear in input order. */
  lemma ChartKeepsInputOrder(symbols: seq<Symbol>, attempts: seq<SeriesAttempt>)
    requires |attempts| == |symbols|
    ensures IsSubsequence(SeriesSymbols(ProcessStockData(Records(symbols, attempts))), symbols)
  {
    var records := Records(symbols, attempts);
    ChartSymbolsOfValid(records);
    RecordSymbolsOfRecords(symbols, attempts);
    ValidDataKeeps(records);
    SubsequenceMapsSymbols(ValidData(records), records);
  }

  lemma {:induction false} SubsequenceMapsSymbols(a: seq<StockRecord>, b: seq<StockRecord>)
    requires IsSubsequence(a, b)
    ensures IsSubsequence(RecordSymbols(a), RecordSymbols(b))
    decreases |b|
  {
    if a != [] {
      var a', b' := a[..|a| - 1], b[..|b| - 1];
      if a[|a| - 1] == b[|b| - 1] && IsSubsequence(a', b') {
        SubsequenceMapsSymbols(a', b');
        SubsequenceExtend(RecordSymbols(a'), RecordSymbols(b'), b[|b| - 1].symbol);
      } else {
        SubsequenceMapsSymbols(a, b');
        SubsequenceExtend(RecordSymbols(a), RecordSymbols(b'), b[|b| - 1].symbol);
      }
    }
  }

  /** A 200 answer with a null body is neither charted nor reported. */
  lemma NullSuccessIsDropped()
    ensures var records := Records(["AAA"], [SeriesAnswered(200, None)]);
      ProcessStockData(records) == [] && ErrorsAt(["AAA"], [SeriesAnswered(200, None)], [0]) == []
  {
    var records := Records(["AAA"], [SeriesAnswered(200, None)]);
    assert records == [StockRecord("AAA", None)];
    assert records[..0] == [];
  }
}
