/**
 * The chart geometry of static/scripts.js: the fixed plot rectangle, the
 * affine maps from (timestamp, value) to pixels, the y-axis ticks, the
 * x-axis hour labels, the legend positions, the series colours and the
 * largest value over all series. Numbers are exact reals; the source's
 * doubles, NaN and Infinity are not modelled.
 */
module Projection {
  import opened Wrappers
  import opened Stocks

  const GRAPH_TOP: real := 50.0
  const GRAPH_BOTTOM: real := 550.0
  const GRAPH_LEFT: real := 100.0
  const GRAPH_RIGHT: real := 1000.0
  const GRAPH_HEIGHT: real := 500.0
  const GRAPH_WIDTH: real := 900.0
  const NUM_HOURS: nat := 9
  const COLORS: seq<string> := ["red", "orange", "green", "blue", "purple"]

  /** Milliseconds in an hour: the unit of the timestamps. */
  const MS_PER_HOUR: real := 3600000.0

  /** Tick spacing on the value axis. */
  const TICK_STEP: nat := 10

  /** A pixel position on the canvas. */
  datatype Pt = Pt(x: real, y: real)

  // ---------------------------------------------------------------------------
  // The time window and the coordinate maps

  /** The earliest time drawn: NUM_HOURS hours before `now`. */
  function WindowStart(now: real): (start: real)
    ensures start < now
    ensures now - start == NUM_HOURS as real * MS_PER_HOUR
  {
    now - NUM_HOURS as real * MS_PER_HOUR
  }

  /** `xCoord`: a timestamp's horizontal position. */
  function XCoord(t: real, minT: real, maxT: real): real
    requires minT < maxT
  {
    (t - minT) / (maxT - minT) * GRAPH_WIDTH + GRAPH_LEFT
  }

  /** `yCoord`: a value's vertical position; the source divides by the
      largest value, so a zero maximum is excluded. */
  function YCoord(v: real, maxValue: real): real
    requires maxValue != 0.0
  {
    GRAPH_BOTTOM - v / maxValue * GRAPH_HEIGHT
  }

  lemma XCoordEnds(minT: real, maxT: real)
    requires minT < maxT
    ensures XCoord(minT, minT, maxT) == GRAPH_LEFT
    ensures XCoord(maxT, minT, maxT) == GRAPH_RIGHT
  {
    assert (maxT - minT) / (maxT - minT) == 1.0;
  }

  /** Later timestamps are drawn further right. */
  lemma XCoordIncreasing(t1: real, t2: real, minT: real, maxT: real)
    requires minT < maxT && t1 < t2
    ensures XCoord(t1, minT, maxT) < XCoord(t2, minT, maxT)
  {
    var w := maxT - minT;
    assert (t1 - minT) / w < (t2 - minT) / w by {
      assert (t2 - minT) / w - (t1 - minT) / w == (t2 - t1) / w;
    }
  }

  /** A timestamp inside the window is drawn between the plot's left and right edges. */
  lemma XCoordInside(t: real, minT: real, maxT: real)
    requires minT <= t <= maxT && minT < maxT
    ensures GRAPH_LEFT <= XCoord(t, minT, maxT) <= GRAPH_RIGHT
  {
    XCoordEnds(minT, maxT);
    if minT < t { XCoordIncreasing(minT, t, minT, maxT); }
    if t < maxT { XCoordIncreasing(t, maxT, minT, maxT); }
  }

  lemma YCoordEnds(maxValue: real)
    requires maxValue != 0.0
    ensures YCoord(0.0, maxValue) == GRAPH_BOTTOM
    ensures YCoord(maxValue, maxValue) == GRAPH_TOP
  {
    assert maxValue / maxValue == 1.0;
  }

  /** With a positive maximum, larger values are drawn higher (smaller y). */
  lemma YCoordDecreasing(v1: real, v2: real, maxValue: real)
    requires maxValue > 0.0 && v1 < v2
    ensures YCoord(v1, maxValue) > YCoord(v2, maxValue)
  {
    assert v1 / maxValue < v2 / maxValue by {
      assert v2 / maxValue - v1 / maxValue == (v2 - v1) / maxValue;
    }
  }

  /** A value between 0 and the maximum is drawn between the plot's bottom and top. */
  lemma YCoordInside(v: real, maxValue: real)
    requires maxValue > 0.0 && 0.0 <= v <= maxValue
    ensures GRAPH_TOP <= YCoord(v, maxValue) <= GRAPH_BOTTOM
  {
    YCoordEnds(maxValue);
    if 0.0 < v { YCoordDecreasing(0.0, v, maxValue); }
    if v < maxValue { YCoordDecreasing(v, maxValue, maxValue); }
  }

  // ---------------------------------------------------------------------------
  // The x-axis hour labels

  /** Where the label "i hours ago" is written. */
  function HourLabelX(i: int): real
  {
    (NUM_HOURS - i) as real / NUM_HOURS as real * GRAPH_WIDTH + GRAPH_LEFT
  }

  /** Each hour label sits exactly where the timestamp `i` hours before now
      is drawn: NUM_HOURS at the left edge, 0 at the right edge. */
  lemma HourLabelMatchesTime(i: int, now: real)
    ensures HourLabelX(i) == XCoord(now - i as real * MS_PER_HOUR, WindowStart(now), now)
    ensures HourLabelX(NUM_HOURS) == GRAPH_LEFT && HourLabelX(0) == GRAPH_RIGHT
  {
    var minT := WindowStart(now);
    var t := now - i as real * MS_PER_HOUR;
    assert (t - minT) / (now - minT) == (NUM_HOURS - i) as real / NUM_HOURS as real by {
      assert t - minT == (NUM_HOURS - i) as real * MS_PER_HOUR;
      assert now - minT == NUM_HOURS as real * MS_PER_HOUR;
    }
  }

  /** Later labels (more hours ago) are further left. */
  lemma HourLabelsDecreasing(i: int, j: int)
    requires i < j
    ensures HourLabelX(i) > HourLabelX(j)
  {
  }

  // ---------------------------------------------------------------------------
  // The y-axis ticks

  /** The tick values `i, i + 10, ...` strictly below `maxValue`. */
  function TicksFrom(i: nat, maxValue: real): (ts: seq<nat>)
    ensures forall k :: 0 <= k < |ts| ==> i <= ts[k] && (ts[k] as real) < maxValue
    decreases maxValue.Floor - i
  {
    if (i as real) < maxValue then [i] + TicksFrom(i + TICK_STEP, maxValue) else []
  }

  /** The ticks drawn by drawLabels: 0, 10, 20, ... strictly below the maximum. */
  function Ticks(maxValue: real): seq<nat>
  {
    TicksFrom(0, maxValue)
  }

  /** The k-th tick from i is i + 10k, and every tick lies below the maximum. */
  lemma {:induction false} TicksFromAt(i: nat, maxValue: real)
    ensures forall k :: 0 <= k < |TicksFrom(i, maxValue)| ==>
      TicksFrom(i, maxValue)[k] == i + TICK_STEP * k
    decreases maxValue.Floor - i
  {
    if (i as real) < maxValue {
      TicksFromAt(i + TICK_STEP, maxValue);
    }
  }

  /** The ticks from i reach every step below the maximum. */
  lemma {:induction false} TicksFromComplete(i: nat, maxValue: real, k: nat)
    requires ((i + TICK_STEP * k) as real) < maxValue
    ensures k < |TicksFrom(i, maxValue)|
    decreases k
  {
    if k > 0 {
      TicksFromComplete(i + TICK_STEP, maxValue, k - 1);
    }
  }

  /** t is a tick exactly when it is a multiple of 10 in [0, maxValue). */
  lemma TickMembership(t: int, maxValue: real)
    ensures t in Ticks(maxValue) <==> 0 <= t && t % TICK_STEP == 0 && (t as real) < maxValue
  {
    TicksFromAt(0, maxValue);
    if 0 <= t && t % TICK_STEP == 0 && (t as real) < maxValue {
      var k := t / TICK_STEP;
      TicksFromComplete(0, maxValue, k);
      assert Ticks(maxValue)[k] == t;
    }
  }

  /** The ticks are 0, 10, 20, ... in increasing order. */
  lemma TicksAscending(maxValue: real)
    ensures forall k :: 0 <= k < |Ticks(maxValue)| ==> Ticks(maxValue)[k] == TICK_STEP * k
  {
    TicksFromAt(0, maxValue);
  }

  /** Each tick is drawn strictly below the top of the plot and no lower than its bottom. */
  lemma TickInsidePlot(t: int, maxValue: real)
    requires t in Ticks(maxValue) && maxValue > 0.0
    ensures GRAPH_TOP < YCoord(t as real, maxValue) <= GRAPH_BOTTOM
  {
    TickMembership(t, maxValue);
    YCoordEnds(maxValue);
    YCoordDecreasing(t as real, maxValue, maxValue);
    if t > 0 { YCoordDecreasing(0.0, t as real, maxValue); }
  }

  /** No tick is drawn when the maximum is 0 or less (drawLabels' default). */
  lemma NoTicksWithoutPositiveMax(maxValue: real)
    requires maxValue <= 0.0
    ensures Ticks(maxValue) == []
  {
  }

  // ---------------------------------------------------------------------------
  // Legend and colours

  /** `COLORS[stockIndex] || 'black'`: the palette is not reused. */
  function ColourOf(i: nat): (c: string)
    ensures i < |COLORS| ==> c == COLORS[i]
    ensures i >= |COLORS| ==> c == "black"
  {
    if i < |COLORS| then COLORS[i] else "black"
  }

  /** Every series past the fifth is black, unlike a cyclic palette. */
  lemma ColoursNotCyclic()
    ensures ColourOf(5) != COLORS[5 % |COLORS|]
    ensures forall i, j :: 0 <= i < j < |COLORS| ==> ColourOf(i) != ColourOf(j)
  {
  }

  /** `startX` of the legend entry of series i among n, as written in the source. */
  function LegendX(i: nat, n: nat): real
    requires i < n
  {
    i as real / n as real * GRAPH_WIDTH + GRAPH_LEFT + 1.0 / n as real * GRAPH_WIDTH / 2.0
  }

  /** The legend entry of series i is centred in the i-th of n equal
      columns across the plot. */
  lemma LegendXCentred(i: nat, n: nat)
    requires i < n
    ensures LegendX(i, n) == (i as real + 0.5) / n as real * GRAPH_WIDTH + GRAPH_LEFT
    ensures GRAPH_LEFT < LegendX(i, n) < GRAPH_RIGHT
  {
    var N, a := n as real, i as real;
    DivAdd(a, 0.5, N);
    assert 1.0 / N * GRAPH_WIDTH / 2.0 == 0.5 / N * GRAPH_WIDTH;
    assert a / N * GRAPH_WIDTH + 0.5 / N * GRAPH_WIDTH == (a + 0.5) / N * GRAPH_WIDTH;
    assert 0.0 < (a + 0.5) / N < 1.0 by {
      DivBelowOne(a + 0.5, N);
    }
  }

  lemma DivAdd(a: real, b: real, n: real)
    requires n > 0.0
    ensures a / n + b / n == (a + b) / n
  {
  }

  lemma DivBelowOne(a: real, n: real)
    requires 0.0 < a < n
    ensures 0.0 < a / n < 1.0
  {
    var q := a / n;
    assert q * n == a;
    if q >= 1.0 {
      assert false;
    }
    if q <= 0.0 {
      assert false;
    }
  }

  /** Later series get legend entries further right. */
  lemma LegendXIncreasing(i: nat, j: nat, n: nat)
    requires i < j < n
    ensures LegendX(i, n) < LegendX(j, n)
  {
    LegendXCentred(i, n);
    LegendXCentred(j, n);
    var N := n as real;
    assert (i as real + 0.5) / N < (j as real + 0.5) / N by {
      assert (j as real + 0.5) / N - (i as real + 0.5) / N == (j - i) as real / N;
    }
  }

  /** `startY` of every legend entry. */
  function LegendY(fontHeight: real): real
  {
    GRAPH_TOP - fontHeight / 3.0 - 15.0
  }

  /** The legend swatch is drawn above the plot and its text always sits on the same baseline. */
  lemma LegendAbovePlot(fontHeight: real)
    requires fontHeight >= 0.0
    ensures LegendY(fontHeight) < GRAPH_TOP
    ensures LegendY(fontHeight) + fontHeight / 3.0 == GRAPH_TOP - 15.0
  {
  }

  // ---------------------------------------------------------------------------
  // The largest value

  /** `Math.max(...values)`; None for an empty list (where the source has -Infinity). */
  function SeriesMax(values: seq<real>): (r: Option<real>)
    ensures r.None? <==> values == []
    ensures r.Some? ==> r.value in values && forall v :: v in values ==> v <= r.value
  {
    if values == [] then None
    else
      assert values == [values[0]] + values[1..];
      match SeriesMax(values[1..])
      case None => Some(values[0])
      case Some(m) => Some(if values[0] < m then m else values[0])
  }

  /** `Math.max(...stockData.map(stock => Math.max(...stock.values)))`; None
      when no series has a value (where the source has -Infinity). */
  function MaxValue(series: seq<ChartSeries>): (r: Option<real>)
    ensures r.None? <==> forall k :: 0 <= k < |series| ==> series[k].values == []
    ensures r.Some? ==> exists k :: 0 <= k < |series| && r.value in series[k].values
    ensures r.Some? ==> forall k, v :: 0 <= k < |series| && v in series[k].values ==> v <= r.value
  {
    if series == [] then None
    else
      var rest := MaxValue(series[1..]);
      assert forall k :: 1 <= k < |series| ==> series[k] == series[1..][k - 1];
      match SeriesMax(series[0].values)
      case None => rest
      case Some(m) =>
        match rest
        case None => Some(m)
        case Some(m') => Some(if m < m' then m' else m)
  }
}
