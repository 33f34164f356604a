/**
 * `CandlestickChart.processChartData`: turns the backend's chart payload into
 * the ordered points the chart draws.
 */
module CandlestickChart {
  import opened Wrappers
  import opened JsValues
  import opened ChartIndices
  import opened TradeLookup

  /** The payload: each series is an object keyed by period; a missing one is `None`. */
  datatype ChartData = ChartData(
    openN: Option<Props>,
    highN: Option<Props>,
    lowN: Option<Props>,
    closeN: Option<Props>,
    sma10: Option<Props>,
    sma20: Option<Props>,
    trades: Option<seq<Option<RawTrade>>>)

  /** One drawn candle: its position, its period, its prices and the trade at that period. */
  datatype Point = Point(
    time: nat,
    originalTime: real,
    open: real,
    high: real,
    low: real,
    close: real,
    sma10: Option<real>,
    sma20: Option<real>,
    trade: Option<Trade>)

  /** How the body of the `try` block ends. */
  datatype Outcome = Returned(points: seq<Point>) | ThrewTypeError

  /** The sorted numeric periods of `Open_n`. */
  function Indices(openN: Props, conv: Conv): seq<real>
  {
    SortAscending(NumericKeys(Keys(openN), conv.parse))
  }

  /** `Number(series[t])`, reading the property key `String(t)`. */
  function ValueAt(series: Props, t: real, conv: Conv): Num
  {
    ToNumber(Get(series, conv.show(t)), conv)
  }

  /** `n || 0`: NaN (and 0 itself) become 0. */
  function OrZero(n: Num): real
  {
    match n
    case NaN => 0.0
    case Finite(v) => v
  }

  /** `n || undefined`: NaN and 0 become undefined. */
  function OrUndefined(n: Num): Option<real>
  {
    match n
    case NaN => None
    case Finite(v) => if v == 0.0 then None else Some(v)
  }

  /** `data.SMA_x ? Number(data.SMA_x[t]) || undefined : undefined`. */
  function Average(series: Option<Props>, t: real, conv: Conv): Option<real>
  {
    if series.None? then None else OrUndefined(ValueAt(series.value, t, conv))
  }

  /** The point built for the `k`-th sorted index `t`. */
  function MakePoint(k: nat, t: real, d: ChartData, byPeriod: map<Num, Trade>, conv: Conv): Point
    requires d.openN.Some? && d.highN.Some? && d.lowN.Some? && d.closeN.Some?
  {
    Point(k, t,
          OrZero(ValueAt(d.openN.value, t, conv)),
          OrZero(ValueAt(d.highN.value, t, conv)),
          OrZero(ValueAt(d.lowN.value, t, conv)),
          OrZero(ValueAt(d.closeN.value, t, conv)),
          Average(d.sma10, t, conv),
          Average(d.sma20, t, conv),
          if Finite(t) in byPeriod then Some(byPeriod[Finite(t)]) else None)
  }

  /** True when the payload has no `Open_n` or an empty one (the first early return). */
  predicate NoSeries(data: Option<ChartData>)
  {
    data.None? || data.value.openN.None? || |data.value.openN.value| == 0
  }

  /** The `try` block: early returns, the lookup, and `indices.map(...)`. */
  function Attempt(data: Option<ChartData>, conv: Conv): Outcome
  {
    if NoSeries(data) then Returned([])
    else
      var d := data.value;
      var indices := Indices(d.openN.value, conv);
      if |indices| == 0 then Returned([])
      else
        var byPeriod := TradesByPeriod(d.trades, conv);
        // Reading `data.High_n[i]` (and Low_n, Close_n) on a missing series throws.
        if d.highN.None? || d.lowN.None? || d.closeN.None? then ThrewTypeError
        else Returned(seq(|indices|, k requires 0 <= k < |indices| => MakePoint(k, indices[k], d, byPeriod, conv)))
  }

  /** `processChartData`: the `catch` turns the exception into an empty array. */
  function ChartPoints(data: Option<ChartData>, conv: Conv): seq<Point>
  {
    match Attempt(data, conv)
    case Returned(points) => points
    case ThrewTypeError => []
  }

  /**
   * The source's steps in order. Its results are those of `ChartPoints`; it
   * exists so that the trade lookup is built by the source's loop,
   * `BuildTradesByPeriod`, rather than by the fold that specifies it.
   */
  method ProcessChartData(data: Option<ChartData>, conv: Conv) returns (points: seq<Point>)
    ensures points == ChartPoints(data, conv)
  {
    if data.None? || data.value.openN.None? || |data.value.openN.value| == 0 {
      return [];
    }
    var d := data.value;
    var indices := SortAscending(NumericKeys(Keys(d.openN.value), conv.parse));
    if |indices| == 0 {
      return [];
    }
    var byPeriod := BuildTradesByPeriod(d.trades, conv);
    if d.highN.None? || d.lowN.None? || d.closeN.None? {
      // TypeError caught
      return [];
    }
    points := seq(|indices|, k requires 0 <= k < |indices| => MakePoint(k, indices[k], d, byPeriod, conv));
  }

  /** The valid numeric keys of `Open_n`, in key order. */
  function ValidKeys(d: ChartData, conv: Conv): seq<real>
    requires d.openN.Some?
  {
    NumericKeys(Keys(d.openN.value), conv.parse)
  }

  /** The payload reaches `indices.map(...)` without throwing. */
  predicate Drawable(data: Option<ChartData>, conv: Conv)
  {
    && !NoSeries(data)
    && |ValidKeys(data.value, conv)| > 0
    && data.value.highN.Some? && data.value.lowN.Some? && data.value.closeN.Some?
  }

  function OriginalTimes(points: seq<Point>): seq<real>
  {
    seq(|points|, k requires 0 <= k < |points| => points[k].originalTime)
  }

  /**
   * The result is empty exactly when the payload has no `Open_n` keys, no key of
   * it is numeric, or a price series it reads is missing (the caught exception).
   */
  lemma EmptyExactly(data: Option<ChartData>, conv: Conv)
    ensures ChartPoints(data, conv) == [] <==> !Drawable(data, conv)
  {
  }

  /**
   * Shape of a drawn result: one point per numeric key, `time` is the position,
   * and the `originalTime`s are the numeric keys in ascending order.
   */
  lemma DrawnShape(data: Option<ChartData>, conv: Conv)
    requires Drawable(data, conv)
    ensures var points := ChartPoints(data, conv);
            && |points| == |ValidKeys(data.value, conv)|
            && (forall k :: 0 <= k < |points| ==> points[k].time == k)
            && Sorted(OriginalTimes(points))
            && multiset(OriginalTimes(points)) == multiset(ValidKeys(data.value, conv))
  {
    var d := data.value;
    var points := ChartPoints(data, conv);
    var indices := Indices(d.openN.value, conv);
    EmptyExactly(data, conv);
    assert |indices| == |ValidKeys(d, conv)| by {
      assert |multiset(indices)| == |multiset(ValidKeys(d, conv))|;
    }
    assert OriginalTimes(points) == indices;
  }

  /** The entries of `data.trades`, none when it is missing or not an array. */
  function TradeEntries(d: ChartData): seq<Option<RawTrade>>
  {
    if d.trades.Some? then d.trades.value else []
  }

  /** The `k`-th drawn point is the one `indices.map(...)` builds at position `k`. */
  lemma PointAt(data: Option<ChartData>, conv: Conv, k: nat)
    requires Drawable(data, conv)
    requires k < |ChartPoints(data, conv)|
    ensures var d := data.value;
            var indices := Indices(d.openN.value, conv);
            && k < |indices|
            && ChartPoints(data, conv)[k] == MakePoint(k, indices[k], d, TradesByPeriod(d.trades, conv), conv)
  {
  }

  /**
   * The join: a point carries a trade exactly when some trade in the list has
   * its period, and then it is the last such trade, normalised.
   */
  lemma PointTrade(data: Option<ChartData>, conv: Conv, k: nat)
    requires Drawable(data, conv)
    requires k < |ChartPoints(data, conv)|
    ensures var pt := ChartPoints(data, conv)[k];
            var entries := TradeEntries(data.value);
            && (pt.trade.Some? <==>
                exists i :: 0 <= i < |entries| && PeriodOf(entries[i]) == Some(Finite(pt.originalTime)))
            && (forall i :: 0 <= i < |entries| && PeriodOf(entries[i]) == Some(Finite(pt.originalTime))
                            && (forall j :: i < j < |entries| ==> PeriodOf(entries[j]) != Some(Finite(pt.originalTime)))
                            ==> pt.trade == Some(Stored(entries[i].value, conv)))
  {
    var pt := ChartPoints(data, conv)[k];
    var entries := TradeEntries(data.value);
    var p := Finite(pt.originalTime);
    PointAt(data, conv, k);
    assert TradesByPeriod(data.value.trades, conv) == Lookup(entries, conv);
    LookupHasPeriod(entries, conv, p);
    forall i | 0 <= i < |entries| && PeriodOf(entries[i]) == Some(p)
                && (forall j :: i < j < |entries| ==> PeriodOf(entries[j]) != Some(p))
      ensures pt.trade == Some(Stored(entries[i].value, conv))
    {
      LookupKeepsLast(entries, conv, p, i);
    }
  }

  /**
   * A point only carries a trade made at its own period, and that period is a
   * numeric key of `Open_n`: trades at any other period are dropped.
   */
  lemma TradesOnlyAtDrawnPeriods(data: Option<ChartData>, conv: Conv)
    ensures var points := ChartPoints(data, conv);
            forall k :: 0 <= k < |points| && points[k].trade.Some? ==>
              && points[k].trade.value.period == Finite(points[k].originalTime)
              && points[k].originalTime in ValidKeys(data.value, conv)
  {
    var points := ChartPoints(data, conv);
    if points != [] {
      EmptyExactly(data, conv);
      DrawnShape(data, conv);
      LookupKeyIsPeriod(TradeEntries(data.value), conv);
      assert TradesByPeriod(data.value.trades, conv) == Lookup(TradeEntries(data.value), conv);
      forall k | 0 <= k < |points|
        ensures points[k].trade.Some? ==> points[k].trade.value.period == Finite(points[k].originalTime)
        ensures points[k].originalTime in ValidKeys(data.value, conv)
      {
        PointAt(data, conv, k);
        assert OriginalTimes(points)[k] == points[k].originalTime;
        assert points[k].originalTime in multiset(OriginalTimes(points));
      }
    }
  }

  /**
   * The value fallbacks: a price that is missing or not a number reads 0; a
   * moving average is absent when its series is, or when its value is missing,
   * not a number or zero. Values are read under the key `String(originalTime)`.
   */
  lemma PointValues(data: Option<ChartData>, conv: Conv, k: nat)
    requires Drawable(data, conv)
    requires k < |ChartPoints(data, conv)|
    ensures var pt := ChartPoints(data, conv)[k];
            var d := data.value;
            var t := pt.originalTime;
            && (ValueAt(d.openN.value, t, conv).NaN? ==> pt.open == 0.0)
            && (ValueAt(d.openN.value, t, conv).Finite? ==> pt.open == ValueAt(d.openN.value, t, conv).value)
            && (ValueAt(d.highN.value, t, conv).NaN? ==> pt.high == 0.0)
            && (ValueAt(d.highN.value, t, conv).Finite? ==> pt.high == ValueAt(d.highN.value, t, conv).value)
            && (ValueAt(d.lowN.value, t, conv).NaN? ==> pt.low == 0.0)
            && (ValueAt(d.lowN.value, t, conv).Finite? ==> pt.low == ValueAt(d.lowN.value, t, conv).value)
            && (ValueAt(d.closeN.value, t, conv).NaN? ==> pt.close == 0.0)
            && (ValueAt(d.closeN.value, t, conv).Finite? ==> pt.close == ValueAt(d.closeN.value, t, conv).value)
            && (pt.sma10.None? <==>
                d.sma10.None? || ValueAt(d.sma10.value, t, conv).NaN? || ValueAt(d.sma10.value, t, conv) == Finite(0.0))
            && (pt.sma10.Some? ==> ValueAt(d.sma10.value, t, conv) == Finite(pt.sma10.value))
            && (pt.sma20.None? <==>
                d.sma20.None? || ValueAt(d.sma20.value, t, conv).NaN? || ValueAt(d.sma20.value, t, conv) == Finite(0.0))
            && (pt.sma20.Some? ==> ValueAt(d.sma20.value, t, conv) == Finite(pt.sma20.value))
  {
    PointAt(data, conv, k);
  }

  /** A property that is missing altogether reads as undefined, so its price is 0. */
  lemma MissingPriceIsZero(data: Option<ChartData>, conv: Conv, k: nat)
    requires Drawable(data, conv)
    requires k < |ChartPoints(data, conv)|
    requires forall i :: 0 <= i < |data.value.openN.value| ==>
               data.value.openN.value[i].key != conv.show(ChartPoints(data, conv)[k].originalTime)
    ensures ChartPoints(data, conv)[k].open == 0.0
  {
  }
}
