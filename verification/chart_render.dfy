/**
 * The two data rules of `CandlestickChart.render`: the chart is replaced by a
 * "no data" message when there are no points, the x-axis spans positions
 * `0 .. n - 1`, and a trade marker is an entry (green) exactly when the trade's
 * action is 1.
 */
module ChartRender {
  import opened Wrappers
  import opened JsValues
  import opened TradeLookup
  import opened CandlestickChart

  /** A trade triangle at a position; `entry` picks the green colour, otherwise red. */
  datatype Marker = Marker(time: nat, entry: bool)

  datatype View = NoDataMessage | Chart(xFirst: int, xLast: int, markers: seq<Marker>)

  /** `trade.action === 1`. */
  predicate IsEntry(t: Trade)
  {
    t.action == Finite(1.0)
  }

  /** One marker per point that carries a trade, in point order. */
  function Markers(points: seq<Point>): (ms: seq<Marker>)
    ensures |ms| <= |points|
    ensures forall m :: m in ms <==>
              exists k :: 0 <= k < |points| && points[k].trade.Some?
                          && m == Marker(points[k].time, IsEntry(points[k].trade.value))
  {
    if points == [] then []
    else
      var rest := Markers(points[1..]);
      assert forall k :: 1 <= k < |points| ==> points[k] == points[1..][k - 1];
      if points[0].trade.Some? then [Marker(points[0].time, IsEntry(points[0].trade.value))] + rest
      else rest
  }

  /**
   * Markers follow the points: over points with increasing positions they have
   * strictly increasing positions, so each traded point has exactly one marker
   * and they come in point order.
   */
  lemma {:induction false} MarkersAscending(points: seq<Point>)
    requires forall i, j :: 0 <= i < j < |points| ==> points[i].time < points[j].time
    ensures forall a, b :: 0 <= a < b < |Markers(points)| ==> Markers(points)[a].time < Markers(points)[b].time
  {
    if points != [] {
      var rest := points[1..];
      MarkersAscending(rest);
      var ms, tail := Markers(points), Markers(rest);
      assert forall a, b :: 0 <= a < b < |tail| ==> tail[a].time < tail[b].time;
      if points[0].trade.Some? {
        assert ms == [Marker(points[0].time, IsEntry(points[0].trade.value))] + tail;
        forall b | 0 < b < |ms|
          ensures points[0].time < ms[b].time
        {
          assert ms[b] == tail[b - 1];
          assert tail[b - 1] in tail;
          var k :| 0 <= k < |rest| && rest[k].trade.Some?
                   && tail[b - 1] == Marker(rest[k].time, IsEntry(rest[k].trade.value));
          assert rest[k] == points[k + 1];
        }
        forall a, b | 0 < a < b < |ms|
          ensures ms[a].time < ms[b].time
        {
          assert ms[a] == tail[a - 1] && ms[b] == tail[b - 1];
        }
      } else {
        assert ms == tail;
      }
    }
  }

  function Render(points: seq<Point>): View
  {
    if |points| == 0 then NoDataMessage
    else Chart(0, |points| - 1, Markers(points))
  }

  /**
   * The "no data" message is shown exactly when processing gave nothing to draw;
   * otherwise the x-extent runs from the first point's position to the last's
   * and contains every point.
   */
  lemma RenderedView(data: Option<ChartData>, conv: Conv)
    ensures var points := ChartPoints(data, conv);
            var view := Render(points);
            && (view.NoDataMessage? <==> !Drawable(data, conv))
            && (view.Chart? ==>
                  && view.xFirst == points[0].time
                  && view.xLast == points[|points| - 1].time
                  && forall k :: 0 <= k < |points| ==> view.xFirst <= points[k].time <= view.xLast)
  {
    EmptyExactly(data, conv);
    if ChartPoints(data, conv) != [] {
      DrawnShape(data, conv);
    }
  }

  /**
   * A marker appears at a position exactly when the point there carries a trade,
   * and it is an entry exactly when the last trade in the list at that period
   * has action 1.
   */
  lemma MarkerAtTrade(data: Option<ChartData>, conv: Conv, k: nat, i: nat)
    requires Drawable(data, conv)
    requires k < |ChartPoints(data, conv)|
    requires var entries := TradeEntries(data.value);
             && i < |entries|
             && PeriodOf(entries[i]) == Some(Finite(ChartPoints(data, conv)[k].originalTime))
             && forall j :: i < j < |entries| ==> PeriodOf(entries[j]) != PeriodOf(entries[i])
    ensures var entry := TradeEntries(data.value)[i].value;
            Marker(k, ToNumber(entry.action, conv) == Finite(1.0)) in Render(ChartPoints(data, conv)).markers
  {
    var points := ChartPoints(data, conv);
    PointTrade(data, conv, k);
    DrawnShape(data, conv);
    assert points[k].trade.Some?;
  }
}
