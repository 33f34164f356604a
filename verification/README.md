# Candlestick chart data processing

A Dafny model of the data side of NL-Trader's `CandlestickChart` component. The
backend sends a chart payload: the price series `Open_n`, `High_n`, `Low_n` and
`Close_n` and the optional moving averages `SMA_10` and `SMA_20`, each an object
keyed by period. It also sends an optional list of `trades`. `processChartData`
turns this payload into the ordered array of points the chart draws:

- the keys of `Open_n` are converted with `Number`, the ones that are not numbers
  are dropped, and the rest are sorted ascending;
- a period-to-trade lookup is built from `trades`, keeping only trades whose
  `period` is a number, with a later trade replacing an earlier one;
- each sorted period becomes a point: `time` is its position, `originalTime` the
  period itself, prices fall back to 0, averages to undefined, and the point carries
  the trade stored at its period;
- missing data, no numeric key, or an exception gives an empty array.

`render` then shows a "no data" message for an empty result. Otherwise the x-axis
spans positions `0 .. n - 1`, and each point that carries a trade gets a marker, green
(an entry) exactly when that trade's action is 1. A trade whose `period` is not a
number, a trade at a period that is not a numeric key of `Open_n`, and a trade
replaced by a later trade at the same period get no marker.

Files:

- `wrappers.dfy`: `Option`.
- `js_values.dfy`: the JavaScript values involved. `Num` is the result of `Number(x)`
  (NaN or a finite number). `Scalar` is a property value. `Props` is an object as its
  list of properties in `Object.keys` order, read with `Get`. `Conv` holds the two
  runtime conversions `Number(string)` and `String(number)`.
- `chart_indices.dfy`: the key pipeline `map(Number).filter(!isNaN).sort(a - b)`.
- `trade_lookup.dfy`: the trade lookup. `BuildTradesByPeriod` is the source's loop
  over a mutable map. `Lookup` is the fold that specifies it.
- `candlestick_chart.dfy`: `processChartData`. `Attempt` is the `try` body, with the
  exception as an outcome. `ChartPoints` is the `catch`. `ProcessChartData` is the
  method that follows the source step by step.
- `chart_render.dfy`: the empty-chart, x-extent and entry-marker rules of `render`.

Values are read from a series under the key `String(originalTime)`, as JavaScript
does when it indexes an object with a number. A key such as `"01"` or `"1.0"`
parses to a period, but the prices for that period are read from the key `"1"`.
So such a point's prices fall back to 0 unless `"1"` is also a key. Two keys can
parse to the same number, so `originalTime`s are ascending but may repeat.

## Model

| member | source | states |
|---|---|---|
| `JsValues.Get` | src/components/CandlestickChart.tsx:141-146 | Reading a property yields undefined when no property has the key, and otherwise the value of the first property with that key |
| `ChartIndices.NumericKeys` | src/components/CandlestickChart.tsx:108-110 | The kept keys are at most as many as the keys, and a number is kept exactly when some key converts to it (non-numeric keys are dropped) |
| `ChartIndices.NumericKeysCount` | src/components/CandlestickChart.tsx:108-110 | Each number occurs in the filtered keys exactly as often as keys convert to it: one element per numeric key, duplicates kept |
| `ChartIndices.NumbersPermute` | src/components/CandlestickChart.tsx:108-109 | Reordering the keys reorders their converted numbers the same way (equal multisets of keys give equal multisets of numbers) |
| `ChartIndices.Insert` | src/components/CandlestickChart.tsx:111 | Inserting into an ascending sequence keeps it ascending and adds exactly the one element |
| `ChartIndices.SortAscending` | src/components/CandlestickChart.tsx:111 | The sort result is ascending and a permutation of its input |
| `ChartIndices.SortedUnique` | src/components/CandlestickChart.tsx:111 | Two ascending sequences with the same elements are equal, so any correct ascending sort gives the same indices |
| `ChartIndices.IndicesIgnoreKeyOrder` | src/components/CandlestickChart.tsx:108-111 | Two key lists holding the same keys in any order give the same sorted indices, so the `Object.keys` order does not matter |
| `TradeLookup.BuildTradesByPeriod` | src/components/CandlestickChart.tsx:119-133 | The map the loop builds is the fold of the trades list, empty when `trades` is missing or not an array |
| `TradeLookup.LookupHasPeriod` | src/components/CandlestickChart.tsx:120-132 | A period is in the lookup exactly when some present trade has that number as its `period`; trades without a numeric period are ignored |
| `TradeLookup.LookupKeepsLast` | src/components/CandlestickChart.tsx:122-131 | Last wins: for a period, the lookup holds the last trade in list order with that period, with its numeric fields converted by `Number` |
| `TradeLookup.LookupKeyIsPeriod` | src/components/CandlestickChart.tsx:123-124 | Every stored trade is stored under its own `period` |
| `CandlestickChart.ProcessChartData` | src/components/CandlestickChart.tsx:100-157 | The step-by-step procedure (early returns, lookup loop, caught exception, map) returns exactly `ChartPoints` |
| `CandlestickChart.EmptyExactly` | src/components/CandlestickChart.tsx:102-156 | The result is empty exactly when data or `Open_n` is missing or has no keys, no key is numeric, or a read price series is missing (the caught TypeError) |
| `CandlestickChart.DrawnShape` | src/components/CandlestickChart.tsx:108-140 | A drawn result has one point per numeric key, `time == k` at position k, and `originalTime`s that are the numeric keys in ascending order (ascending and a permutation) |
| `CandlestickChart.PointTrade` | src/components/CandlestickChart.tsx:135-147 | A point carries a trade exactly when some trade has its `originalTime` as period, and then it is the last such trade |
| `CandlestickChart.TradesOnlyAtDrawnPeriods` | src/components/CandlestickChart.tsx:136-147 | A carried trade's period equals its point's `originalTime`, which is a numeric key of `Open_n`, so trades at other periods appear in no point |
| `CandlestickChart.PointValues` | src/components/CandlestickChart.tsx:141-146 | Open/high/low/close are the number read, or 0 when it is NaN; an average is undefined exactly when its series is absent or its value is NaN or zero, and otherwise is that value |
| `CandlestickChart.MissingPriceIsZero` | src/components/CandlestickChart.tsx:141 | A period with no `Open_n` property under `String(originalTime)` opens at 0 |
| `ChartRender.Markers` | src/components/CandlestickChart.tsx:253-259 | There is a marker exactly for each point with a trade, at that point's position, marked as an entry exactly when the trade's action is 1 |
| `ChartRender.MarkersAscending` | src/components/CandlestickChart.tsx:253-291 | Over points with increasing positions the markers have strictly increasing positions; with `Markers`' membership this is one marker per traded point, in point order |
| `ChartRender.RenderedView` | src/components/CandlestickChart.tsx:165-176 | The "no data" message is shown exactly when processing gives nothing to draw; otherwise the x-extent runs from the first point's position to the last one's and covers every point |
| `ChartRender.MarkerAtTrade` | src/components/CandlestickChart.tsx:253-259 | The point at a traded period gets a marker whose entry colour is decided by the action of the last trade at that period being 1 |

## Left out

- backend/app.py (the chat agent service), src/components/ChatWindow.tsx and src/main.tsx: UI, network and foreign calls with no data logic.
- The backtest, prediction and trade-reconciliation pipeline that produces the `trades` list is not part of this model. The model takes `trades` as an input.
- `Number(string)` and `String(number)` are parameters (`Conv.parse`, `Conv.show`) and not a model of JavaScript's number grammar and printing.
- Infinity, -0, null, booleans and objects as values are not modelled. Values are undefined, finite numbers, NaN or strings.
- `ChartIndices.SortAscending` is an insertion sort, not the engine's sort algorithm. `SortedUnique` shows that every correct ascending sort gives the same result.
- An object is a list of properties. A real object cannot repeat a key. If the list repeats one, `Get` reads the first.
- The only exception modelled is the TypeError from reading a missing `High_n`, `Low_n` or `Close_n`. Getters that throw and other host failures are not modelled.
- The `console.warn` patch (lines 87-91) and every `console.log` and `console.error`: logging side effects.
- The JSX of `render`: chart-library components, SVG paths, `toFixed` text, `alert`, candle colours, the `yExtents` scaling by 1.1/0.9, the SMA toggle state and the `try`/`catch` around rendering.
