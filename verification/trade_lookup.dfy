/**
 * The period -> trade lookup of `processChartData`: a `Map` filled by
 * `data.trades.forEach(...)`, where a later trade for the same period replaces
 * an earlier one.
 */
module TradeLookup {
  import opened Wrappers
  import opened JsValues

  /** A trade as it arrives in `data.trades`. */
  datatype RawTrade = RawTrade(
    period: Scalar,
    action: Scalar,
    price: Scalar,
    ret: Scalar,
    returnPct: Scalar,
    tradeType: string,
    explanation: Option<string>)

  /** A stored trade: the raw one with action, price, return and return_pct passed through `Number`. */
  datatype Trade = Trade(
    period: Num,
    action: Num,
    price: Num,
    ret: Num,
    returnPct: Num,
    tradeType: string,
    explanation: Option<string>)

  /**
   * The key a list entry is stored under: only a present (truthy) trade whose
   * `period` is of type number is stored, under that number (NaN included).
   */
  function PeriodOf(entry: Option<RawTrade>): Option<Num>
  {
    if entry.Some? && entry.value.period.NumberValue? then Some(entry.value.period.n) else None
  }

  /** `{...trade, action: Number(trade.action), price: ..., return: ..., return_pct: ...}`. */
  function Stored(t: RawTrade, conv: Conv): Trade
    requires t.period.NumberValue?
  {
    Trade(t.period.n, ToNumber(t.action, conv), ToNumber(t.price, conv),
          ToNumber(t.ret, conv), ToNumber(t.returnPct, conv), t.tradeType, t.explanation)
  }

  /** The map after visiting `entries` in list order. */
  function Lookup(entries: seq<Option<RawTrade>>, conv: Conv): map<Num, Trade>
  {
    if entries == [] then map[]
    else
      var before := Lookup(entries[..|entries| - 1], conv);
      var last := entries[|entries| - 1];
      if PeriodOf(last).Some? then before[PeriodOf(last).value := Stored(last.value, conv)] else before
  }

  /** The lookup for `data.trades`, empty when the field is missing or not an array. */
  function TradesByPeriod(trades: Option<seq<Option<RawTrade>>>, conv: Conv): map<Num, Trade>
  {
    if trades.Some? then Lookup(trades.value, conv) else map[]
  }

  /** Builds the lookup as the source does, one `set` per qualifying trade. */
  method BuildTradesByPeriod(trades: Option<seq<Option<RawTrade>>>, conv: Conv)
    returns (byPeriod: map<Num, Trade>)
    ensures byPeriod == TradesByPeriod(trades, conv)
  {
    byPeriod := map[];
    if trades.Some? {
      var entries := trades.value;
      var i := 0;
      while i < |entries|
        invariant 0 <= i <= |entries|
        invariant byPeriod == Lookup(entries[..i], conv)
      {
        var entry := entries[i];
        if entry.Some? && entry.value.period.NumberValue? {
          byPeriod := byPeriod[entry.value.period.n := Stored(entry.value, conv)];
        }
        assert entries[..i + 1][..i] == entries[..i];
        i := i + 1;
      }
      assert entries[..|entries|] == entries;
    }
  }

  /** A period is in the lookup exactly when some entry of the list carries it. */
  lemma {:induction false} LookupHasPeriod(entries: seq<Option<RawTrade>>, conv: Conv, p: Num)
    ensures p in Lookup(entries, conv) <==>
            exists i :: 0 <= i < |entries| && PeriodOf(entries[i]) == Some(p)
  {
    if entries != [] {
      var n := |entries| - 1;
      var prefix := entries[..n];
      LookupHasPeriod(prefix, conv, p);
      if p in Lookup(prefix, conv) {
        var i :| 0 <= i < n && PeriodOf(prefix[i]) == Some(p);
        assert PeriodOf(entries[i]) == Some(p);
      }
      if exists i :: 0 <= i < |entries| && PeriodOf(entries[i]) == Some(p) {
        var i :| 0 <= i < |entries| && PeriodOf(entries[i]) == Some(p);
        if i < n {
          assert PeriodOf(prefix[i]) == Some(p);
        }
      }
    }
  }

  /** Last wins: the lookup holds, for a period, the last entry that carries it. */
  lemma {:induction false} LookupKeepsLast(entries: seq<Option<RawTrade>>, conv: Conv, p: Num, i: nat)
    requires i < |entries| && PeriodOf(entries[i]) == Some(p)
    requires forall j :: i < j < |entries| ==> PeriodOf(entries[j]) != Some(p)
    ensures p in Lookup(entries, conv)
    ensures Lookup(entries, conv)[p] == Stored(entries[i].value, conv)
  {
    var n := |entries| - 1;
    if i < n {
      var prefix := entries[..n];
      assert forall j :: i < j < n ==> prefix[j] == entries[j];
      LookupKeepsLast(prefix, conv, p, i);
    }
  }

  /** Every stored trade sits under its own period. */
  lemma {:induction false} LookupKeyIsPeriod(entries: seq<Option<RawTrade>>, conv: Conv)
    ensures forall p :: p in Lookup(entries, conv) ==> Lookup(entries, conv)[p].period == p
  {
    if entries != [] {
      LookupKeyIsPeriod(entries[..|entries| - 1], conv);
    }
  }
}
