// The public trade handler of src/roq/bybit/gateway/market_data.cpp: one summary per maximal run of a symbol.

module PublicTrades {
  import opened Orders
  import opened Runs

  datatype Item = Item(symbol: string, side: Side, price: int, quantity: int, tradeId: string, timestamp: int)

  datatype Trade = Trade(side: Side, price: int, quantity: int, tradeId: string)

  datatype TradeSummary = TradeSummary(streamId: nat, symbol: string, trades: seq<Trade>, exchangeTime: int, sendingTime: int)

  function SymbolOf(item: Item): string {
    item.symbol
  }

  function TradeOf(item: Item): Trade {
    Trade(item.side, item.price, item.quantity, item.tradeId)
  }

  function TradesOf(run: seq<Item>): (r: seq<Trade>)
    ensures |r| == |run|
  {
    seq(|run|, i requires 0 <= i < |run| => TradeOf(run[i]))
  }

  // The latest timestamp of a run, and no earlier than the epoch.
  ghost predicate IsLatest(time: int, run: seq<Item>) {
    && time >= 0
    && (forall item | item in run :: item.timestamp <= time)
    && (time == 0 || exists item :: item in run && item.timestamp == time)
  }

  ghost predicate Summarises(s: TradeSummary, streamId: nat, sendingTime: int, run: seq<Item>) {
    && run != []
    && s.streamId == streamId && s.sendingTime == sendingTime
    && s.symbol == run[0].symbol
    && s.trades == TradesOf(run)
    && IsLatest(s.exchangeTime, run)
  }

  class SharedTrades {
    var trades: seq<Trade>

    constructor () {
      trades := [];
    }
  }

  class TradeHandler {
    const streamId: nat
    const shared: SharedTrades
    var summaries: seq<TradeSummary>

    constructor (streamId: nat, shared: SharedTrades)
      ensures this.streamId == streamId && this.shared == shared && summaries == []
    {
      this.streamId, this.shared, summaries := streamId, shared, [];
    }

    // The flushing closure.  In a release build a failed assertion has no other effect.
    method Flush(symbol: string, timestamp: int, sendingTime: int) returns (assertionFailed: bool)
      modifies this`summaries, shared
      ensures assertionFailed == (symbol == "" && old(shared.trades) != [])
      ensures shared.trades == []
      ensures summaries == Flushed(streamId, sendingTime, old(summaries), old(shared.trades), symbol, timestamp)
    {
      assertionFailed := symbol == "" && shared.trades != [];
      if shared.trades == [] {
        return;
      }
      summaries := summaries + [TradeSummary(streamId, symbol, shared.trades, timestamp, sendingTime)];
      shared.trades := [];
    }

    /** Whatever an earlier call left in the buffer, the summaries are those of the maximal runs by symbol, each
        with the latest time of its own run; and the assertion that nothing is pending under an empty symbol fails
        exactly when some item has no symbol. */
    method OnPublicTrade(data: seq<Item>, sendingTime: int) returns (assertionFailed: bool)
      modifies this`summaries, shared
      ensures var runs := RunsOf(data, SymbolOf);
              && |summaries| == |old(summaries)| + |runs|
              && summaries[..|old(summaries)|] == old(summaries)
              && forall i | 0 <= i < |runs| :: Summarises(summaries[|old(summaries)| + i], streamId, sendingTime, runs[i])
      ensures shared.trades == []
      ensures assertionFailed <==> exists i :: 0 <= i < |data| && data[i].symbol == ""
    {
      hide RunsOf, Pending, Flushed, Extended;
      shared.trades := [];
      var timestamp := 0;
      var previous := "";
      assertionFailed := false;
      ghost var before := summaries;
      ghost var runs: seq<seq<Item>> := [];
      NothingPending(streamId, sendingTime, before);
      for i := 0 to |data|
        invariant runs == RunsOf(data[..i], SymbolOf)
        invariant Pending(streamId, sendingTime, runs, before, summaries, shared.trades, previous, timestamp)
        invariant assertionFailed || (previous == "" && shared.trades != []) <==> exists k :: 0 <= k < i && data[k].symbol == ""
      {
        var item := data[i];
        assert data[..i + 1] == data[..i] + [item];
        RunsOfStep(data[..i], item, SymbolOf);
        if item.symbol != previous {
          Restart(streamId, sendingTime, runs, before, summaries, shared.trades, previous, timestamp, item);
          EmptyBuffer(streamId, sendingTime, runs, before, summaries, shared.trades, previous, timestamp);
          var pending := shared.trades != [];
          var failed := Flush(previous, timestamp, sendingTime);
          assertionFailed := assertionFailed || failed;
          if pending {
            timestamp := 0;
          }
          previous := item.symbol;
          assert shared.trades + [TradeOf(item)] == [TradeOf(item)];
        } else {
          Continue(streamId, sendingTime, runs, before, summaries, shared.trades, previous, timestamp, item);
        }
        shared.trades := shared.trades + [TradeOf(item)];
        timestamp := if timestamp < item.timestamp then item.timestamp else timestamp;
        runs := RunsOf(data[..i + 1], SymbolOf);
      }
      assert data[..|data|] == data;
      Finished(streamId, sendingTime, runs, before, summaries, shared.trades, previous, timestamp);
      var failed := Flush(previous, timestamp, sendingTime);
      assertionFailed := assertionFailed || failed;
    }
  }

  function Flushed(streamId: nat, sendingTime: int, now: seq<TradeSummary>, trades: seq<Trade>, symbol: string, time: int): seq<TradeSummary> {
    if trades == [] then now else now + [TradeSummary(streamId, symbol, trades, time, sendingTime)]
  }

  // Between two items: all runs but the last are summarised, the last is pending with its own latest time.
  ghost predicate Pending(streamId: nat, sendingTime: int, runs: seq<seq<Item>>, before: seq<TradeSummary>,
                          now: seq<TradeSummary>, trades: seq<Trade>, symbol: string, time: int)
  {
    && (forall i | 0 <= i < |runs| :: runs[i] != [])
    && if runs == [] then
         now == before && trades == [] && symbol == "" && time == 0
       else
         var last := runs[|runs| - 1];
         && |now| == |before| + |runs| - 1
         && now[..|before|] == before
         && (forall i | 0 <= i < |runs| - 1 :: Summarises(now[|before| + i], streamId, sendingTime, runs[i]))
         && trades == TradesOf(last)
         && symbol == last[0].symbol
         && IsLatest(time, last)
  }

  function Later(time: int, item: Item): int {
    if time < item.timestamp then item.timestamp else time
  }

  lemma NothingPending(streamId: nat, sendingTime: int, before: seq<TradeSummary>)
    ensures RunsOf<Item>([], SymbolOf) == []
    ensures Pending(streamId, sendingTime, [], before, before, [], "", 0)
  {
  }

  lemma LatestStep(time: int, run: seq<Item>, item: Item)
    requires IsLatest(time, run)
    ensures IsLatest(Later(time, item), run + [item])
  {
    var longer := run + [item];
    assert longer[|run|] == item;
    if time != 0 && time >= item.timestamp {
      var latest :| latest in run && latest.timestamp == time;
      assert latest in longer;
    }
  }

  lemma Continue(streamId: nat, sendingTime: int, runs: seq<seq<Item>>, before: seq<TradeSummary>,
                 now: seq<TradeSummary>, trades: seq<Trade>, symbol: string, time: int, item: Item)
    requires Pending(streamId, sendingTime, runs, before, now, trades, symbol, time)
    requires item.symbol == symbol
    ensures Pending(streamId, sendingTime, Extended(runs, item, SymbolOf), before, now, trades + [TradeOf(item)], symbol, Later(time, item))
  {
    hide IsLatest;
    var longer := Extended(runs, item, SymbolOf);
    var n := |runs|;
    if n > 0 {
      assert longer[..n - 1] == runs[..n - 1];
      forall i | 0 <= i < n - 1 ensures longer[i] == runs[i] {
        assert longer[i] == longer[..n - 1][i];
      }
      LatestStep(time, runs[n - 1], item);
    } else {
      assert IsLatest(0, []) by {
        LatestOfNothing();
      }
      LatestStep(0, [], item);
      assert [] + [item] == [item];
    }
  }

  lemma LatestOfNothing()
    ensures IsLatest(0, [])
  {
  }

  lemma Restart(streamId: nat, sendingTime: int, runs: seq<seq<Item>>, before: seq<TradeSummary>,
                now: seq<TradeSummary>, trades: seq<Trade>, symbol: string, time: int, item: Item)
    requires Pending(streamId, sendingTime, runs, before, now, trades, symbol, time)
    requires item.symbol != symbol
    ensures Pending(streamId, sendingTime, Extended(runs, item, SymbolOf), before,
                    Flushed(streamId, sendingTime, now, trades, symbol, time), [TradeOf(item)], item.symbol, Later(0, item))
  {
    hide IsLatest;
    LatestOfNothing();
    LatestStep(0, [], item);
    assert [] + [item] == [item];
    var longer := Extended(runs, item, SymbolOf);
    assert longer == runs + [[item]];
    if runs != [] {
      Finished(streamId, sendingTime, runs, before, now, trades, symbol, time);
    }
  }

  lemma EmptyBuffer(streamId: nat, sendingTime: int, runs: seq<seq<Item>>, before: seq<TradeSummary>,
                    now: seq<TradeSummary>, trades: seq<Trade>, symbol: string, time: int)
    requires Pending(streamId, sendingTime, runs, before, now, trades, symbol, time)
    ensures trades == [] ==> time == 0
  {
  }

  lemma Finished(streamId: nat, sendingTime: int, runs: seq<seq<Item>>, before: seq<TradeSummary>,
                 now: seq<TradeSummary>, trades: seq<Trade>, symbol: string, time: int)
    requires Pending(streamId, sendingTime, runs, before, now, trades, symbol, time)
    ensures var out := Flushed(streamId, sendingTime, now, trades, symbol, time);
            && |out| == |before| + |runs|
            && out[..|before|] == before
            && forall i | 0 <= i < |runs| :: runs[i] != [] && Summarises(out[|before| + i], streamId, sendingTime, runs[i])
  {
    hide IsLatest;
    var out := Flushed(streamId, sendingTime, now, trades, symbol, time);
    if runs != [] {
      assert out == now + [TradeSummary(streamId, symbol, trades, time, sendingTime)];
      assert out[..|before|] == now[..|before|];
      forall i | 0 <= i < |runs| - 1 ensures Summarises(out[|before| + i], streamId, sendingTime, runs[i]) {
        assert out[|before| + i] == now[|before| + i];
      }
    }
  }

  // ---- The summaries of a list ----

  function TradeLists(summaries: seq<TradeSummary>): (r: seq<seq<Trade>>)
    ensures |r| == |summaries|
  {
    seq(|summaries|, i requires 0 <= i < |summaries| => summaries[i].trades)
  }

  lemma {:induction false} FlattenTrades(runs: seq<seq<Item>>, summaries: seq<TradeSummary>)
    requires |runs| == |summaries|
    requires forall i | 0 <= i < |runs| :: summaries[i].trades == TradesOf(runs[i])
    ensures Flatten(TradeLists(summaries)) == TradesOf(Flatten(runs))
  {
    if runs != [] {
      var n := |runs| - 1;
      FlattenTrades(runs[..n], summaries[..n]);
      assert TradeLists(summaries)[..n] == TradeLists(summaries[..n]);
    }
  }

  /** The handler's contract determines its output: trades are conserved in order, neighbouring summaries differ in
      symbol, and no two outputs satisfy it. */
  lemma TradeGrouping(data: seq<Item>, streamId: nat, sendingTime: int, a: seq<TradeSummary>, b: seq<TradeSummary>)
    requires var runs := RunsOf(data, SymbolOf);
             && |a| == |runs| == |b|
             && (forall i | 0 <= i < |runs| :: Summarises(a[i], streamId, sendingTime, runs[i]))
             && (forall i | 0 <= i < |runs| :: Summarises(b[i], streamId, sendingTime, runs[i]))
    ensures a == b
    ensures Flatten(TradeLists(a)) == TradesOf(data)
    ensures |Flatten(TradeLists(a))| == |data|
    ensures forall i | 0 <= i < |data| ::
              var trade := Flatten(TradeLists(a))[i];
              && trade.tradeId == data[i].tradeId && trade.side == data[i].side
              && trade.price == data[i].price && trade.quantity == data[i].quantity
    ensures forall i | 0 <= i < |a| - 1 :: a[i].symbol != a[i + 1].symbol
    ensures IsMaximal(RunsOf(data, SymbolOf), SymbolOf)
  {
    hide RunsOf;
    var runs := RunsOf(data, SymbolOf);
    RunsOfIsMaximal(data, SymbolOf);
    FlattenTrades(runs, a);
    forall i | 0 <= i < |a| ensures a[i] == b[i] {
      SameLatest(a[i].exchangeTime, b[i].exchangeTime, runs[i]);
    }
    forall i | 0 <= i < |a| - 1 ensures a[i].symbol != a[i + 1].symbol {
      assert SymbolOf(runs[i][0]) != SymbolOf(runs[i + 1][0]);
    }
  }

  lemma SameLatest(a: int, b: int, run: seq<Item>)
    requires IsLatest(a, run) && IsLatest(b, run)
    ensures a == b
  {
  }
}
