// The execution handlers of src/roq/bybit/gateway/drop_copy.cpp and order_entry_rest.cpp: a flat list is cut
// into one trade update per order, through a buffer of fills that every account and both handlers share.

module Executions {
  import opened Options
  import opened Orders
  import opened Runs

  // Quantities, prices and fees are scaled integers.
  datatype Item = Item(
    orderId: string, orderLinkId: string, symbol: string, side: Side, execTime: int,
    execId: string, execQty: int, execPrice: int, execFee: int, feeCurrency: string, isMaker: bool)

  // Only the REST handler stamps each fill with its own time.
  datatype Fill = Fill(
    exchangeTime: Option<int>, tradeId: string, quantity: int, price: int, isMaker: bool, commission: int, currency: string)

  // The header fields of a trade update, overwritten at run boundaries.
  datatype Header = Header(orderId: string, orderLinkId: string, symbol: string, side: Side, execTime: int)

  // WebSocket updates are incremental, REST updates are snapshots.
  datatype Source = WebSocket | Rest

  datatype TradeUpdate = TradeUpdate(streamId: nat, account: string, source: Source, header: Header, fills: seq<Fill>)

  const NO_HEADER := Header("", "", "", Side.Undefined, 0)

  function HeaderOf(item: Item): Header {
    Header(item.orderId, item.orderLinkId, item.symbol, item.side, item.execTime)
  }

  function FillOf(source: Source, item: Item): Fill {
    Fill(if source.Rest? then Some(item.execTime) else None, item.execId, item.execQty, item.execPrice,
         item.isMaker, item.execFee, item.feeCurrency)
  }

  // ---- Specification ----

  // A handler sees the fills it finds in the buffer, then its own items; found fills have no order.
  datatype Entry = Stale(fill: Fill) | Fresh(item: Item)

  function KeyOf(e: Entry): string {
    match e
    case Stale(_) => ""
    case Fresh(item) => item.orderId
  }

  function EntryFill(source: Source, e: Entry): Fill {
    match e
    case Stale(fill) => fill
    case Fresh(item) => FillOf(source, item)
  }

  function Entries(found: seq<Fill>, items: seq<Item>): (r: seq<Entry>)
    ensures |r| == |found| + |items|
  {
    seq(|found|, i requires 0 <= i < |found| => Stale(found[i])) + seq(|items|, i requires 0 <= i < |items| => Fresh(items[i]))
  }

  function FillsOf(source: Source, run: seq<Entry>): (r: seq<Fill>)
    ensures |r| == |run|
  {
    seq(|run|, i requires 0 <= i < |run| => EntryFill(source, run[i]))
  }

  // No header has been written while every order id so far was empty.
  function RunHeader(run: seq<Entry>, first: bool): Header
    requires run != []
  {
    if run[0].Stale? || (first && KeyOf(run[0]) == "") then NO_HEADER else HeaderOf(run[0].item)
  }

  datatype Handler = Handler(streamId: nat, account: string, source: Source)

  function UpdateOf(h: Handler, run: seq<Entry>, first: bool): TradeUpdate
    requires run != []
  {
    TradeUpdate(h.streamId, h.account, h.source, RunHeader(run, first), FillsOf(h.source, run))
  }

  function UpdatesOf(h: Handler, runs: seq<seq<Entry>>): (r: seq<TradeUpdate>)
    requires forall i | 0 <= i < |runs| :: runs[i] != []
    ensures |r| == |runs|
  {
    seq(|runs|, i requires 0 <= i < |runs| => UpdateOf(h, runs[i], i == 0))
  }

  // ---- The handlers ----

  class SharedBuffers {
    var fills: seq<Fill>

    constructor ()
      ensures fills == []
    {
      fills := [];
    }
  }

  /** The dispatcher is a sink that logs what it was given, unless it throws. */
  class Dispatcher {
    var updates: seq<TradeUpdate>

    constructor ()
      ensures updates == []
    {
      updates := [];
    }

    method Dispatch(update: TradeUpdate, throws: bool) returns (thrown: bool)
      modifies this
      ensures thrown == throws
      ensures updates == if throws then old(updates) else old(updates) + [update]
    {
      thrown := throws;
      if !throws {
        updates := updates + [update];
      }
    }
  }

  class ExecutionHandler {
    const handler: Handler
    const shared: SharedBuffers
    const dispatcher: Dispatcher

    constructor (handler: Handler, shared: SharedBuffers, dispatcher: Dispatcher)
      ensures this.handler == handler && this.shared == shared && this.dispatcher == dispatcher
    {
      this.handler, this.shared, this.dispatcher := handler, shared, dispatcher;
    }

    // The flushing closure: nothing to do for an empty buffer; an exception leaves the buffer as it was.
    method Flush(header: Header, throws: bool) returns (thrown: bool)
      modifies shared, dispatcher
      ensures thrown == (throws && old(shared.fills) != [])
      ensures thrown || old(shared.fills) == [] ==> dispatcher.updates == old(dispatcher.updates)
      ensures thrown ==> shared.fills == old(shared.fills)
      ensures !thrown ==> shared.fills == []
      ensures !thrown && old(shared.fills) != [] ==>
                dispatcher.updates == old(dispatcher.updates)
                  + [TradeUpdate(handler.streamId, handler.account, handler.source, header, old(shared.fills))]
    {
      thrown := false;
      if shared.fills == [] {
        return;
      }
      thrown := dispatcher.Dispatch(TradeUpdate(handler.streamId, handler.account, handler.source, header, shared.fills), throws);
      if !thrown {
        shared.fills := [];
      }
    }

    /** One call of a handler.  `throwAt` is the update, counted within this call, at which the dispatcher throws. */
    method OnExecutions(items: seq<Item>, throwAt: Option<nat>) returns (thrown: bool)
      modifies shared, dispatcher
      ensures var runs := RunsOf(Entries(old(shared.fills), items), KeyOf);
              && thrown == (throwAt.Some? && throwAt.value < |runs|)
              && dispatcher.updates == old(dispatcher.updates)
                                       + UpdatesOf(handler, runs)[..if thrown then throwAt.value else |runs|]
              && shared.fills == (if thrown then FillsOf(handler.source, runs[throwAt.value]) else [])
    {
      hide RunsOf, Progress, UpdatesOf, FillsOf, Extended, RunHeader, FillOf, Entries;
      ghost var entries := Entries(shared.fills, items);
      ghost var found := |shared.fills|;
      ghost var before := dispatcher.updates;
      ghost var runs := RunsOf(entries[..found], KeyOf);
      StaleRuns(shared.fills, items, handler, before);
      var header := NO_HEADER;
      var count := 0;
      for i := 0 to |items|
        invariant runs == RunsOf(entries[..found + i], KeyOf)
        invariant Progress(handler, runs, before, dispatcher.updates, shared.fills, header, count)
        invariant throwAt.None? || throwAt.value >= count
      {
        var item := items[i];
        ghost var seen, entry := entries[..found + i], entries[found + i];
        EntryAt(old(shared.fills), items, i);
        assert entries[..found + i + 1] == seen + [entry];
        RunsOfStep(seen, entry, KeyOf);
        if item.orderId != header.orderId {
          Restart(handler, runs, before, dispatcher.updates, shared.fills, header, count, item);
          var pending := shared.fills != [];
          thrown := Flush(header, throwAt == Some(count));
          if thrown {
            Unfinished(handler, entries, found + i, before, dispatcher.updates, shared.fills, header, count, item);
            return;
          }
          if pending {
            count := count + 1;
          }
          header := HeaderOf(item);
          assert shared.fills + [FillOf(handler.source, item)] == [FillOf(handler.source, item)];
        } else {
          Continue(handler, runs, before, dispatcher.updates, shared.fills, header, count, item);
        }
        shared.fills := shared.fills + [FillOf(handler.source, item)];
        runs := RunsOf(entries[..found + i + 1], KeyOf);
      }
      assert entries[..found + |items|] == entries;
      Finished(handler, runs, before, dispatcher.updates, shared.fills, header, count);
      thrown := Flush(header, throwAt == Some(count));
    }
  }

  // Between two items: all runs but the last are out, the last is in the buffer under its header.
  ghost predicate Progress(h: Handler, runs: seq<seq<Entry>>, before: seq<TradeUpdate>, now: seq<TradeUpdate>,
                           fills: seq<Fill>, header: Header, count: nat)
  {
    && (forall i | 0 <= i < |runs| :: runs[i] != [])
    && if runs == [] then
         now == before && fills == [] && header == NO_HEADER && count == 0
       else
         var last := runs[|runs| - 1];
         && count == |runs| - 1
         && now == before + UpdatesOf(h, runs)[..count]
         && fills == FillsOf(h.source, last)
         && header == RunHeader(last, count == 0)
         && header.orderId == KeyOf(last[0])
  }

  function Written(h: Handler, now: seq<TradeUpdate>, fills: seq<Fill>, header: Header): seq<TradeUpdate> {
    if fills == [] then now else now + [TradeUpdate(h.streamId, h.account, h.source, header, fills)]
  }

  lemma Continue(h: Handler, runs: seq<seq<Entry>>, before: seq<TradeUpdate>, now: seq<TradeUpdate>,
                 fills: seq<Fill>, header: Header, count: nat, item: Item)
    requires Progress(h, runs, before, now, fills, header, count)
    requires item.orderId == header.orderId
    ensures Progress(h, Extended(runs, Fresh(item), KeyOf), before, now, fills + [FillOf(h.source, item)], header, count)
  {
    var longer := Extended(runs, Fresh(item), KeyOf);
    var n := |runs|;
    if n > 0 {
      assert longer[..n - 1] == runs[..n - 1];
      assert UpdatesOf(h, longer)[..n - 1] == UpdatesOf(h, runs)[..n - 1];
    }
  }

  lemma Restart(h: Handler, runs: seq<seq<Entry>>, before: seq<TradeUpdate>, now: seq<TradeUpdate>,
                fills: seq<Fill>, header: Header, count: nat, item: Item)
    requires Progress(h, runs, before, now, fills, header, count)
    requires item.orderId != header.orderId
    ensures Progress(h, Extended(runs, Fresh(item), KeyOf), before, Written(h, now, fills, header),
                     [FillOf(h.source, item)], HeaderOf(item), if fills == [] then count else count + 1)
  {
    var longer := Extended(runs, Fresh(item), KeyOf);
    var n := |runs|;
    if n > 0 {
      assert longer == runs + [[Fresh(item)]];
      assert UpdatesOf(h, longer)[..n] == UpdatesOf(h, runs)[..n - 1] + [UpdateOf(h, runs[n - 1], n == 1)];
    }
  }

  lemma Finished(h: Handler, runs: seq<seq<Entry>>, before: seq<TradeUpdate>, now: seq<TradeUpdate>,
                 fills: seq<Fill>, header: Header, count: nat)
    requires Progress(h, runs, before, now, fills, header, count)
    ensures forall i | 0 <= i < |runs| :: runs[i] != []
    ensures fills == [] <==> runs == []
    ensures Written(h, now, fills, header) == before + UpdatesOf(h, runs)[..|runs|]
    ensures runs != [] ==> count == |runs| - 1 && now == before + UpdatesOf(h, runs)[..count] && fills == FillsOf(h.source, runs[count])
  {
    var n := |runs|;
    if n > 0 {
      assert UpdatesOf(h, runs)[..n] == UpdatesOf(h, runs)[..n - 1] + [UpdateOf(h, runs[n - 1], n == 1)];
    }
  }

  // The next item opens a new run, so the run being flushed is complete.
  lemma Unfinished(h: Handler, entries: seq<Entry>, n: nat, before: seq<TradeUpdate>, now: seq<TradeUpdate>,
                   fills: seq<Fill>, header: Header, count: nat, item: Item)
    requires n < |entries| && entries[n] == Fresh(item)
    requires Progress(h, RunsOf(entries[..n], KeyOf), before, now, fills, header, count)
    requires item.orderId != header.orderId && fills != []
    ensures count < |RunsOf(entries, KeyOf)|
    ensures now == before + UpdatesOf(h, RunsOf(entries, KeyOf))[..count]
    ensures fills == FillsOf(h.source, RunsOf(entries, KeyOf)[count])
  {
    hide RunsOf;
    var runs, all := RunsOf(entries[..n], KeyOf), RunsOf(entries, KeyOf);
    assert entries[..n + 1] == entries[..n] + [entries[n]];
    RunsOfStep(entries[..n], entries[n], KeyOf);
    SettledRuns(entries, n + 1, KeyOf);
    assert RunsOf(entries[..n + 1], KeyOf) == runs + [[entries[n]]];
    assert all[..count + 1] == (runs + [[entries[n]]])[..count + 1] == runs;
    forall i | 0 <= i <= count ensures all[i] == runs[i] {
      assert all[i] == all[..count + 1][i];
    }
    assert UpdatesOf(h, all)[..count] == UpdatesOf(h, runs)[..count];
  }

  lemma EntryAt(found: seq<Fill>, items: seq<Item>, i: nat)
    requires i < |items|
    ensures Entries(found, items)[|found| + i] == Fresh(items[i])
  {
  }

  // Fills found in the buffer form one run without a header.
  lemma StaleRuns(found: seq<Fill>, items: seq<Item>, h: Handler, before: seq<TradeUpdate>)
    ensures Progress(h, RunsOf(Entries(found, items)[..|found|], KeyOf), before, before, found, NO_HEADER, 0)
  {
    var stale := Entries(found, items)[..|found|];
    OneRun(stale);
    assert FillsOf(h.source, stale) == found;
  }

  lemma {:induction false} OneRun(stale: seq<Entry>)
    requires forall e | e in stale :: e.Stale?
    ensures RunsOf(stale, KeyOf) == if stale == [] then [] else [stale]
  {
    if stale != [] {
      var front, last := stale[..|stale| - 1], stale[|stale| - 1];
      OneRun(front);
      hide RunsOf;
      RunsOfStep(front, last, KeyOf);
      assert stale == front + [last];
      assert last.Stale? && (front != [] ==> front[0].Stale?);
    }
  }
}
