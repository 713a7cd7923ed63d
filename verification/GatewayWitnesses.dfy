// Concrete runs of the gateway in which an expected property fails.

module GatewayWitnesses {
  import opened Options
  import opened Json
  import opened Orders
  import opened Symbols
  import opened Topics
  import opened MarketData
  import opened WireArguments
  import opened AccountRuns
  import opened Gateway
  import opened GatewaySafety
  import D = DropCopy
  import Text

  lemma RunSnoc(c: Config, events: seq<Event>, e: Event)
    requires c.size > 0
    ensures Run(c, events + [e]) == if CanHappen(c, Run(c, events), e) then Next(c, Run(c, events), e) else Run(c, events)
  {
    hide CanHappen, Next;
    assert (events + [e])[..|events|] == events;
  }

  lemma {:induction false} DistinctAreFresh(symbols: seq<string>)
    requires Distinct(symbols)
    ensures Fresh({}, symbols) == symbols
  {
    if symbols != [] {
      var front, last := symbols[..|symbols| - 1], symbols[|symbols| - 1];
      assert forall i | 0 <= i < |front| :: front[i] == symbols[i];
      DistinctAreFresh(front);
      assert last !in front;
      assert symbols == front + [last];
    }
  }

  lemma {:induction false} SymbolsTerminateNothing(s: D.Settings, a: D.Account, batch: seq<string>)
    ensures D.OnSymbols(s, a, batch).terminated == a.terminated
  {
    if batch != [] {
      SymbolsTerminateNothing(s, a, batch[..|batch| - 1]);
    }
  }

  // ---- One client subscription ----

  function Subscribed(symbols: seq<string>): seq<Event> {
    [ClientSubscribe(symbols)]
  }

  lemma AfterSubscribe(c: Config, symbols: seq<string>)
    requires 0 < |symbols| <= c.size && Distinct(symbols)
    ensures var g := Run(c, Subscribed(symbols));
            && g.symbols == symbols
            && g.streams == [Stream(StreamId(FixedStreams(c) + 1), 0, false, [], 0)]
            && g.accounts.Keys == c.accounts
            && (forall a | a in c.accounts ::
                  g.accounts[a] == D.OnSymbols(c.account, D.NewAccount(a), symbols) && !g.accounts[a].terminated)
  {
    hide D.OnSymbols, Slice, StreamTopics, FixedStreams, StreamId;
    var e := ClientSubscribe(symbols);
    assert Run(c, []) == Start(c);
    assert [] + [e] == Subscribed(symbols);
    RunSnoc(c, [], e);
    DistinctAreFresh(symbols);
    forall a | a in c.accounts ensures !D.OnSymbols(c.account, D.NewAccount(a), symbols).terminated {
      SymbolsTerminateNothing(c.account, D.NewAccount(a), symbols);
    }
    OneStream(c, symbols);
    hide Fresh, DeliveredStreams;
    var g := Deliver(c, Start(c), symbols);
    assert [] + symbols == symbols;
    assert g.symbols == symbols;
  }

  lemma OneStream(c: Config, symbols: seq<string>)
    requires 0 < |symbols| <= c.size
    ensures DeliveredStreams(c, [], [], symbols) == [Stream(StreamId(FixedStreams(c) + 1), 0, false, [], 0)]
  {
    hide Slice, StreamTopics, FixedStreams, StreamId;
    assert [] + symbols == symbols;
    assert SliceCount(|symbols|, c.size) == 1;
  }

  /** The messages of a stream that becomes ready after one subscription. */
  lemma ReadySession(c: Config, symbols: seq<string>)
    requires 0 < |symbols| <= c.size && Distinct(symbols)
    ensures var g := Run(c, Subscribed(symbols) + [StreamReady(0)]);
            && |g.streams| == 1 && g.streams[0].ready
            && Slice(g.symbols, c.size, 0, 0) == symbols
            && Session(g.streams[0]) == Messages(StreamTopics(c.market), symbols, StreamId(FixedStreams(c) + 1) * REQUEST_ID + 1)
  {
    hide StreamTopics, FixedStreams, StreamId, Run;
    AfterSubscribe(c, symbols);
    RunSnoc(c, Subscribed(symbols), StreamReady(0));
    assert symbols[0..|symbols|] == symbols;
    assert [] + Messages(StreamTopics(c.market), symbols, StreamId(FixedStreams(c) + 1) * REQUEST_ID + 1)
        == Messages(StreamTopics(c.market), symbols, StreamId(FixedStreams(c) + 1) * REQUEST_ID + 1);
  }

  lemma MessagesReadable(s: MarketData.Settings, symbols: seq<string>, firstId: nat)
    requires symbols != [] && CleanTexts(symbols)
    ensures AllReadable(Messages(StreamTopics(s), symbols, firstId))
  {
    hide StreamTopics, CleanTexts;
    var messages := Messages(StreamTopics(s), symbols, firstId);
    forall m {:trigger m in messages} | m in messages ensures Readable(m) {
      var k :| 0 <= k < |messages| && messages[k] == m;
      TopicsInRange(s, StreamTopics(s)[k]);
    }
  }

  /** Depth 1 on spot: a client subscribes "X", the stream becomes ready, and "X" is asked for twice on the best
      bid and offer. */
  lemma DepthOneSubscribesTwice(c: Config)
    requires c.size > 0 && c.market == MarketData.Settings(Spot, 1, false)
    ensures var g := Run(c, [ClientSubscribe(["X"]), StreamReady(0)]);
            && |g.streams| == 1 && g.streams[0].ready && Slice(g.symbols, c.size, 0, 0) == ["X"]
            && OnTopic(ReadArguments(Session(g.streams[0])), OrderBook(1)) == ["orderbook.1.X", "orderbook.1.X"]
  {
    hide Run, Slice, OnTopic, ReadArguments, SubscribedOn, StreamTopics, FixedStreams, StreamId, Occurrences;
    assert Subscribed(["X"]) + [StreamReady(0)] == [ClientSubscribe(["X"]), StreamReady(0)];
    ReadySession(c, ["X"]);
    var id := StreamId(FixedStreams(c) + 1) * REQUEST_ID + 1;
    var session := Messages(StreamTopics(c.market), ["X"], id);
    CleanX();
    MessagesReadable(c.market, ["X"], id);
    TopicIsRead(session, OrderBook(1));
    TopicOccurrences(c.market, OrderBook(1));
    MessagesOn(StreamTopics(c.market), ["X"], id, OrderBook(1));
    assert Repeat(["X"], 1) == ["X"];
    assert Repeat(["X"], 2) == ["X", "X"];
    BestTopic();
    ConcreteArgs();
  }

  lemma ConcreteArgs()
    ensures Args("orderbook.1", ["X", "X"]) == ["orderbook.1.X", "orderbook.1.X"]
    ensures KlineArgs(KLINE_INTERVAL, ["A", "B"]) == ["kline.1.A", "kline.B"]
  {
    assert Text.PrintNat(1) == "1";
    assert "orderbook.1" + "." + "X" == "orderbook.1.X";
    var args := KlineArgs(1, ["A", "B"]);
    assert args[0] == "kline." + "1" + "." + "A" == "kline.1.A";
    KlineSecondSymbol();
  }

  lemma CleanX()
    ensures CleanTexts(["X"]) && CleanTexts(["A", "B"])
  {
  }

  /** With a time series download, two symbols subscribed at once: the second is asked for without an interval. */
  lemma KlineWithoutInterval(c: Config)
    requires c.size > 1 && c.market == MarketData.Settings(Linear, 0, true)
    ensures var g := Run(c, [ClientSubscribe(["A", "B"]), StreamReady(0)]);
            && |g.streams| == 1 && g.streams[0].ready && Slice(g.symbols, c.size, 0, 0) == ["A", "B"]
            && OnTopic(ReadArguments(Session(g.streams[0])), Kline) == ["kline.1.A", "kline.B"]
  {
    hide Run, Slice, OnTopic, ReadArguments, SubscribedOn, StreamTopics, FixedStreams, StreamId, Occurrences, CleanTexts;
    var symbols := ["A", "B"];
    assert Subscribed(symbols) + [StreamReady(0)] == [ClientSubscribe(symbols), StreamReady(0)];
    assert symbols[0] != symbols[1];
    ReadySession(c, symbols);
    var id := StreamId(FixedStreams(c) + 1) * REQUEST_ID + 1;
    var session := Messages(StreamTopics(c.market), symbols, id);
    CleanX();
    MessagesReadable(c.market, symbols, id);
    KlineLast(c.market, symbols, id);
    var front := session[..|session| - 1];
    ReadableParts(session);
    KlineIsRead(front);
    OneMoreMessage(session, Kline);
    ConcreteArgs();
  }

  lemma KlineLast(s: MarketData.Settings, symbols: seq<string>, firstId: nat)
    requires s == MarketData.Settings(Linear, 0, true)
    ensures var session := Messages(StreamTopics(s), symbols, firstId);
            && session != []
            && session[|session| - 1].topic == Kline && session[|session| - 1].symbols == symbols
            && SubscribedOn(session[..|session| - 1], Kline) == []
  {
    var topics := StreamTopics(s);
    var front := [OrderBook(50), PublicTrade, Tickers];
    assert topics == front + [Kline];
    hide StreamTopics, SubscribedOn, Occurrences, Repeat;
    var session := Messages(topics, symbols, firstId);
    assert session[..|session| - 1] == Messages(front, symbols, firstId);
    MessagesOn(front, symbols, firstId, Kline);
    NoTopics(Kline);
    OneMoreTopic([], OrderBook(50), Kline);
    OneMoreTopic([OrderBook(50)], PublicTrade, Kline);
    OneMoreTopic([OrderBook(50), PublicTrade], Tickers, Kline);
    assert [] + [OrderBook(50)] == [OrderBook(50)];
    assert [OrderBook(50)] + [PublicTrade] == [OrderBook(50), PublicTrade];
    assert [OrderBook(50), PublicTrade] + [Tickers] == front;
  }

  /** A client subscribes a symbol that is a quote: whatever the topics, none is read with it. */
  lemma QuoteIsNotRead(c: Config, t: PublicTopic)
    requires c.size > 0
    ensures var g := Run(c, [ClientSubscribe(["\""]), StreamReady(0)]);
            && |g.streams| == 1 && g.streams[0].ready && Slice(g.symbols, c.size, 0, 0) == ["\""]
            && OnTopic(ReadArguments(Session(g.streams[0])), t) != Args(IntendedTopic(t), ["\""])
  {
    assert "\""[0] == '"' && ["\""][0] == "\"";
    assert !CleanText(["\""][0]);
    assert !CleanTexts(["\""]);
    hide Run, Slice, OnTopic, ReadArguments, Args, IntendedTopic, FixedStreams, StreamId, StreamTopics, CleanTexts;
    var symbols := ["\""];
    assert Subscribed(symbols) + [StreamReady(0)] == [ClientSubscribe(symbols), StreamReady(0)];
    ReadySession(c, symbols);
    UncleanIsNotRead(Session(Run(c, [ClientSubscribe(symbols), StreamReady(0)]).streams[0]), t, symbols);
  }

  // ---- A download that is cut short ----

  /** The dispatcher throws at the market status of "X", the download is repeated, and "X" is known but in no slice. */
  lemma SymbolNeverDelivered(c: Config)
    requires c.size > 0
    ensures var download := [Instrument("X", false)];
            var g := Run(c, [Instruments(download, Some(1)), Instruments(download, None)]);
            g.all == {"X"} && g.symbols == [] && g.streams == []
  {
    hide D.OnSymbols, DeliveredStreams;
    var download := [Instrument("X", false)];
    var e, e' := Instruments(download, Some(1)), Instruments(download, None);
    assert download[..0] == [];
    assert Inserted(download, Some(1)) == ["X"] && CutShort(download, Some(1));
    assert Inserted(download, None) == ["X"];
    assert Members(["X"]) == {"X"};
    assert Fresh({"X"}, ["X"]) == [] by {
      assert ["X"][..0] == [];
    }
    assert Run(c, []) == Start(c);
    assert [] + [e] == [e];
    RunSnoc(c, [], e);
    var g := Run(c, [e]);
    assert g == Start(c).(all := {"X"});
    hide Run;
    assert [e] + [e'] == [e, e'];
    RunSnoc(c, [e], e');
  }

  // ---- A download that is lost ----

  function AfterAck(s: D.Settings): D.Account {
    var connected := D.OnReady(D.OnSymbols(s, D.NewAccount("A"), ["X"]));
    D.OnAck(D.OnAuth(s, connected, true), "order", ["X"])
  }

  lemma AcknowledgedAccount(s: D.Settings)
    requires s.tradable("A", "X") && s.api.Linear? && s.wsApi
    ensures var a := AfterAck(s);
            && a.ready && !a.terminated && a.symbols == {"X"} && a.acked == {"order"} && a.sessionStart == 0
            && a.queue == a.enqueued == [D.Request("order", "X")] && a.dispatched == []
            && "order" in Members(D.PrivateTopics(s.api))
  {
    D.OneMoreSymbol(s, D.NewAccount("A"), [], "X");
    assert [] + ["X"] == ["X"];
    assert D.SymbolRequests("order", ["X"]) == [D.Request("order", "X")];
    var topics := D.PrivateTopics(s.api);
    assert topics[2] == "order";
  }

  // An event of the only account takes it one step further.
  lemma OnlyAccountStep(c: Config, events: seq<Event>, a: D.Account, e: AccountRuns.AccountEvent)
    requires c.size > 0 && Run(c, events).accounts == map["A" := a]
    requires !a.terminated && AccountRuns.Enabled(c.account, a, e)
    ensures Run(c, events + [OnAccount("A", e)]).accounts == map["A" := AccountRuns.Step(c.account, a, e)]
  {
    hide Run, AccountRuns.Step;
    RunSnoc(c, events, OnAccount("A", e));
  }

  function LosingRun(): seq<Event> {
    Subscribed(["X"]) + [OnAccount("A", Ready)] + [OnAccount("A", AccountEvent.Auth(true))]
    + [OnAccount("A", Ack("order", ["X"]))] + [OnAccount("A", TradeDisconnected)]
  }

  // The first event leaves an account that may go on.
  lemma OnlySymbol(c: Config)
    requires c.size > 0 && c.accounts == {"A"}
    ensures var a := D.OnSymbols(c.account, D.NewAccount("A"), ["X"]);
            Run(c, Subscribed(["X"])).accounts == map["A" := a] && !a.terminated
  {
    hide Run, D.OnSymbols;
    AfterSubscribe(c, ["X"]);
  }

  // The account after each event of the run.
  lemma LosingSteps(s: D.Settings)
    requires s.api.Linear? && s.wsApi && s.tradable("A", "X")
    ensures var a1 := D.OnSymbols(s, D.NewAccount("A"), ["X"]);
            var a2 := D.OnReady(a1);
            var a3 := D.OnAuth(s, a2, true);
            var a4 := AfterAck(s);
            && AccountRuns.Enabled(s, a1, Ready) && AccountRuns.Step(s, a1, Ready) == a2 && !a2.terminated
            && AccountRuns.Enabled(s, a2, AccountEvent.Auth(true)) && AccountRuns.Step(s, a2, AccountEvent.Auth(true)) == a3
            && !a3.terminated
            && AccountRuns.Enabled(s, a3, Ack("order", ["X"])) && AccountRuns.Step(s, a3, Ack("order", ["X"])) == a4
            && !a4.terminated
            && AccountRuns.Enabled(s, a4, TradeDisconnected)
            && AccountRuns.Step(s, a4, TradeDisconnected) == D.OnTradeDisconnected(a4)
  {
    LoggedInAccount(s);
    AcknowledgedAccount(s);
    hide D.OnSymbols, D.OnReady, D.OnAuth, D.OnAck, D.OnTradeDisconnected, D.Enumerates;
  }

  lemma LosingRunAccount(c: Config)
    requires c.size > 0 && c.accounts == {"A"}
    requires c.account.api.Linear? && c.account.wsApi && c.account.tradable("A", "X")
    ensures Run(c, LosingRun()).accounts == map["A" := D.OnTradeDisconnected(AfterAck(c.account))]
  {
    var e1 := Subscribed(["X"]);
    var e2 := e1 + [OnAccount("A", Ready)];
    var e3 := e2 + [OnAccount("A", AccountEvent.Auth(true))];
    var e4 := e3 + [OnAccount("A", Ack("order", ["X"]))];
    assert LosingRun() == e4 + [OnAccount("A", TradeDisconnected)];
    hide *;
    var s := c.account;
    OnlySymbol(c);
    LosingSteps(s);
    var a1 := D.OnSymbols(s, D.NewAccount("A"), ["X"]);
    var a2 := D.OnReady(a1);
    OnlyAccountStep(c, e1, a1, Ready);
    OnlyAccountStep(c, e2, a2, AccountEvent.Auth(true));
    OnlyAccountStep(c, e3, D.OnAuth(s, a2, true), Ack("order", ["X"]));
    OnlyAccountStep(c, e4, AfterAck(s), TradeDisconnected);
  }

  lemma LoggedInAccount(s: D.Settings)
    requires s.tradable("A", "X")
    ensures var a := D.OnReady(D.OnSymbols(s, D.NewAccount("A"), ["X"]));
            && !a.terminated && !D.OnAuth(s, a, true).terminated
            && D.Enumerates(["X"], D.OnAuth(s, a, true).symbols)
  {
    D.OneMoreSymbol(s, D.NewAccount("A"), [], "X");
    assert [] + ["X"] == ["X"];
    assert Members(["X"]) == {"X"};
  }

  /** With the WebSocket API on, a download is lost although its private session goes on: one symbol arrives, the
      private stream becomes ready and logs in, "order" is acknowledged and enqueued, and then the other stream
      disconnects. */
  lemma DownloadLostByTradeStream(c: Config)
    requires c.size > 0 && c.accounts == {"A"}
    requires c.account.api.Linear? && c.account.wsApi && c.account.tradable("A", "X")
    ensures LosingRun() == [ClientSubscribe(["X"]), OnAccount("A", Ready), OnAccount("A", AccountEvent.Auth(true)),
                            OnAccount("A", Ack("order", ["X"])), OnAccount("A", TradeDisconnected)]
    ensures var g := Run(c, LosingRun());
            && "A" in g.accounts
            && var a := g.accounts["A"];
               && a.ready && "order" in a.acked && "order" in D.Downloads(c.account.api) && "X" in a.symbols
               && a.sessionStart == 0 && D.Request("order", "X") in a.enqueued
               && D.Request("order", "X") !in a.dispatched && D.Request("order", "X") !in a.queue
               && a.lost == [D.Request("order", "X")]
  {
    hide Run, AfterAck;
    AcknowledgedAccount(c.account);
    NothingLostBefore(c.account);
    LosingRunAccount(c);
    assert D.Request("order", "X") in [D.Request("order", "X")];
  }

  lemma NothingLostBefore(s: D.Settings)
    ensures AfterAck(s).lost == []
  {
    SymbolsLoseNothing(s, D.NewAccount("A"), ["X"]);
  }
}
