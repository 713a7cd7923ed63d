// One public stream: what it subscribes, when, and under which request ids
// (src/roq/bybit/gateway/market_data.cpp).

module MarketData {
  import opened Json
  import opened Orders
  import opened Symbols
  import opened Topics
  import Text

  const REQUEST_ID := 1_000_000
  const KLINE_INTERVAL := 1

  // ---- Settings ----

  type Uint32 = n: nat | n < 0x1_0000_0000

  function MbpDepth(setting: Uint32, api: Category): Uint32 {
    if setting != 0 then setting else if api.Option? then 25 else 50
  }

  // `lookback` is whether a time series is downloaded.
  datatype Settings = Settings(api: Category, mbpDepth: Uint32, lookback: bool)

  function StreamTopics(s: Settings): seq<PublicTopic> {
    (if s.api.Spot? then [OrderBook(1)] else [])
    + [OrderBook(MbpDepth(s.mbpDepth, s.api))]
    + [PublicTrade]
    + [Tickers]
    + (if s.lookback then [Kline] else [])
  }

  // ---- Specification ----

  datatype Message = Message(requestId: nat, topic: PublicTopic, symbols: seq<string>)

  function MessageArgs(m: Message): (r: seq<string>)
    requires m.symbols != []
    ensures |r| == |m.symbols|
  {
    if m.topic.Kline? then KlineArgs(KLINE_INTERVAL, m.symbols) else Args(TopicText(m.topic), m.symbols)
  }

  function MessageText(m: Message): string
    requires m.symbols != []
  {
    Render(SubscribeTree(Text.PrintNat(m.requestId), MessageArgs(m)))
  }

  // `sent` is everything ever sent; the current session starts at `sessionStart`.
  datatype Stream = Stream(streamId: nat, index: nat, ready: bool, sent: seq<Message>, sessionStart: nat)

  ghost predicate WellFormed(s: Stream) {
    && s.sessionStart <= |s.sent|
    && (forall i | 0 <= i < |s.sent| :: s.sent[i].symbols != [])
    && (forall i | 0 <= i < |s.sent| :: s.sent[i].requestId == s.streamId * REQUEST_ID + i + 1)
  }

  function Session(s: Stream): seq<Message> {
    if s.sessionStart <= |s.sent| then s.sent[s.sessionStart..] else []
  }

  function Messages(topics: seq<PublicTopic>, symbols: seq<string>, firstId: nat): (r: seq<Message>)
    ensures |r| == |topics|
  {
    seq(|topics|, i requires 0 <= i < |topics| => Message(firstId + i, topics[i], symbols))
  }

  function NextRequestId(s: Stream): nat {
    s.streamId * REQUEST_ID + |s.sent| + 1
  }

  function SubscribeAll(s: Stream, topics: seq<PublicTopic>, symbols: seq<string>): Stream {
    if symbols == [] then s else s.(sent := s.sent + Messages(topics, symbols, NextRequestId(s)))
  }

  function OnReady(s: Stream, topics: seq<PublicTopic>, slice: seq<string>): Stream {
    SubscribeAll(s.(ready := true, sessionStart := |s.sent|), topics, slice)
  }

  function OnDisconnected(s: Stream): Stream {
    s.(ready := false, sessionStart := |s.sent|)
  }

  function OnNewSymbols(s: Stream, topics: seq<PublicTopic>, part: seq<string>): Stream {
    if s.ready then SubscribeAll(s, topics, part) else s
  }

  // The symbols subscribed on one topic, in order.
  function SubscribedOn(messages: seq<Message>, topic: PublicTopic): seq<string> {
    if messages == [] then []
    else
      var m := messages[|messages| - 1];
      SubscribedOn(messages[..|messages| - 1], topic) + (if m.topic == topic then m.symbols else [])
  }

  // ---- The stream ----

  /** core::Symbols: append, then slices of fixed size. */
  class SymbolSlices {
    var symbols: seq<string>
    const size: nat
    ghost var batches: seq<seq<string>>

    constructor (size: nat)
      ensures symbols == [] && this.size == size && batches == []
    {
      symbols, this.size, batches := [], size, [];
    }

    // The number of slices, and the position of the first new symbol.
    method Append(batch: seq<string>) returns (count: nat, startFrom: nat)
      requires size > 0
      modifies this
      ensures symbols == old(symbols) + batch && batches == old(batches) + [batch]
      ensures count == SliceCount(|symbols|, size) && startFrom == |old(symbols)|
    {
      startFrom := |symbols|;
      symbols := symbols + batch;
      batches := batches + [batch];
      count := SliceCount(|symbols|, size);
    }
  }

  class MarketDataStream {
    const streamId: nat
    const index: nat
    const settings: Settings
    const shared: SymbolSlices
    var ready: bool
    var requestId: nat
    var texts: seq<string>
    ghost var sent: seq<Message>
    ghost var sessionStart: nat

    ghost function View(): Stream
      reads this
    {
      Stream(streamId, index, ready, sent, sessionStart)
    }

    ghost predicate Valid()
      reads this
    {
      && WellFormed(View())
      && shared.size > 0
      && requestId == streamId * REQUEST_ID + |sent|
      && |texts| == |sent|
      && (forall i | 0 <= i < |sent| :: texts[i] == MessageText(sent[i]))
    }

    constructor (streamId: nat, index: nat, settings: Settings, shared: SymbolSlices)
      requires shared.size > 0
      ensures Valid() && this.shared == shared && this.settings == settings && this.index == index
      ensures View() == Stream(streamId, index, false, [], 0)
    {
      this.streamId, this.index, this.settings, this.shared := streamId, index, settings, shared;
      ready, requestId, texts, sent, sessionStart := false, streamId * REQUEST_ID, [], [], 0;
    }

    method SubscribeTopic(topic: PublicTopic, symbols: seq<string>)
      requires Valid() && symbols != []
      modifies this`requestId, this`texts, this`sent
      ensures Valid()
      ensures sent == old(sent) + [Message(streamId * REQUEST_ID + |old(sent)| + 1, topic, symbols)]
    {
      hide TopicText, MessageText;
      requestId := requestId + 1;
      ghost var m := Message(requestId, topic, symbols);
      var message := FormatMessage(topic, requestId, symbols);
      texts := texts + [message];
      sent := sent + [m];
    }

    method SubscribeSymbols(symbols: seq<string>)
      requires Valid()
      modifies this`requestId, this`texts, this`sent
      ensures Valid()
      ensures View() == SubscribeAll(old(View()), StreamTopics(settings), symbols)
    {
      hide WellFormed, Valid;
      if symbols == [] {
        return;
      }
      ghost var first := NextRequestId(View());
      ghost var was := sent;
      if settings.api.Spot? {
        SubscribeTopic(OrderBook(1), symbols);
      }
      SubscribeTopic(OrderBook(MbpDepth(settings.mbpDepth, settings.api)), symbols);
      SubscribeTopic(PublicTrade, symbols);
      SubscribeTopic(Tickers, symbols);
      if settings.lookback {
        SubscribeTopic(Kline, symbols);
      }
      assert sent == was + Messages(StreamTopics(settings), symbols, first);
    }

    // Incremental subscription to the symbols from `startFrom` on.
    method SubscribeFrom(startFrom: nat)
      requires Valid()
      modifies this`requestId, this`texts, this`sent
      ensures Valid()
      ensures View() == OnNewSymbols(old(View()), StreamTopics(settings), Slice(shared.symbols, shared.size, index, startFrom))
    {
      if ready {
        SubscribeSymbols(Slice(shared.symbols, shared.size, index, startFrom));
      }
    }

    method Ready()
      requires Valid()
      modifies this
      ensures Valid()
      ensures View() == OnReady(old(View()), StreamTopics(settings), Slice(shared.symbols, shared.size, index, 0))
    {
      ready := true;
      sessionStart := |sent|;
      SubscribeFrom(0);
    }

    method Disconnected()
      requires Valid()
      modifies this
      ensures Valid()
      ensures View() == OnDisconnected(old(View()))
    {
      ready := false;
      sessionStart := |sent|;
    }
  }

  method FormatMessage(topic: PublicTopic, requestId: nat, symbols: seq<string>) returns (message: string)
    requires symbols != []
    ensures message == MessageText(Message(requestId, topic, symbols))
  {
    hide Render, Text.PrintNat;
    if topic.Kline? {
      message := FormatSubscribeKline(requestId, symbols, KLINE_INTERVAL);
    } else {
      message := FormatSubscribe(TopicText(topic), requestId, symbols);
    }
  }

  // ---- One session ----

  lemma {:induction false} SubscribedConcat(a: seq<Message>, b: seq<Message>, topic: PublicTopic)
    ensures SubscribedOn(a + b, topic) == SubscribedOn(a, topic) + SubscribedOn(b, topic)
  {
    if b == [] {
      assert a + b == a;
    } else {
      var n := |b| - 1;
      assert (a + b)[..|a| + n] == a + b[..n];
      SubscribedConcat(a, b[..n], topic);
    }
  }

  function Occurrences(topics: seq<PublicTopic>, topic: PublicTopic): nat {
    if topics == [] then 0
    else Occurrences(topics[..|topics| - 1], topic) + (if topics[|topics| - 1] == topic then 1 else 0)
  }

  function Repeat(symbols: seq<string>, n: nat): seq<string> {
    if n == 0 then [] else Repeat(symbols, n - 1) + symbols
  }

  lemma {:induction false} MessagesOn(topics: seq<PublicTopic>, symbols: seq<string>, firstId: nat, topic: PublicTopic)
    ensures SubscribedOn(Messages(topics, symbols, firstId), topic) == Repeat(symbols, Occurrences(topics, topic))
  {
    if topics != [] {
      var n := |topics| - 1;
      MessagesOn(topics[..n], symbols, firstId, topic);
      assert Messages(topics, symbols, firstId)[..n] == Messages(topics[..n], symbols, firstId);
    }
  }

  // Subscribing adds the symbols once for every occurrence of the topic.
  lemma SubscribeAdds(s: Stream, topics: seq<PublicTopic>, symbols: seq<string>, topic: PublicTopic)
    requires WellFormed(s)
    ensures WellFormed(SubscribeAll(s, topics, symbols))
    ensures SubscribedOn(Session(SubscribeAll(s, topics, symbols)), topic)
         == SubscribedOn(Session(s), topic) + Repeat(symbols, Occurrences(topics, topic))
  {
    hide SubscribedOn, Occurrences, Repeat;
    if symbols == [] {
      RepeatNothing(Occurrences(topics, topic));
      assert SubscribedOn(Session(s), topic) + [] == SubscribedOn(Session(s), topic);
    } else {
      var more := Messages(topics, symbols, NextRequestId(s));
      assert Session(SubscribeAll(s, topics, symbols)) == Session(s) + more;
      SubscribedConcat(Session(s), more, topic);
      MessagesOn(topics, symbols, NextRequestId(s), topic);
    }
  }

  lemma {:induction false} RepeatNothing(n: nat)
    ensures Repeat([], n) == []
  {
    if n > 0 {
      RepeatNothing(n - 1);
    }
  }

  // With depth 1 on spot, the two order book subscriptions are the same topic.
  predicate TopicsCoincide(s: Settings) {
    s.api.Spot? && s.mbpDepth == 1
  }

  lemma NoTopics(topic: PublicTopic)
    ensures Occurrences([], topic) == 0
  {
  }

  lemma OneMoreTopic(topics: seq<PublicTopic>, last: PublicTopic, topic: PublicTopic)
    ensures Occurrences(topics + [last], topic) == Occurrences(topics, topic) + (if last == topic then 1 else 0)
  {
    assert (topics + [last])[..|topics|] == topics;
  }

  /** The topics of a stream: trades and tickers always, kline with a time series download, the configured depth or
      else 50 (25 for options), and the best bid and offer on spot. */
  lemma TopicsExactly(s: Settings, t: PublicTopic)
    ensures t in StreamTopics(s) <==>
              match t
              case PublicTrade => true
              case Tickers => true
              case Kline => s.lookback
              case OrderBook(depth) =>
                || (depth == 1 && s.api.Spot?)
                || (if s.mbpDepth != 0 then depth == s.mbpDepth else depth == if s.api.Option? then 25 else 50)
  {
    var depths: seq<PublicTopic> := (if s.api.Spot? then [OrderBook(1)] else []) + [OrderBook(MbpDepth(s.mbpDepth, s.api))];
    var rest: seq<PublicTopic> := [PublicTrade] + [Tickers] + (if s.lookback then [Kline] else []);
    assert StreamTopics(s) == depths + rest;
    assert t in depths + rest <==> t in depths || t in rest;
    assert forall i | 0 <= i < |depths| :: depths[i].OrderBook?;
    assert depths[|depths| - 1] == OrderBook(MbpDepth(s.mbpDepth, s.api));
    assert s.api.Spot? ==> depths[0] == OrderBook(1);
    assert rest[0] == PublicTrade && rest[1] == Tickers && (s.lookback ==> rest[2] == Kline);
  }

  lemma TopicOccurrences(s: Settings, topic: PublicTopic)
    ensures topic !in StreamTopics(s) ==> Occurrences(StreamTopics(s), topic) == 0
    ensures topic in StreamTopics(s) ==>
              Occurrences(StreamTopics(s), topic) == if topic == OrderBook(1) && TopicsCoincide(s) then 2 else 1
    ensures TopicsCoincide(s) ==> OrderBook(1) in StreamTopics(s)
  {
    hide Occurrences;
    var depth := OrderBook(MbpDepth(s.mbpDepth, s.api));
    var t0: seq<PublicTopic> := if s.api.Spot? then [OrderBook(1)] else [];
    NoTopics(topic);
    assert [] + [OrderBook(1)] == [OrderBook(1)];
    OneMoreTopic([], OrderBook(1), topic);
    OneMoreTopic(t0, depth, topic);
    OneMoreTopic(t0 + [depth], PublicTrade, topic);
    OneMoreTopic(t0 + [depth] + [PublicTrade], Tickers, topic);
    OneMoreTopic(t0 + [depth] + [PublicTrade] + [Tickers], Kline, topic);
    var common := t0 + [depth] + [PublicTrade] + [Tickers];
    assert StreamTopics(s) == if s.lookback then common + [Kline] else common;
  }
}
