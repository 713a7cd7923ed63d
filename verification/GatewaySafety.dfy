// What holds in every reachable state of the gateway.

module GatewaySafety {
  import opened Json
  import opened Symbols
  import opened Topics
  import opened MarketData
  import opened WireArguments
  import opened AccountRuns
  import opened Gateway
  import D = DropCopy
  import R = Runs
  import Text

  // ---- Symbol registry ----

  lemma {:induction false} BatchInFlattened(batches: seq<seq<string>>, i: nat)
    requires i < |batches|
    ensures Members(batches[i]) <= Members(R.Flatten(batches))
  {
    var n := |batches| - 1;
    if i < n {
      BatchInFlattened(batches[..n], i);
    }
  }

  lemma {:induction false} DistinctBatches(batches: seq<seq<string>>, i: nat, j: nat)
    requires Distinct(R.Flatten(batches)) && i < |batches| && j < |batches|
    ensures Distinct(batches[i])
    ensures i != j ==> Members(batches[i]) !! Members(batches[j])
  {
    var n := |batches| - 1;
    var front, last := R.Flatten(batches[..n]), batches[n];
    var all := front + last;
    assert R.Flatten(batches) == all;
    assert Distinct(front) by {
      assert forall k | 0 <= k < |front| :: all[k] == front[k];
    }
    assert Distinct(last) by {
      forall k, l | 0 <= k < l < |last| ensures last[k] != last[l] {
        assert all[|front| + k] != all[|front| + l];
      }
    }
    assert Members(front) !! Members(last) by {
      forall k, l | 0 <= k < |front| && 0 <= l < |last| ensures front[k] != last[l] {
        assert all[k] == front[k] && all[|front| + l] == last[l];
      }
    }
    if i < n && j < n {
      DistinctBatches(batches[..n], i, j);
    } else if i < n {
      DistinctBatches(batches[..n], i, i);
      BatchInFlattened(batches[..n], i);
    } else if j < n {
      BatchInFlattened(batches[..n], j);
    }
  }

  // The symbols that were inserted but never delivered.
  ghost function Undelivered(g: State): set<string> {
    g.all - Members(g.symbols)
  }

  // An instrument download is cut short after it inserted a new symbol.
  ghost predicate Strands(c: Config, g: State, e: Event)
    requires c.size > 0
  {
    && e.Instruments? && CanHappen(c, g, e)
    && CutShort(e.instruments, e.throwAt) && Fresh(g.all, Inserted(e.instruments, e.throwAt)) != []
  }

  ghost predicate StrandsAt(c: Config, events: seq<Event>, n: nat)
    requires c.size > 0 && n < |events|
  {
    Strands(c, Run(c, events[..n]), events[n])
  }

  lemma BatchDelivers(c: Config, g: State, items: seq<string>)
    requires c.size > 0 && Registered(g)
    ensures var batch := Fresh(g.all, items);
            && Undelivered(Deliver(c, g, batch).(all := g.all + Members(items))) == Undelivered(g)
            && Undelivered(g.(all := g.all + Members(items))) == Undelivered(g) + Members(batch)
  {
    hide Fresh, Deliver;
    var batch := Fresh(g.all, items);
    FreshBatch(g.all, items);
    DeliveredSymbols(c, g, batch);
  }

  lemma DeliveredSymbols(c: Config, g: State, batch: seq<string>)
    requires c.size > 0
    ensures Members(Deliver(c, g, batch).symbols) == Members(g.symbols) + Members(batch)
  {
    hide DeliveredStreams, D.OnSymbols;
    assert Deliver(c, g, batch).symbols == g.symbols + batch;
  }

  lemma EventStrands(c: Config, g: State, e: Event)
    requires c.size > 0 && Ok(c, g) && CanHappen(c, g, e)
    ensures Undelivered(g) <= Undelivered(Next(c, g, e))
    ensures Undelivered(Next(c, g, e)) == Undelivered(g) <==> !Strands(c, g, e)
  {
    hide Fresh, Deliver, Inserted, CutShort, StreamsOk, AccountsOk, Slice, MarketData.OnReady, MarketData.OnDisconnected, AccountRuns.Step;
    match e
    case ClientSubscribe(items) => BatchDelivers(c, g, items);
    case Instruments(instruments, throwAt) =>
      var items := Inserted(instruments, throwAt);
      BatchDelivers(c, g, items);
      FreshBatch(g.all, items);
      if Fresh(g.all, items) == [] {
        assert Members(Fresh(g.all, items)) == {};
      } else {
        assert Fresh(g.all, items)[0] in Members(Fresh(g.all, items));
      }
    case _ =>
  }

  lemma {:induction false} DeliveredUnlessStranded(c: Config, events: seq<Event>)
    requires c.size > 0
    ensures Undelivered(Run(c, events)) == {} <==> forall n | 0 <= n < |events| :: !StrandsAt(c, events, n)
  {
    hide Next, Strands, Undelivered, CanHappen;
    if events == [] {
      NothingUndelivered(c);
    } else {
      var k := |events| - 1;
      var front, e := events[..k], events[k];
      DeliveredUnlessStranded(c, front);
      assert forall n | 0 <= n < k :: front[..n] == events[..n];
      assert forall n | 0 <= n < k :: StrandsAt(c, front, n) == StrandsAt(c, events, n);
      assert StrandsAt(c, events, k) == Strands(c, Run(c, front), e);
      StrandsWhenItHappens(c, Run(c, front), e);
      if CanHappen(c, Run(c, front), e) {
        RunOk(c, front);
        EventStrands(c, Run(c, front), e);
      }
    }
  }

  lemma NothingMissing(all: set<string>, part: set<string>)
    requires part <= all
    ensures all - part == {} <==> part == all
  {
    if all - part == {} {
      assert forall x | x in all :: x in part || x in all - part;
    }
  }

  lemma NothingUndelivered(c: Config)
    requires c.size > 0
    ensures Undelivered(Run(c, [])) == {}
  {
  }

  lemma StrandsWhenItHappens(c: Config, g: State, e: Event)
    requires c.size > 0
    ensures Strands(c, g, e) ==> CanHappen(c, g, e)
  {
  }

  /** Over any run, delivered batches are duplicate-free and pairwise disjoint, no account inserts a symbol twice, and
      each knows exactly the delivered symbols it may trade.  Together the batches are all symbols exactly when no
      instrument download was cut short by an exception after it had inserted a new symbol. */
  lemma SymbolRegistry(c: Config, events: seq<Event>)
    requires c.size > 0
    ensures var g := Run(c, events);
            && (forall i | 0 <= i < |g.batches| :: Distinct(g.batches[i]))
            && (forall i, j | 0 <= i < |g.batches| && 0 <= j < |g.batches| && i != j :: Members(g.batches[i]) !! Members(g.batches[j]))
            && Members(R.Flatten(g.batches)) <= g.all
            && (Members(R.Flatten(g.batches)) == g.all <==> forall n | 0 <= n < |events| :: !StrandsAt(c, events, n))
            && g.accounts.Keys == c.accounts
            && (forall a | a in g.accounts ::
                  && !g.accounts[a].assertionFailed
                  && g.accounts[a].symbols == set x | x in Members(R.Flatten(g.batches)) && c.account.tradable(a, x))
  {
    hide Run, StrandsAt;
    RunOk(c, events);
    DeliveredUnlessStranded(c, events);
    var g := Run(c, events);
    assert R.Flatten(g.batches) == g.symbols;
    NothingMissing(g.all, Members(g.symbols));
    forall i, j | 0 <= i < |g.batches| && 0 <= j < |g.batches|
      ensures Distinct(g.batches[i]) && (i != j ==> Members(g.batches[i]) !! Members(g.batches[j]))
    {
      DistinctBatches(g.batches, i, j);
    }
    assert forall a | a in g.accounts :: AccountOk(c, g.accounts[a], a, Members(g.symbols));
  }

  // ---- Subscriptions ----

  // What a session has subscribed, as recorded.
  lemma SessionCovers(c: Config, events: seq<Event>, i: nat, t: PublicTopic)
    requires c.size > 0
    requires i < |Run(c, events).streams| && Run(c, events).streams[i].ready
    ensures var g := Run(c, events);
            var slice := Slice(g.symbols, c.size, i, 0);
            var subscribed := SubscribedOn(Session(g.streams[i]), t);
            && WellFormed(g.streams[i])
            && slice != [] && Distinct(slice)
            && (t !in StreamTopics(c.market) ==> subscribed == [])
            && (t in StreamTopics(c.market) ==>
                  if t == OrderBook(1) && TopicsCoincide(c.market) then multiset(subscribed) == multiset(slice) + multiset(slice)
                  else subscribed == slice)
  {
    hide Run, Slice, SubscribedOn, StreamTopics, Occurrences;
    RunOk(c, events);
    var g := Run(c, events);
    assert StreamOk(c, g.streams[i], i, g.symbols);
    SliceNotEmpty(g.symbols, c.size, i);
    assert ExactOn(c.market, Session(g.streams[i]), Slice(g.symbols, c.size, i, 0), t);
    TopicOccurrences(c.market, t);
  }

  lemma TopicsInRange(s: MarketData.Settings, t: PublicTopic)
    requires t in StreamTopics(s)
    ensures t.OrderBook? ==> t.depth < 0x1_0000_0000
    ensures Kline in StreamTopics(s) <==> s.lookback
  {
    var topics := StreamTopics(s);
    if s.lookback {
      assert topics[|topics| - 1] == Kline;
    }
  }

  lemma SliceInSymbols(symbols: seq<string>, size: nat, i: nat)
    requires size > 0
    ensures forall x | x in Slice(symbols, size, i, 0) :: x in symbols
  {
  }

  lemma MessageReadable(s: MarketData.Settings, slice: seq<string>, m: Message)
    requires m.symbols != [] && m.topic in StreamTopics(s)
    requires CleanTexts(slice) && forall x | x in m.symbols :: x in slice
    ensures Readable(m)
  {
    hide StreamTopics, CleanText;
    TopicsInRange(s, m.topic);
    forall j | 0 <= j < |m.symbols| ensures CleanText(m.symbols[j]) {
      assert m.symbols[j] in m.symbols;
    }
  }

  // A session is readable when its slice needs no escaping.
  lemma SessionReadable(c: Config, events: seq<Event>, i: nat)
    requires c.size > 0
    requires i < |Run(c, events).streams| && Run(c, events).streams[i].ready
    requires CleanTexts(Slice(Run(c, events).symbols, c.size, i, 0))
    ensures AllReadable(Session(Run(c, events).streams[i]))
  {
    hide Run, Slice, SubscribedOn, StreamTopics, CleanTexts, Readable;
    var g := Run(c, events);
    var slice := Slice(g.symbols, c.size, i, 0);
    var session := Session(g.streams[i]);
    forall m {:trigger m in session} | m in session ensures Readable(m) {
      var k :| 0 <= k < |session| && session[k] == m;
      SessionCovers(c, events, i, m.topic);
      assert m == g.streams[i].sent[g.streams[i].sessionStart + k];
      SymbolsOfMessage(session, k);
      var subscribed := SubscribedOn(session, m.topic);
      assert m.symbols[0] in subscribed;
      forall x | x in m.symbols ensures x in slice {
        assert x in subscribed;
        assert x in multiset(subscribed);
        assert x in multiset(slice);
      }
      MessageReadable(c.market, slice, m);
    }
  }

  // What the exchange reads for one topic in the session of a ready stream, when its slice needs no escaping.
  lemma CleanTopicExactness(c: Config, events: seq<Event>, i: nat, t: PublicTopic)
    requires c.size > 0
    requires i < |Run(c, events).streams| && Run(c, events).streams[i].ready
    requires CleanTexts(Slice(Run(c, events).symbols, c.size, i, 0))
    ensures var g := Run(c, events);
            var slice := Slice(g.symbols, c.size, i, 0);
            var session := Session(g.streams[i]);
            var read := OnTopic(ReadArguments(session), t);
            var intended := Args(IntendedTopic(t), slice);
            && (t !in StreamTopics(c.market) ==> read == [])
            && (t in StreamTopics(c.market) ==>
                  && (read == intended <==>
                        !(t == OrderBook(1) && TopicsCoincide(c.market)) && (t.Kline? ==> OneSymbolEach(session)))
                  && (t == OrderBook(1) && TopicsCoincide(c.market) ==> multiset(read) == multiset(intended) + multiset(intended)))
  {
    hide Run, Slice, SubscribedOn, StreamTopics, CleanTexts, OnTopic, ReadArguments, OneSymbolEach, TopicText, Args, KlineTopic, Readable;
    var g := Run(c, events);
    var slice := Slice(g.symbols, c.size, i, 0);
    var session := Session(g.streams[i]);
    var subscribed := SubscribedOn(session, t);
    SessionCovers(c, events, i, t);
    SessionReadable(c, events, i);
    if t.Kline? {
      KlineIsRead(session);
    } else {
      TopicIsRead(session, t);
      NoArgs(TopicText(t));
      if t == OrderBook(1) && TopicsCoincide(c.market) {
        TopicOccurrences(c.market, t);
        assert multiset(slice + slice) == multiset(slice) + multiset(slice);
        ArgsRearranged(TopicText(t), subscribed, slice + slice);
        ArgsConcat(TopicText(t), slice, slice);
        TwiceIsNotOnce(Args(TopicText(t), subscribed), Args(TopicText(t), slice));
      }
    }
  }

  // Whether one topic is read with each symbol of the slice.
  lemma TopicExactness(c: Config, events: seq<Event>, i: nat, t: PublicTopic)
    requires c.size > 0
    requires i < |Run(c, events).streams| && Run(c, events).streams[i].ready
    requires t in StreamTopics(c.market)
    ensures var g := Run(c, events);
            var slice := Slice(g.symbols, c.size, i, 0);
            var session := Session(g.streams[i]);
            OnTopic(ReadArguments(session), t) == Args(IntendedTopic(t), slice)
            <==> && CleanTexts(slice)
                 && !(t == OrderBook(1) && TopicsCoincide(c.market))
                 && (t.Kline? ==> OneSymbolEach(session))
  {
    hide Run, Slice, StreamTopics, CleanTexts, OnTopic, ReadArguments, OneSymbolEach, Args, IntendedTopic;
    var slice := Slice(Run(c, events).symbols, c.size, i, 0);
    if CleanTexts(slice) {
      CleanTopicExactness(c, events, i, t);
    } else {
      UncleanIsNotRead(Session(Run(c, events).streams[i]), t, slice);
    }
  }

  lemma TwiceIsNotOnce(a: seq<string>, b: seq<string>)
    requires multiset(a) == multiset(b) + multiset(b) && b != []
    ensures a != b
  {
    assert |multiset(a)| == |b| + |b|;
  }

  /** Over any run, the exchange reads from the messages of a ready stream's session, for each of its topics, that
      topic with each symbol of the stream's current slice, once and in order, exactly when three things hold: the
      depth is not 1 on spot, where both order book subscriptions are the same topic and each symbol is asked for
      twice; every kline message of the session names one symbol, because the interval is only given for the first;
      and no symbol of the slice holds a quote or a backslash, because nothing is escaped.  The first two only spoil
      their own topic, the third spoils every topic.  Nothing else is read from a clean slice. */
  lemma SubscriptionExactness(c: Config, events: seq<Event>, i: nat)
    requires c.size > 0
    requires i < |Run(c, events).streams| && Run(c, events).streams[i].ready
    ensures var g := Run(c, events);
            var slice := Slice(g.symbols, c.size, i, 0);
            var session := Session(g.streams[i]);
            var read := ReadArguments(session);
            && slice != [] && Distinct(slice)
            && ((forall t | t in StreamTopics(c.market) :: OnTopic(read, t) == Args(IntendedTopic(t), slice))
                <==> !TopicsCoincide(c.market) && (c.market.lookback ==> OneSymbolEach(session)) && CleanTexts(slice))
            && (forall t | t in StreamTopics(c.market) ::
                  (OnTopic(read, t) == Args(IntendedTopic(t), slice)
                   <==> && CleanTexts(slice)
                        && !(t == OrderBook(1) && TopicsCoincide(c.market))
                        && (t.Kline? ==> OneSymbolEach(session))))
            && (CleanTexts(slice) && TopicsCoincide(c.market) ==>
                  multiset(OnTopic(read, OrderBook(1))) == multiset(Args("orderbook.1", slice)) + multiset(Args("orderbook.1", slice)))
            && (CleanTexts(slice) ==> forall t | t !in StreamTopics(c.market) :: OnTopic(read, t) == [])
  {
    hide Run, Slice, SubscribedOn, StreamTopics, CleanTexts, OnTopic, ReadArguments, OneSymbolEach, Args, Occurrences, IntendedTopic;
    SessionCovers(c, events, i, Tickers);
    forall t | t in StreamTopics(c.market)
      ensures OnTopic(ReadArguments(Session(Run(c, events).streams[i])), t)
           == Args(IntendedTopic(t), Slice(Run(c, events).symbols, c.size, i, 0))
         <==> && CleanTexts(Slice(Run(c, events).symbols, c.size, i, 0))
              && !(t == OrderBook(1) && TopicsCoincide(c.market))
              && (t.Kline? ==> OneSymbolEach(Session(Run(c, events).streams[i])))
    {
      TopicExactness(c, events, i, t);
    }
    if CleanTexts(Slice(Run(c, events).symbols, c.size, i, 0)) {
      forall t | t !in StreamTopics(c.market)
        ensures OnTopic(ReadArguments(Session(Run(c, events).streams[i])), t) == []
      {
        CleanTopicExactness(c, events, i, t);
      }
      CleanTopicExactness(c, events, i, OrderBook(1));
    }
    TopicOccurrences(c.market, OrderBook(1));
    BestTopic();
    TickersAndKline(c.market);
  }

  /** Over any run, a stream that is not ready has sent nothing since it was. */
  lemma NotReadySendsNothing(c: Config, events: seq<Event>, i: nat)
    requires c.size > 0
    requires i < |Run(c, events).streams| && !Run(c, events).streams[i].ready
    ensures Session(Run(c, events).streams[i]) == []
    ensures Run(c, events).streams[i].sessionStart == |Run(c, events).streams[i].sent|
  {
    hide Run, Slice;
    RunOk(c, events);
    var g := Run(c, events);
    assert StreamOk(c, g.streams[i], i, g.symbols);
    assert WellFormed(g.streams[i]) && Session(g.streams[i]) == [];
  }

  lemma BestTopic()
    ensures IntendedTopic(OrderBook(1)) == "orderbook.1"
  {
    assert Text.PrintNat(1) == "1";
  }

  lemma TickersAndKline(s: MarketData.Settings)
    ensures Tickers in StreamTopics(s)
    ensures Kline in StreamTopics(s) <==> s.lookback
  {
    var topics := StreamTopics(s);
    assert topics[if s.lookback then |topics| - 2 else |topics| - 1] == Tickers;
    TopicsInRange(s, Tickers);
  }

  lemma SliceNotEmpty(symbols: seq<string>, size: nat, i: nat)
    requires size > 0 && i < SliceCount(|symbols|, size) && Distinct(symbols)
    ensures Slice(symbols, size, i, 0) != [] && Distinct(Slice(symbols, size, i, 0))
  {
    hide Distinct;
    SliceCountBounds(|symbols|, size);
    SliceMonotonic(i, SliceCount(|symbols|, size), size);
    assert i * size < |symbols|;
    PlaceInSlice(symbols, size, i, i * size);
  }

  /** A known symbol belongs to a stream exactly when it was delivered, and then to exactly one. */
  lemma OneStreamPerSymbol(c: Config, events: seq<Event>, x: string) returns (i: nat)
    requires c.size > 0
    ensures var g := Run(c, events);
            && (x in Members(R.Flatten(g.batches)) <==> i < |g.streams| && x in Slice(g.symbols, c.size, i, 0))
            && forall j: nat | x in Slice(g.symbols, c.size, j, 0) :: x in Members(R.Flatten(g.batches)) && j == i
  {
    hide Run, Slice;
    RunOk(c, events);
    var g := Run(c, events);
    assert R.Flatten(g.batches) == g.symbols;
    i := 0;
    forall j: nat | x in Slice(g.symbols, c.size, j, 0) ensures x in g.symbols {
      SliceInSymbols(g.symbols, c.size, j);
    }
    if x in g.symbols {
      i := ExactlyOneSlice(g.symbols, c.size, x);
    }
  }

  // ---- Identifiers ----

  /** The first n stream identifiers are pairwise distinct exactly when they fit 16 bits. */
  lemma StreamIdsDistinct(n: nat)
    ensures (forall i, j | 1 <= i < j <= n :: StreamId(i) != StreamId(j)) <==> n <= 65_536
  {
    if n > 65_536 {
      assert StreamId(1) == StreamId(65_537);
    }
  }

  /** Over any run, two subscription messages of the same stream never share a request id.  Two streams whose
      identifiers differ share one exactly when the one with the higher identifier has sent something and the other
      has sent more than a million messages for each step between them; two streams whose identifiers have wrapped
      to the same value share one exactly when both have sent something. */
  lemma RequestIdsDistinct(c: Config, events: seq<Event>, i: nat, j: nat)
    requires c.size > 0 && i < |Run(c, events).streams| && j < |Run(c, events).streams|
    ensures var a, b := Run(c, events).streams[i], Run(c, events).streams[j];
            && (forall k, l | 0 <= k < l < |a.sent| :: a.sent[k].requestId != a.sent[l].requestId)
            && (a.streamId < b.streamId ==>
                  ((exists k, l | 0 <= k < |a.sent| && 0 <= l < |b.sent| :: a.sent[k].requestId == b.sent[l].requestId)
                   <==> b.sent != [] && |a.sent| > (b.streamId - a.streamId) * 1_000_000))
            && (a.streamId == b.streamId ==>
                  ((exists k, l | 0 <= k < |a.sent| && 0 <= l < |b.sent| :: a.sent[k].requestId == b.sent[l].requestId)
                   <==> a.sent != [] && b.sent != []))
  {
    hide Run, Slice, FixedStreams;
    RunOk(c, events);
    var g := Run(c, events);
    assert StreamOk(c, g.streams[i], i, g.symbols) && StreamOk(c, g.streams[j], j, g.symbols);
    var a, b := g.streams[i], g.streams[j];
    if a.streamId < b.streamId {
      var gap := (b.streamId - a.streamId) * 1_000_000;
      if b.sent != [] && |a.sent| > gap {
        assert a.sent[gap].requestId == b.sent[0].requestId;
      }
    } else if a.streamId == b.streamId && a.sent != [] && b.sent != [] {
      assert a.sent[0].requestId == b.sent[0].requestId;
    }
  }

  /** While the identifiers fit 16 bits they tell the streams of a run apart; so no request id is ever repeated
      before some stream has sent more than a million messages. */
  lemma RequestIdsNeverRepeat(c: Config, events: seq<Event>, i: nat, j: nat)
    requires c.size > 0 && i < |Run(c, events).streams| && j < |Run(c, events).streams| && i != j
    requires FixedStreams(c) + |Run(c, events).streams| <= 65_536
    ensures var a, b := Run(c, events).streams[i], Run(c, events).streams[j];
            && a.streamId != b.streamId
            && (|a.sent| <= 1_000_000 && |b.sent| <= 1_000_000 ==>
                  forall k, l | 0 <= k < |a.sent| && 0 <= l < |b.sent| :: a.sent[k].requestId != b.sent[l].requestId)
  {
    hide Run, Slice, FixedStreams, StreamId, WellFormed, Exact;
    RunOk(c, events);
    var g := Run(c, events);
    assert StreamOk(c, g.streams[i], i, g.symbols) && StreamOk(c, g.streams[j], j, g.symbols);
    DifferentIds(FixedStreams(c) + i + 1, FixedStreams(c) + j + 1);
    if |g.streams[i].sent| <= 1_000_000 && |g.streams[j].sent| <= 1_000_000 {
      SeparateRanges(g.streams[i], g.streams[j]);
    }
  }

  lemma SeparateRanges(a: Stream, b: Stream)
    requires WellFormed(a) && WellFormed(b) && a.streamId != b.streamId
    requires |a.sent| <= 1_000_000 && |b.sent| <= 1_000_000
    ensures forall k, l | 0 <= k < |a.sent| && 0 <= l < |b.sent| :: a.sent[k].requestId != b.sent[l].requestId
  {
  }

  lemma DifferentIds(i: nat, j: nat)
    requires 1 <= i <= 65_536 && 1 <= j <= 65_536 && i != j
    ensures StreamId(i) != StreamId(j)
  {
  }
}
