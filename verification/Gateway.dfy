// The whole gateway as a state machine: any interleaving of symbol batches, stream events and account events
// (src/roq/bybit/gateway/controller.cpp around the streams).

module Gateway {
  import opened Options
  import opened Symbols
  import opened Topics
  import opened MarketData
  import opened AccountRuns
  import D = DropCopy
  import R = Runs

  datatype Config = Config(market: MarketData.Settings, account: D.Settings, size: nat, accounts: set<string>)

  // ---- Identifiers of streams: a 16-bit counter ----

  const STREAM_IDS := 0x1_0000

  // The identifier given to the k-th stream, counting from one.
  function StreamId(k: nat): nat {
    k % STREAM_IDS
  }

  // The instrument stream, and the order entry and private streams of every account.
  function FixedStreams(c: Config): nat {
    1 + |c.accounts| * (if c.account.wsApi then 3 else 2)
  }

  // ---- State and steps ----

  datatype State = State(
    all: set<string>,
    batches: seq<seq<string>>,
    symbols: seq<string>,
    streams: seq<Stream>,
    accounts: map<string, D.Account>)

  function Start(c: Config): State {
    State({}, [], [], [], map a | a in c.accounts :: D.NewAccount(a))
  }

  function CreateStreams(fixed: nat, streams: seq<Stream>, count: nat): (r: seq<Stream>)
    ensures |r| == if |streams| < count then count else |streams|
    ensures forall i | 0 <= i < |streams| :: r[i] == streams[i]
    ensures forall i | |streams| <= i < |r| :: r[i] == Stream(StreamId(fixed + i + 1), i, false, [], 0)
    decreases count - |streams|
  {
    if |streams| < count then
      CreateStreams(fixed, streams + [Stream(StreamId(fixed + |streams| + 1), |streams|, false, [], 0)], count)
    else streams
  }

  // The streams after a batch: as many as slices, each told the new symbols of its slice.
  function DeliveredStreams(c: Config, streams: seq<Stream>, symbols: seq<string>, batch: seq<string>): seq<Stream>
    requires c.size > 0
  {
    var all := symbols + batch;
    var created := CreateStreams(FixedStreams(c), streams, SliceCount(|all|, c.size));
    seq(|created|, i requires 0 <= i < |created| =>
      OnNewSymbols(created[i], StreamTopics(c.market), Slice(all, c.size, i, |symbols|)))
  }

  // A batch reaches the slices, then the old and new streams, then the accounts.
  function Deliver(c: Config, g: State, batch: seq<string>): State
    requires c.size > 0
  {
    g.(batches := g.batches + [batch], symbols := g.symbols + batch,
       streams := DeliveredStreams(c, g.streams, g.symbols, batch),
       accounts := map a | a in g.accounts :: D.OnSymbols(c.account, g.accounts[a], batch))
  }

  function OnClientSubscribe(c: Config, g: State, items: seq<string>): State
    requires c.size > 0
  {
    Deliver(c, g, Fresh(g.all, items)).(all := g.all + Members(items))
  }

  // A download that is cut short delivers nothing, but what it inserted stays inserted.
  function OnInstruments(c: Config, g: State, instruments: seq<Instrument>, throwAt: Option<nat>): State
    requires c.size > 0
  {
    var items := Inserted(instruments, throwAt);
    var batch := Fresh(g.all, items);
    (if CutShort(instruments, throwAt) || batch == [] then g else Deliver(c, g, batch)).(all := g.all + Members(items))
  }

  datatype Event =
    | ClientSubscribe(items: seq<string>)
    | Instruments(instruments: seq<Instrument>, throwAt: Option<nat>)
    | StreamReady(index: nat)
    | StreamDisconnected(index: nat)
    | OnAccount(account: string, event: AccountRuns.AccountEvent)

  // Connections only report for streams that exist, and nothing happens after the process has terminated.
  ghost predicate CanHappen(c: Config, g: State, e: Event) {
    && (forall a | a in g.accounts :: !g.accounts[a].terminated)
    && match e
       case ClientSubscribe(_) => true
       case Instruments(_, _) => true
       case StreamReady(i) => i < |g.streams|
       case StreamDisconnected(i) => i < |g.streams|
       case OnAccount(a, event) => a in g.accounts && AccountRuns.Enabled(c.account, g.accounts[a], event)
  }

  ghost function Next(c: Config, g: State, e: Event): State
    requires c.size > 0 && CanHappen(c, g, e)
  {
    match e
    case ClientSubscribe(items) => OnClientSubscribe(c, g, items)
    case Instruments(instruments, throwAt) => OnInstruments(c, g, instruments, throwAt)
    case StreamReady(i) =>
      g.(streams := g.streams[i := MarketData.OnReady(g.streams[i], StreamTopics(c.market), Slice(g.symbols, c.size, i, 0))])
    case StreamDisconnected(i) =>
      g.(streams := g.streams[i := MarketData.OnDisconnected(g.streams[i])])
    case OnAccount(a, event) =>
      g.(accounts := g.accounts[a := AccountRuns.Step(c.account, g.accounts[a], event)])
  }

  // An event that cannot happen is ignored, so runs are arbitrary lists of events.
  ghost function Run(c: Config, events: seq<Event>): State
    requires c.size > 0
  {
    if events == [] then Start(c)
    else
      var g := Run(c, events[..|events| - 1]);
      var e := events[|events| - 1];
      if CanHappen(c, g, e) then Next(c, g, e) else g
  }

  // ---- Invariants ----

  ghost predicate Registered(g: State) {
    && Distinct(g.symbols)
    && Members(g.symbols) <= g.all
    && R.Flatten(g.batches) == g.symbols
  }

  // A session subscribes a topic to the slice, as often as the topic occurs.
  ghost predicate ExactOn(m: MarketData.Settings, session: seq<Message>, slice: seq<string>, t: PublicTopic) {
    var n := Occurrences(StreamTopics(m), t);
    && n <= 2
    && (n == 0 ==> SubscribedOn(session, t) == [])
    && (n == 1 ==> SubscribedOn(session, t) == slice)
    && (n == 2 ==> multiset(SubscribedOn(session, t)) == multiset(slice) + multiset(slice))
  }

  ghost predicate Exact(m: MarketData.Settings, s: Stream, slice: seq<string>)
    requires WellFormed(s)
  {
    if s.ready then forall t :: ExactOn(m, Session(s), slice, t) else Session(s) == []
  }

  ghost predicate StreamOk(c: Config, s: Stream, i: nat, symbols: seq<string>)
    requires c.size > 0
  {
    && WellFormed(s)
    && s.index == i && s.streamId == StreamId(FixedStreams(c) + i + 1)
    && Exact(c.market, s, Slice(symbols, c.size, i, 0))
  }

  ghost predicate StreamsOk(c: Config, g: State)
    requires c.size > 0
  {
    && |g.streams| == SliceCount(|g.symbols|, c.size)
    && forall i | 0 <= i < |g.streams| :: StreamOk(c, g.streams[i], i, g.symbols)
  }

  // `delivered` are the symbols in the slices.
  ghost predicate AccountOk(c: Config, a: D.Account, name: string, delivered: set<string>) {
    && a.name == name
    && KnowsTradable(c.account, a, delivered) && Covered(c.account, a) && Conserved(c.account, a) && Sound(a)
  }

  ghost predicate AccountsOk(c: Config, g: State) {
    && g.accounts.Keys == c.accounts
    && forall a | a in g.accounts :: AccountOk(c, g.accounts[a], a, Members(g.symbols))
  }

  // ---- Streams ----

  lemma Repeated(a: seq<string>, n: nat)
    ensures n == 2 ==> multiset(Repeat(a, n)) == multiset(a) + multiset(a)
    ensures n == 1 ==> Repeat(a, n) == a
    ensures n == 0 ==> Repeat(a, n) == []
  {
    if n == 1 || n == 2 {
      assert Repeat(a, 1) == Repeat(a, 0) + a == a;
    }
  }

  lemma ExactGrows(m: MarketData.Settings, s: Stream, slice: seq<string>, more: seq<string>)
    requires WellFormed(s)
    requires forall t :: ExactOn(m, Session(s), slice, t)
    ensures WellFormed(SubscribeAll(s, StreamTopics(m), more))
    ensures forall t :: ExactOn(m, Session(SubscribeAll(s, StreamTopics(m), more)), slice + more, t)
  {
    hide SubscribedOn, Occurrences, StreamTopics, SubscribeAll, Repeat;
    var topics := StreamTopics(m);
    SubscribeAdds(s, topics, more, Tickers);
    forall t ensures ExactOn(m, Session(SubscribeAll(s, topics, more)), slice + more, t) {
      assert ExactOn(m, Session(s), slice, t);
      SubscribeAdds(s, topics, more, t);
      Repeated(more, Occurrences(topics, t));
    }
  }

  lemma NothingSubscribed(m: MarketData.Settings)
    ensures forall t :: ExactOn(m, [], [], t)
  {
    forall t ensures ExactOn(m, [], [], t) {
      TopicOccurrences(m, t);
    }
  }

  lemma StreamBatch(c: Config, s: Stream, i: nat, symbols: seq<string>, batch: seq<string>)
    requires c.size > 0 && StreamOk(c, s, i, symbols)
    ensures StreamOk(c, OnNewSymbols(s, StreamTopics(c.market), Slice(symbols + batch, c.size, i, |symbols|)), i, symbols + batch)
  {
    hide Slice, SubscribedOn, StreamTopics, ExactOn;
    SliceGrows(symbols, batch, c.size, i);
    if s.ready {
      ExactGrows(c.market, s, Slice(symbols, c.size, i, 0), Slice(symbols + batch, c.size, i, |symbols|));
    }
  }

  lemma StreamBecomesReady(c: Config, s: Stream, i: nat, symbols: seq<string>)
    requires c.size > 0 && StreamOk(c, s, i, symbols)
    ensures StreamOk(c, MarketData.OnReady(s, StreamTopics(c.market), Slice(symbols, c.size, i, 0)), i, symbols)
  {
    hide Slice, SubscribedOn, StreamTopics, ExactOn;
    var started := s.(ready := true, sessionStart := |s.sent|);
    var slice := Slice(symbols, c.size, i, 0);
    assert Session(started) == [];
    NothingSubscribed(c.market);
    ExactGrows(c.market, started, [], slice);
    assert [] + slice == slice;
  }

  lemma DeliverKeepsStreams(c: Config, g: State, batch: seq<string>)
    requires c.size > 0 && StreamsOk(c, g)
    ensures StreamsOk(c, Deliver(c, g, batch))
  {
    hide StreamOk, Slice, StreamTopics, OnNewSymbols;
    var symbols := g.symbols + batch;
    var count := SliceCount(|symbols|, c.size);
    var created := CreateStreams(FixedStreams(c), g.streams, count);
    SliceCountMonotonic(|g.symbols|, |symbols|, c.size);
    forall i | 0 <= i < |created| ensures StreamOk(c, Deliver(c, g, batch).streams[i], i, symbols) {
      if i >= |g.streams| {
        NewStreamOk(c, i, g.symbols);
      }
      StreamBatch(c, created[i], i, g.symbols, batch);
    }
  }

  lemma NewStreamOk(c: Config, i: nat, symbols: seq<string>)
    requires c.size > 0
    ensures StreamOk(c, Stream(StreamId(FixedStreams(c) + i + 1), i, false, [], 0), i, symbols)
  {
  }

  // ---- Symbols ----

  lemma DeliverKeepsRegistered(c: Config, g: State, items: seq<string>)
    requires c.size > 0 && Registered(g)
    ensures var batch := Fresh(g.all, items);
            && Registered(Deliver(c, g, batch).(all := g.all + Members(items)))
            && Distinct(batch) && Members(batch) !! g.all
  {
    hide Fresh, CreateStreams, OnNewSymbols, Slice, D.OnSymbols;
    var batch := Fresh(g.all, items);
    FreshBatch(g.all, items);
    R.FlattenSnoc(g.batches, batch);
    var symbols := g.symbols + batch;
    assert Members(symbols) == Members(g.symbols) + Members(batch);
    forall i, j | 0 <= i < j < |symbols| ensures symbols[i] != symbols[j] {
      if i < |g.symbols| <= j {
        assert g.symbols[i] in Members(g.symbols) && batch[j - |g.symbols|] in Members(batch);
      } else if |g.symbols| <= i {
        assert batch[i - |g.symbols|] != batch[j - |g.symbols|];
      }
    }
  }

  // ---- Accounts ----

  lemma DeliverKeepsAccounts(c: Config, g: State, batch: seq<string>)
    requires c.size > 0 && AccountsOk(c, g)
    requires Distinct(batch) && Members(batch) !! Members(g.symbols)
    ensures AccountsOk(c, Deliver(c, g, batch))
  {
    hide CreateStreams, OnNewSymbols, Slice, KnowsTradable, Covered, Conserved, Sound, D.OnSymbols;
    var g' := Deliver(c, g, batch);
    assert Members(g'.symbols) == Members(g.symbols) + Members(batch);
    forall a | a in g'.accounts ensures AccountOk(c, g'.accounts[a], a, Members(g.symbols) + Members(batch)) {
      SymbolsKeep(c.account, g.accounts[a], Members(g.symbols), batch);
      SymbolsKeepSound(c.account, g.accounts[a], batch);
    }
  }

  lemma AccountEventKeeps(c: Config, a: D.Account, name: string, all: set<string>, e: AccountRuns.AccountEvent)
    requires AccountOk(c, a, name, all) && AccountRuns.Enabled(c.account, a, e)
    ensures AccountOk(c, AccountRuns.Step(c.account, a, e), name, all)
  {
    hide KnowsTradable, Covered, Conserved, Sound, AccountRuns.Step;
    StepKeeps(c.account, a, all, e);
    StepKeepsSound(c.account, a, e);
  }

  // ---- All runs ----

  ghost predicate Ok(c: Config, g: State)
    requires c.size > 0
  {
    Registered(g) && StreamsOk(c, g) && AccountsOk(c, g)
  }

  lemma StartOk(c: Config)
    requires c.size > 0
    ensures Ok(c, Start(c))
  {
    forall a | a in c.accounts ensures AccountOk(c, D.NewAccount(a), a, {}) {
      NewAccountKeeps(c.account, a);
    }
  }

  lemma NextKeeps(c: Config, g: State, e: Event)
    requires c.size > 0 && Ok(c, g) && CanHappen(c, g, e)
    ensures Ok(c, Next(c, g, e))
  {
    hide Registered, StreamsOk, AccountsOk, Deliver, Fresh, Inserted, CutShort;
    match e
    case ClientSubscribe(items) => BatchKeeps(c, g, items);
    case Instruments(instruments, throwAt) => BatchKeeps(c, g, Inserted(instruments, throwAt));
    case StreamReady(i) => StreamReadyKeeps(c, g, i);
    case StreamDisconnected(i) => StreamDisconnectedKeeps(c, g, i);
    case OnAccount(a, event) => AccountKeeps(c, g, a, event);
  }

  // Whether or not the batch is delivered.
  lemma BatchKeeps(c: Config, g: State, items: seq<string>)
    requires c.size > 0 && Ok(c, g)
    ensures Ok(c, Deliver(c, g, Fresh(g.all, items)).(all := g.all + Members(items)))
    ensures Ok(c, g.(all := g.all + Members(items)))
  {
    hide Registered, StreamsOk, Fresh, Deliver, AccountOk;
    var batch := Fresh(g.all, items);
    DeliverKeepsRegistered(c, g, items);
    DeliverKeepsStreams(c, g, batch);
    RegisteredSubset(g);
    DeliverKeepsAccounts(c, g, batch);
    StreamsIgnoreAll(c, Deliver(c, g, batch), g.all + Members(items));
    StreamsIgnoreAll(c, g, g.all + Members(items));
  }

  lemma RegisteredSubset(g: State)
    requires Registered(g)
    ensures Members(g.symbols) <= g.all
    ensures forall more: set<string> :: Registered(g.(all := g.all + more))
  {
  }

  lemma StreamsIgnoreAll(c: Config, g: State, all: set<string>)
    requires c.size > 0 && StreamsOk(c, g)
    ensures StreamsOk(c, g.(all := all))
  {
  }

  lemma StreamReadyKeeps(c: Config, g: State, i: nat)
    requires c.size > 0 && Ok(c, g) && i < |g.streams|
    ensures Ok(c, g.(streams := g.streams[i := MarketData.OnReady(g.streams[i], StreamTopics(c.market), Slice(g.symbols, c.size, i, 0))]))
  {
    hide StreamOk, StreamTopics, Slice, AccountOk, MarketData.OnReady;
    StreamBecomesReady(c, g.streams[i], i, g.symbols);
  }

  lemma StreamDisconnectedKeeps(c: Config, g: State, i: nat)
    requires c.size > 0 && Ok(c, g) && i < |g.streams|
    ensures Ok(c, g.(streams := g.streams[i := MarketData.OnDisconnected(g.streams[i])]))
  {
    hide StreamTopics, Slice, AccountOk;
    assert StreamOk(c, MarketData.OnDisconnected(g.streams[i]), i, g.symbols);
  }

  lemma AccountKeeps(c: Config, g: State, a: string, e: AccountRuns.AccountEvent)
    requires c.size > 0 && Ok(c, g) && a in g.accounts && AccountRuns.Enabled(c.account, g.accounts[a], e)
    ensures Ok(c, g.(accounts := g.accounts[a := AccountRuns.Step(c.account, g.accounts[a], e)]))
  {
    hide StreamOk, AccountOk, AccountRuns.Step;
    AccountEventKeeps(c, g.accounts[a], a, Members(g.symbols), e);
    StreamsIgnoreAccounts(c, g, g.accounts[a := AccountRuns.Step(c.account, g.accounts[a], e)]);
  }

  lemma StreamsIgnoreAccounts(c: Config, g: State, accounts: map<string, D.Account>)
    requires c.size > 0 && StreamsOk(c, g)
    ensures StreamsOk(c, g.(accounts := accounts))
  {
  }

  lemma {:induction false} RunOk(c: Config, events: seq<Event>)
    requires c.size > 0
    ensures Ok(c, Run(c, events))
  {
    hide Ok, Next, CanHappen;
    if events == [] {
      StartOk(c);
    } else {
      var front, e := events[..|events| - 1], events[|events| - 1];
      RunOk(c, front);
      if CanHappen(c, Run(c, front), e) {
        NextKeeps(c, Run(c, front), e);
      }
    }
  }
}
