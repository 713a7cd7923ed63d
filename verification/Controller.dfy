// The controller object (src/roq/bybit/gateway/controller.cpp): it takes one step of the state machine in Gateway
// by updating its streams one after the other.

module Controller {
  import opened Options
  import opened Symbols
  import opened MarketData
  import opened Gateway
  import D = DropCopy

  // ---- Identifiers of the fixed streams ----

  // `++stream_id` on 16 bits.
  function Increment(id: nat): nat {
    (id + 1) % STREAM_IDS
  }

  lemma Counted(k: nat)
    ensures StreamId(k + 1) == Increment(StreamId(k))
  {
  }

  // The identifiers from the one after `used` on.
  function Identifiers(used: nat, count: nat): (r: seq<nat>)
    ensures |r| == count
  {
    seq<nat>(count, i requires 0 <= i < count => StreamId(used + i + 1))
  }

  // One stream per account, in the order of the map, takes the next identifier of the counter.
  method NumberStreams(accounts: seq<string>, counter: nat, ghost used: nat) returns (ids: seq<nat>, next: nat)
    requires counter == StreamId(used)
    ensures ids == Identifiers(used, |accounts|) && next == StreamId(used + |accounts|)
  {
    hide StreamId, Increment;
    ids, next := [], counter;
    for i := 0 to |accounts|
      invariant ids == Identifiers(used, i) && next == StreamId(used + i)
    {
      Counted(used + i);
      next := Increment(next);
      ids := ids + [next];
    }
  }

  /** The streams created with the controller: instruments, REST orders, WebSocket orders when there are any, and the
      private ones.  Together they take the first identifiers, each the next one, and the counter is left at the
      last. */
  method NumberFixedStreams(accounts: seq<string>, wsApi: bool)
    returns (rest: nat, orderRest: seq<nat>, orderWs: seq<nat>, dropCopy: seq<nat>, counter: nat)
    ensures |orderRest| == |dropCopy| == |accounts| && |orderWs| == (if wsApi then |accounts| else 0)
    ensures var ids := [rest] + orderRest + orderWs + dropCopy;
            ids == Identifiers(0, |ids|) && counter == ids[|ids| - 1]
  {
    hide StreamId;
    Counted(0);
    ZeroUsed();
    rest := Increment(0);
    counter := rest;
    ghost var used := 1;
    orderRest, counter := NumberStreams(accounts, counter, used);
    used := used + |orderRest|;
    orderWs := [];
    if wsApi {
      orderWs, counter := NumberStreams(accounts, counter, used);
    }
    used := used + |orderWs|;
    dropCopy, counter := NumberStreams(accounts, counter, used);
  }

  lemma ZeroUsed()
    ensures StreamId(0) == 0
  {
  }

  /** The fixed streams of a configuration are as many, so the streams of the state machine are numbered on. */
  lemma FixedStreamsCounted(c: Config, accounts: seq<string>, orderWs: nat)
    requires |accounts| == |c.accounts| && orderWs == if c.account.wsApi then |accounts| else 0
    ensures FixedStreams(c) == 1 + |accounts| + orderWs + |accounts|
  {
  }

  class Controller {
    const config: Config
    const registry: Registry
    const slices: SymbolSlices
    const dropCopy: map<string, D.DropCopyStream>
    var streamId: nat
    var marketData: seq<MarketDataStream>

    ghost function Streams(): set<MarketDataStream>
      reads this
    {
      set m | m in marketData
    }

    ghost function PrivateStreams(): set<D.DropCopyStream> {
      set a | a in dropCopy :: dropCopy[a]
    }

    ghost function Queues(): set<D.AccountQueue> {
      set a | a in dropCopy :: dropCopy[a].account
    }

    ghost function StreamViews(): (r: seq<Stream>)
      reads this, Streams()
      ensures |r| == |marketData|
    {
      seq(|marketData|, i requires 0 <= i < |marketData| reads this, Streams() => marketData[i].View())
    }

    ghost function AccountViews(): (r: map<string, D.Account>)
      reads PrivateStreams(), Queues()
      ensures r.Keys == dropCopy.Keys
    {
      map a | a in dropCopy :: dropCopy[a].View()
    }

    ghost function View(): State
      reads this, registry, slices, Streams(), PrivateStreams(), Queues()
    {
      State(registry.allSymbols, slices.batches, slices.symbols, StreamViews(), AccountViews())
    }

    ghost predicate SeparateAccounts() {
      && (forall a | a in dropCopy :: dropCopy[a].settings == config.account && dropCopy[a].account.name == a)
      && (forall a, b | a in dropCopy && b in dropCopy && a != b ::
            dropCopy[a] != dropCopy[b] && dropCopy[a].account != dropCopy[b].account)
    }

    ghost predicate ValidStream(i: nat)
      requires i < |marketData|
      reads this, marketData[i]
    {
      var m := marketData[i];
      m.Valid() && m.shared == slices && m.settings == config.market && m.index == i
    }

    ghost predicate Valid()
      reads this, Streams()
    {
      && slices.size == config.size > 0
      && streamId == StreamId(FixedStreams(config) + |marketData|)
      && (forall i, j | 0 <= i < j < |marketData| :: marketData[i] != marketData[j])
      && (forall i | 0 <= i < |marketData| :: ValidStream(i))
      && SeparateAccounts()
    }

    // The instrument, order entry and private streams have already taken their identifiers.
    constructor (config: Config, registry: Registry, slices: SymbolSlices, dropCopy: map<string, D.DropCopyStream>)
      requires slices.size == config.size > 0 && slices.symbols == [] && slices.batches == [] && registry.allSymbols == {}
      requires dropCopy.Keys == config.accounts
      requires forall a | a in dropCopy ::
                 dropCopy[a].settings == config.account && dropCopy[a].account.name == a && dropCopy[a].View() == D.NewAccount(a)
      requires forall a, b | a in dropCopy && b in dropCopy && a != b ::
                 dropCopy[a] != dropCopy[b] && dropCopy[a].account != dropCopy[b].account
      ensures Valid() && View() == Start(config)
    {
      hide FixedStreams, StreamId, D.DropCopyStream.View;
      this.config, this.registry, this.slices, this.dropCopy := config, registry, slices, dropCopy;
      streamId, marketData := StreamId(FixedStreams(config)), [];
    }

    method CreateStream()
      requires Valid()
      modifies this`streamId, this`marketData
      ensures Valid() && AccountViews() == old(AccountViews())
      ensures |marketData| == |old(marketData)| + 1 && old(marketData) <= marketData && fresh(marketData[|old(marketData)|])
      ensures StreamViews() == old(StreamViews())
                + [Stream(StreamId(FixedStreams(config) + |marketData|), |old(marketData)|, false, [], 0)]
    {
      hide FixedStreams, MarketDataStream.Valid, MarketDataStream.View, D.DropCopyStream.View;
      streamId := (streamId + 1) % STREAM_IDS;
      var m := new MarketDataStream(streamId, |marketData|, config.market, slices);
      ghost var before := marketData;
      marketData := marketData + [m];
      forall i | 0 <= i < |before| ensures ValidStream(i) {
        assert old(ValidStream(i));
        assert marketData[i] == before[i] && old(before[i].Valid());
      }
    }

    /** More streams, until there are as many as slices. */
    method EnsureSymbolSlices(size: nat)
      requires Valid()
      modifies this`streamId, this`marketData
      ensures Valid() && AccountViews() == old(AccountViews())
      ensures |marketData| >= size && old(marketData) <= marketData
      ensures forall m | m in marketData && m !in old(marketData) :: fresh(m)
      ensures StreamViews() == CreateStreams(FixedStreams(config), old(StreamViews()), size)
    {
      hide Valid, StreamViews, AccountViews, FixedStreams, StreamId;
      while |marketData| < size
        invariant Valid() && AccountViews() == old(AccountViews())
        invariant old(marketData) <= marketData && (|marketData| == |old(marketData)| || |marketData| <= size)
        invariant forall m | m in marketData && m !in old(marketData) :: fresh(m)
        invariant CreateStreams(FixedStreams(config), StreamViews(), size) == CreateStreams(FixedStreams(config), old(StreamViews()), size)
        decreases size - |marketData|
      {
        CreateStream();
      }
    }

    // Every stream subscribes to the new symbols of its slice.
    method SubscribeStreams(startFrom: nat)
      requires Valid()
      modifies Streams()
      ensures Valid() && AccountViews() == old(AccountViews())
      ensures forall i | 0 <= i < |marketData| ::
                marketData[i].View() == OnNewSymbols(old(marketData[i].View()), StreamTopics(config.market),
                                                     Slice(slices.symbols, config.size, i, startFrom))
    {
      hide OnNewSymbols, Slice, StreamTopics, MarketDataStream.View, MarketDataStream.Valid, D.DropCopyStream.View;
      for n := 0 to |marketData|
        invariant Valid() && AccountViews() == old(AccountViews())
        invariant forall i | 0 <= i < n ::
                    marketData[i].View() == OnNewSymbols(old(marketData[i].View()), StreamTopics(config.market),
                                                         Slice(slices.symbols, config.size, i, startFrom))
        invariant forall i | n <= i < |marketData| :: marketData[i].View() == old(marketData[i].View())
      {
        assert ValidStream(n);
        marketData[n].SubscribeFrom(startFrom);
      }
    }

    method UpdateAccount(name: string, batch: seq<string>)
      requires Valid() && name in dropCopy
      modifies dropCopy[name], dropCopy[name].account
      ensures Valid() && StreamViews() == old(StreamViews())
      ensures AccountViews() == old(AccountViews())[name := D.OnSymbols(config.account, old(AccountViews())[name], batch)]
    {
      hide D.OnSymbols, D.OnSymbol, D.DropCopyStream.View, MarketDataStream.View, MarketDataStream.Valid;
      dropCopy[name].SymbolsUpdate(batch);
    }

    // The accounts are visited in the order of the map, which is not specified.
    method UpdateAccounts(batch: seq<string>)
      requires Valid()
      modifies PrivateStreams(), Queues()
      ensures Valid() && StreamViews() == old(StreamViews())
      ensures AccountViews() == map a | a in dropCopy :: D.OnSymbols(config.account, old(AccountViews())[a], batch)
    {
      hide D.OnSymbols, StreamViews, AccountViews, Valid;
      ghost var before := AccountViews();
      var todo := dropCopy.Keys;
      while todo != {}
        invariant todo <= dropCopy.Keys
        invariant Valid() && StreamViews() == old(StreamViews())
        invariant AccountViews() == map a | a in dropCopy :: if a in todo then before[a] else D.OnSymbols(config.account, before[a], batch)
        decreases |todo|
      {
        var name :| name in todo;
        UpdateAccount(name, batch);
        todo := todo - {name};
      }
    }

    // The public half of an update.
    method UpdateStreams(batch: seq<string>)
      requires Valid()
      modifies this`streamId, this`marketData, slices, Streams()
      ensures Valid() && AccountViews() == old(AccountViews())
      ensures slices.symbols == old(slices.symbols) + batch && slices.batches == old(slices.batches) + [batch]
      ensures StreamViews() == DeliveredStreams(config, old(StreamViews()), old(slices.symbols), batch)
      ensures forall m | m in marketData && m !in old(marketData) :: fresh(m)
    {
      hide OnNewSymbols, Slice, StreamTopics, SliceCount, FixedStreams, StreamId;
      hide MarketDataStream.View, MarketDataStream.Valid, D.DropCopyStream.View;
      var size, startFrom := slices.Append(batch);
      EnsureSymbolSlices(size);
      SubscribeStreams(startFrom);
    }

    /** A batch of new symbols, from either producer. */
    method SymbolsUpdate(batch: seq<string>)
      requires Valid()
      modifies this`streamId, this`marketData, slices, Streams(), PrivateStreams(), Queues()
      ensures Valid()
      ensures View() == Deliver(config, old(View()), batch)
      ensures forall m | m in marketData && m !in old(marketData) :: fresh(m)
    {
      hide DeliveredStreams, D.OnSymbols, StreamViews, AccountViews, Valid, PrivateStreams, Queues;
      UpdateStreams(batch);
      UpdateAccounts(batch);
    }

    method Register(items: seq<string>) returns (symbols: seq<string>)
      requires Valid()
      modifies registry
      ensures Valid() && symbols == Fresh(old(registry.allSymbols), items)
      ensures View() == old(View()).(all := old(registry.allSymbols) + Members(items))
    {
      hide MarketDataStream.View, D.DropCopyStream.View, Fresh, MarketDataStream.Valid;
      symbols := registry.OnSubscribe(items);
    }

    method RegisterInstruments(instruments: seq<Instrument>, throwAt: Option<nat>) returns (symbols: seq<string>, thrown: bool)
      requires Valid()
      modifies registry
      ensures Valid() && thrown == CutShort(instruments, throwAt)
      ensures symbols == Fresh(old(registry.allSymbols), Inserted(instruments, throwAt))
      ensures View() == old(View()).(all := old(registry.allSymbols) + Members(Inserted(instruments, throwAt)))
    {
      hide MarketDataStream.View, D.DropCopyStream.View, Fresh, Inserted, CutShort, MarketDataStream.Valid;
      var statuses;
      symbols, statuses, thrown := registry.OnInstruments(instruments, throwAt);
    }

    /** A client subscribes; an update is sent even when nothing is new. */
    method Subscribe(items: seq<string>)
      requires Valid()
      modifies this`streamId, this`marketData, registry, slices, Streams(), PrivateStreams(), Queues()
      ensures Valid() && View() == OnClientSubscribe(config, old(View()), items)
    {
      hide DeliveredStreams, D.OnSymbols, StreamViews, AccountViews, Fresh, Valid;
      var symbols := Register(items);
      SymbolsUpdate(symbols);
    }

    /** An instrument download; an update is sent when something is new and the dispatcher did not throw. */
    method Instruments(instruments: seq<Instrument>, throwAt: Option<nat>) returns (thrown: bool)
      requires Valid()
      modifies this`streamId, this`marketData, registry, slices, Streams(), PrivateStreams(), Queues()
      ensures Valid() && View() == OnInstruments(config, old(View()), instruments, throwAt)
      ensures thrown == CutShort(instruments, throwAt)
    {
      hide DeliveredStreams, D.OnSymbols, StreamViews, AccountViews, Fresh, Inserted, CutShort, Valid;
      var symbols;
      symbols, thrown := RegisterInstruments(instruments, throwAt);
      if thrown {
        return;
      }
      if symbols != [] {
        SymbolsUpdate(symbols);
      }
    }
  }
}
