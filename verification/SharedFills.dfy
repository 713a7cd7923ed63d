// What the execution handlers promise, one call at a time and over any interleaving of calls by any account.

module SharedFills {
  import opened Options
  import opened Runs
  import opened Executions

  function RunsFound(found: seq<Fill>, items: seq<Item>): (r: seq<seq<Entry>>)
    ensures forall i | 0 <= i < |r| :: r[i] != []
  {
    RunsOf(Entries(found, items), KeyOf)
  }

  function FillLists(updates: seq<TradeUpdate>): (r: seq<seq<Fill>>)
    ensures |r| == |updates|
  {
    seq(|updates|, i requires 0 <= i < |updates| => updates[i].fills)
  }

  function OwnFills(source: Source, items: seq<Item>): (r: seq<Fill>)
    ensures |r| == |items|
  {
    seq(|items|, i requires 0 <= i < |items| => FillOf(source, items[i]))
  }

  lemma {:induction false} FlattenFills(h: Handler, runs: seq<seq<Entry>>)
    requires forall i | 0 <= i < |runs| :: runs[i] != []
    ensures Flatten(FillLists(UpdatesOf(h, runs))) == FillsOf(h.source, Flatten(runs))
  {
    if runs != [] {
      var n := |runs| - 1;
      FlattenFills(h, runs[..n]);
      assert FillLists(UpdatesOf(h, runs))[..n] == FillLists(UpdatesOf(h, runs[..n]));
      assert FillLists(UpdatesOf(h, runs))[n] == FillsOf(h.source, runs[n]);
    }
  }

  /** Fills are conserved in order: what the updates of one call carry is what was found in the buffer followed by
      the call's own fills. */
  lemma FillsConserved(h: Handler, found: seq<Fill>, items: seq<Item>)
    ensures Flatten(FillLists(UpdatesOf(h, RunsFound(found, items)))) == found + OwnFills(h.source, items)
  {
    hide RunsOf, UpdatesOf, IsMaximal, Flatten, FillLists;
    var entries := Entries(found, items);
    RunsOfIsMaximal(entries, KeyOf);
    FlattenFills(h, RunsFound(found, items));
    assert FillsOf(h.source, entries) == found + OwnFills(h.source, items);
  }

  /** What the exchange says of an execution is what its fill says: over the updates of one call, the fills after those
      found carry, item by item, its id, quantity, price, fee, fee currency and liquidity, and its time exactly when
      it was downloaded. */
  lemma FieldsConserved(h: Handler, found: seq<Fill>, items: seq<Item>)
    ensures var fills := Flatten(FillLists(UpdatesOf(h, RunsFound(found, items))));
            && |fills| == |found| + |items|
            && fills[..|found|] == found
            && forall i | 0 <= i < |items| ::
                 var fill := fills[|found| + i];
                 && fill.tradeId == items[i].execId
                 && fill.quantity == items[i].execQty && fill.price == items[i].execPrice
                 && fill.commission == items[i].execFee && fill.currency == items[i].feeCurrency
                 && fill.isMaker == items[i].isMaker
                 && fill.exchangeTime == if h.source == Rest then Some(items[i].execTime) else None
  {
    hide RunsOf, Flatten, UpdatesOf, FillLists;
    FillsConserved(h, found, items);
  }

  function TotalFilled(fills: seq<Fill>): int {
    if fills == [] then 0 else TotalFilled(fills[..|fills| - 1]) + fills[|fills| - 1].quantity
  }

  function TotalExecuted(items: seq<Item>): int {
    if items == [] then 0 else TotalExecuted(items[..|items| - 1]) + items[|items| - 1].execQty
  }

  lemma {:induction false} TotalConcat(a: seq<Fill>, b: seq<Fill>)
    ensures TotalFilled(a + b) == TotalFilled(a) + TotalFilled(b)
  {
    if b == [] {
      assert a + b == a;
    } else {
      assert (a + b)[..|a + b| - 1] == a + b[..|b| - 1];
      TotalConcat(a, b[..|b| - 1]);
    }
  }

  lemma {:induction false} TotalOwn(source: Source, items: seq<Item>)
    ensures TotalFilled(OwnFills(source, items)) == TotalExecuted(items)
  {
    if items != [] {
      TotalOwn(source, items[..|items| - 1]);
      assert OwnFills(source, items)[..|items| - 1] == OwnFills(source, items[..|items| - 1]);
    }
  }

  /** The quantity reported by one call is what was found in the buffer and what the exchange executed. */
  lemma QuantityConserved(h: Handler, found: seq<Fill>, items: seq<Item>)
    ensures TotalFilled(Flatten(FillLists(UpdatesOf(h, RunsFound(found, items))))) == TotalFilled(found) + TotalExecuted(items)
  {
    hide TotalFilled, TotalExecuted, RunsOf, Flatten, UpdatesOf, FillLists, OwnFills;
    FillsConserved(h, found, items);
    TotalConcat(found, OwnFills(h.source, items));
    TotalOwn(h.source, items);
  }

  function OrderIdOf(item: Item): string {
    item.orderId
  }

  function PartsOf(items: seq<Item>): (r: seq<seq<Item>>)
    ensures forall i | 0 <= i < |r| :: r[i] != []
  {
    RunsOf(items, OrderIdOf)
  }

  function AsEntries(items: seq<Item>): (r: seq<Entry>)
    ensures |r| == |items|
  {
    seq(|items|, i requires 0 <= i < |items| => Fresh(items[i]))
  }

  function AllEntries(parts: seq<seq<Item>>): (r: seq<seq<Entry>>)
    ensures |r| == |parts|
  {
    seq(|parts|, i requires 0 <= i < |parts| => AsEntries(parts[i]))
  }

  lemma ExtendedEntries(parts: seq<seq<Item>>, item: Item)
    requires forall i | 0 <= i < |parts| :: parts[i] != []
    requires forall i | 0 <= i < |parts| :: AllEntries(parts)[i] != []
    ensures AllEntries(Extended(parts, item, OrderIdOf)) == Extended(AllEntries(parts), Fresh(item), KeyOf)
  {
    var n := |parts|;
    if n > 0 && parts[n - 1][0].orderId == item.orderId {
      assert AsEntries(parts[n - 1] + [item]) == AsEntries(parts[n - 1]) + [Fresh(item)];
      assert AllEntries(parts)[..n - 1] == AllEntries(parts[..n - 1]);
    } else {
      assert AsEntries([item]) == [Fresh(item)];
    }
  }

  // With nothing in the buffer, the runs a handler sees are the runs of its items.
  lemma {:induction false} RunsWithoutFound(items: seq<Item>)
    ensures RunsFound([], items) == AllEntries(PartsOf(items))
  {
    assert Entries([], items) == AsEntries(items);
    if items != [] {
      var front, item := items[..|items| - 1], items[|items| - 1];
      RunsWithoutFound(front);
      assert Entries([], front) == AsEntries(front);
      assert AsEntries(items) == AsEntries(front) + [Fresh(item)];
      ExtendedEntries(PartsOf(front), item);
    }
  }

  lemma UpdateOfPart(h: Handler, part: seq<Item>, first: bool)
    requires part != []
    ensures UpdateOf(h, AsEntries(part), first)
         == TradeUpdate(h.streamId, h.account, h.source,
                        if first && part[0].orderId == "" then NO_HEADER else HeaderOf(part[0]),
                        OwnFills(h.source, part))
  {
  }

  /** On an empty buffer, a call emits one update per maximal run of equal order id, in order: each update carries
      the fills of its run and the run's order id, so neighbours differ.  Every header is that of its run's first
      item exactly when the list does not start with an empty order id (or with an item that is as blank as the
      initial header). */
  lemma ExecutionGrouping(h: Handler, items: seq<Item>)
    ensures var parts := PartsOf(items);
            var updates := UpdatesOf(h, RunsFound([], items));
            && Flatten(parts) == items && IsMaximal(parts, OrderIdOf)
            && |updates| == |parts|
            && (forall i | 0 <= i < |parts| ::
                  && updates[i].fills == OwnFills(h.source, parts[i]) != []
                  && updates[i].header.orderId == parts[i][0].orderId
                  && updates[i].account == h.account && updates[i].streamId == h.streamId && updates[i].source == h.source)
            && (forall i | 0 < i < |parts| :: updates[i].header == HeaderOf(parts[i][0]))
            && ((forall i | 0 <= i < |parts| :: updates[i].header == HeaderOf(parts[i][0]))
                <==> items == [] || items[0].orderId != "" || HeaderOf(items[0]) == NO_HEADER)
  {
    hide RunsOf, IsMaximal, Flatten, OwnFills, FillOf, UpdateOf;
    var parts: seq<seq<Item>> := PartsOf(items);
    var updates := UpdatesOf(h, RunsFound([], items));
    RunsOfIsMaximal(items, OrderIdOf);
    RunsWithoutFound(items);
    forall i: int | 0 <= i < |parts|
      ensures updates[i]
           == TradeUpdate(h.streamId, h.account, h.source,
                          if i == 0 && parts[i][0].orderId == "" then NO_HEADER else HeaderOf(parts[i][0]),
                          OwnFills(h.source, parts[i]))
    {
      assert updates[i] == UpdateOf(h, AsEntries(parts[i]), i == 0);
      UpdateOfPart(h, parts[i], i == 0);
    }
    if items != [] {
      FirstOfFlatten(parts);
      assert parts[0][0] == items[0];
    }
  }

  /** The header of each update is made of the fields of its run's first item; only the first may be blank. */
  lemma HeaderFields(h: Handler, items: seq<Item>, i: nat)
    requires i < |PartsOf(items)|
    ensures var updates := UpdatesOf(h, RunsFound([], items));
            var item := PartsOf(items)[i][0];
            && |updates| == |PartsOf(items)|
            && var header := updates[i].header;
               if i == 0 && items != [] && items[0].orderId == "" then
                 header.orderId == header.orderLinkId == header.symbol == "" && header.side.Undefined? && header.execTime == 0
               else
                 && header.orderId == item.orderId && header.orderLinkId == item.orderLinkId
                 && header.symbol == item.symbol && header.side == item.side && header.execTime == item.execTime
  {
    hide RunsOf, OwnFills, FillOf;
    var parts := PartsOf(items);
    RunsOfIsMaximal(items, OrderIdOf);
    RunsWithoutFound(items);
    UpdateOfPart(h, parts[i], i == 0);
    FirstOfFlatten(parts);
    assert UpdatesOf(h, RunsFound([], items))[i] == UpdateOf(h, AsEntries(parts[i]), i == 0);
  }

  lemma {:induction false} FirstOfFlatten<T>(runs: seq<seq<T>>)
    requires runs != [] && runs[0] != []
    ensures Flatten(runs) != [] && Flatten(runs)[0] == runs[0][0]
  {
    if |runs| > 1 {
      FirstOfFlatten(runs[..|runs| - 1]);
    } else {
      assert Flatten(runs[..0]) == [];
    }
  }

  // ---- Any interleaving of handler calls ----

  // An exception of the private stream's handler ends the process; one of the REST handler is caught and logged.
  datatype World = World(fills: seq<Fill>, updates: seq<TradeUpdate>, ended: bool)

  datatype Call = Call(handler: Handler, items: seq<Item>, throwAt: Option<nat>)

  predicate Throws(w: World, c: Call) {
    c.throwAt.Some? && c.throwAt.value < |RunsFound(w.fills, c.items)|
  }

  // The contract of ExecutionHandler.OnExecutions, as a function.
  function Handle(w: World, c: Call): World {
    var runs := RunsFound(w.fills, c.items);
    if w.ended then w
    else if Throws(w, c) then
      World(FillsOf(c.handler.source, runs[c.throwAt.value]), w.updates + UpdatesOf(c.handler, runs)[..c.throwAt.value],
            c.handler.source.WebSocket?)
    else
      World([], w.updates + UpdatesOf(c.handler, runs), false)
  }

  method HandleCall(e: ExecutionHandler, items: seq<Item>, throwAt: Option<nat>) returns (ended: bool)
    modifies e.shared, e.dispatcher
    ensures World(e.shared.fills, e.dispatcher.updates, ended)
         == Handle(old(World(e.shared.fills, e.dispatcher.updates, false)), Call(e.handler, items, throwAt))
  {
    hide RunsOf;
    var thrown := e.OnExecutions(items, throwAt);
    ended := thrown && e.handler.source.WebSocket?;
  }

  function Run(w: World, calls: seq<Call>): World {
    if calls == [] then w else Handle(Run(w, calls[..|calls| - 1]), calls[|calls| - 1])
  }

  const START := World([], [], false)

  /** While the process lives, the shared buffer holds something between two calls exactly when the earlier one was a
      REST call at which the dispatcher threw; and the process ends exactly at a private stream's call that throws. */
  lemma BufferEmptyBetweenCalls(calls: seq<Call>, c: Call)
    ensures var before, after := Run(START, calls), Run(START, calls + [c]);
            && Run(START, []).fills == []
            && (!after.ended ==> (after.fills != [] <==> c.handler.source.Rest? && Throws(before, c)))
            && (after.ended <==> before.ended || (c.handler.source.WebSocket? && Throws(before, c)))
  {
    hide RunsOf, UpdatesOf;
    assert (calls + [c])[..|calls|] == calls;
    if Throws(Run(START, calls), c) {
      assert RunsFound(Run(START, calls).fills, c.items)[c.throwAt.value] != [];
    }
  }

  function OwnUpdates(c: Call): seq<TradeUpdate> {
    UpdatesOf(c.handler, RunsFound([], c.items))
  }

  function AllOwnUpdates(calls: seq<Call>): seq<TradeUpdate> {
    if calls == [] then [] else AllOwnUpdates(calls[..|calls| - 1]) + OwnUpdates(calls[|calls| - 1])
  }

  lemma QuietCall(updates: seq<TradeUpdate>, c: Call)
    requires !Throws(World([], updates, false), c)
    ensures Handle(World([], updates, false), c) == World([], updates + OwnUpdates(c), false)
  {
    hide RunsOf, UpdatesOf;
  }

  /** While no dispatch throws, every update of every interleaving is one that its own call would have produced
      alone: no fill is reported under another account or another order. */
  lemma {:induction false} CallsDoNotInterfere(calls: seq<Call>)
    requires forall n | 0 <= n < |calls| :: !Throws(Run(START, calls[..n]), calls[n])
    ensures Run(START, calls) == World([], AllOwnUpdates(calls), false)
  {
    if calls != [] {
      hide Handle, Throws, OwnUpdates;
      var k := |calls| - 1;
      var front := calls[..k];
      assert forall n | 0 <= n < k :: front[..n] == calls[..n];
      CallsDoNotInterfere(front);
      QuietCall(AllOwnUpdates(front), calls[k]);
    }
  }

  // ---- Fills left behind ----

  // The runs that one call emits: all of them, or those before the throw.
  function EmittedRuns(w: World, c: Call): (r: seq<seq<Entry>>)
    ensures forall i | 0 <= i < |r| :: r[i] != []
  {
    var runs := RunsFound(w.fills, c.items);
    if Throws(w, c) then runs[..c.throwAt.value] else runs
  }

  // Nothing the call emits was found in the buffer.
  ghost predicate OnlyOwn(w: World, c: Call) {
    forall e | e in Flatten(EmittedRuns(w, c)) :: e.Fresh?
  }

  lemma {:induction false} FlattenPrefix<T>(runs: seq<seq<T>>, k: nat)
    requires k <= |runs|
    ensures Flatten(runs[..k]) <= Flatten(runs)
  {
    if k == |runs| {
      assert runs[..k] == runs;
    } else {
      var front := runs[..|runs| - 1];
      assert front[..k] == runs[..k];
      FlattenPrefix(front, k);
      assert Flatten(front) <= Flatten(runs);
    }
  }

  lemma EmittedEntries(w: World, c: Call)
    ensures var emitted := Flatten(EmittedRuns(w, c));
            && emitted <= Entries(w.fills, c.items)
            && (!Throws(w, c) ==> emitted == Entries(w.fills, c.items))
            && (EmittedRuns(w, c) != [] ==> |w.fills| <= |emitted| && emitted != [])
  {
    hide RunsOf, IsMaximal, Entries;
    var runs := RunsFound(w.fills, c.items);
    RunsOfIsMaximal(Entries(w.fills, c.items), KeyOf);
    FlattenPrefix(runs, |EmittedRuns(w, c)|);
    assert EmittedRuns(w, c) == runs[..|EmittedRuns(w, c)|];
    if EmittedRuns(w, c) != [] {
      FirstOfFlatten(EmittedRuns(w, c));
      if w.fills != [] {
        FirstRun(w.fills, c.items, c.handler.source);
        FlattenPrefix(EmittedRuns(w, c), 1);
        assert EmittedRuns(w, c)[..1] == [runs[0]];
        FlattenOne(runs[0]);
      }
    }
  }

  lemma FlattenOne<T>(run: seq<T>)
    ensures Flatten([run]) == run
  {
    assert [run][..0] == [] && Flatten<T>([]) + run == run;
  }

  lemma EmittedUpdates(w: World, c: Call)
    requires !w.ended
    ensures Handle(w, c).updates == w.updates + UpdatesOf(c.handler, EmittedRuns(w, c))
    ensures Flatten(FillLists(UpdatesOf(c.handler, EmittedRuns(w, c)))) == FillsOf(c.handler.source, Flatten(EmittedRuns(w, c)))
  {
    FlattenFills(c.handler, EmittedRuns(w, c));
    hide RunsOf, Flatten, RunHeader, FillsOf;
    var runs := RunsFound(w.fills, c.items);
    if Throws(w, c) {
      assert UpdatesOf(c.handler, runs)[..c.throwAt.value] == UpdatesOf(c.handler, runs[..c.throwAt.value]);
    }
  }

  // A stretch of what a handler sees, as fills.
  lemma FillsOfStretch(found: seq<Fill>, items: seq<Item>, source: Source, n: nat)
    requires |found| <= n <= |found| + |items|
    ensures FillsOf(source, Entries(found, items)[..n]) == found + OwnFills(source, items)[..n - |found|]
  {
  }

  /** A REST dispatch that throws is caught and only logged, and then fills go astray.  Over any run, let a call be
      made while the process lives, whether or not it throws itself.  Unless it throws at its very first update, what
      it emits is what was left in the buffer and then its own fills, as far as it got; the fills left behind come
      first, under its own account and without any order.  So it emits only its own fills exactly when it emits
      nothing, or the call before it was not a REST call at which the dispatcher threw. */
  lemma LeftoverFillsAreMisattributed(calls: seq<Call>, c: Call)
    requires !Run(START, calls).ended
    ensures var w := Run(START, calls);
            var emitted := Handle(w, c).updates[|w.updates|..];
            && w.updates <= Handle(w, c).updates
            && (emitted != [] ==>
                  exists m | 0 <= m <= |c.items| ::
                    && Flatten(FillLists(emitted)) == w.fills + OwnFills(c.handler.source, c.items)[..m]
                    && (!Throws(w, c) ==> m == |c.items|))
            && (emitted != [] && w.fills != [] ==>
                  emitted[0].account == c.handler.account && emitted[0].header == NO_HEADER && w.fills <= emitted[0].fills)
            && (OnlyOwn(w, c)
                <==> || emitted == [] || calls == []
                     || !(calls[|calls| - 1].handler.source.Rest? && Throws(Run(START, calls[..|calls| - 1]), calls[|calls| - 1])))
  {
    hide RunsOf, Flatten, RunHeader, Entries, FillsOf, OwnFills, Throws, UpdatesOf, FillLists, Handle, Run;
    var w := Run(START, calls);
    var runs := EmittedRuns(w, c);
    EmittedEntries(w, c);
    EmittedUpdates(w, c);
    var n := |Flatten(runs)|;
    assert Handle(w, c).updates[|w.updates|..] == UpdatesOf(c.handler, runs);
    if runs != [] {
      assert Flatten(runs) == Entries(w.fills, c.items)[..n];
      FillsOfStretch(w.fills, c.items, c.handler.source, n);
      assert 0 <= n - |w.fills| <= |c.items|;
      if w.fills != [] {
        FirstUpdate(w, c);
      }
    }
    OwnExactly(w, c);
    FilledAfterThrow(calls);
  }

  lemma FirstUpdate(w: World, c: Call)
    requires w.fills != [] && EmittedRuns(w, c) != []
    ensures var first := UpdatesOf(c.handler, EmittedRuns(w, c))[0];
            first.account == c.handler.account && first.header == NO_HEADER && w.fills <= first.fills
  {
    StaleFirst(w.fills, c.items);
    FirstRun(w.fills, c.items, c.handler.source);
    hide RunsOf, FillsOf;
  }

  lemma OwnExactly(w: World, c: Call)
    ensures OnlyOwn(w, c) <==> EmittedRuns(w, c) == [] || w.fills == []
  {
    EmittedEntries(w, c);
    var entries, emitted := Entries(w.fills, c.items), Flatten(EmittedRuns(w, c));
    assert forall i | 0 <= i < |emitted| :: emitted[i] == entries[i];
    if EmittedRuns(w, c) == [] {
      assert emitted == [];
    } else if w.fills != [] {
      assert emitted[0] == Stale(w.fills[0]);
      assert emitted[0] in emitted;
    }
  }

  lemma FilledAfterThrow(calls: seq<Call>)
    requires !Run(START, calls).ended
    ensures Run(START, calls).fills != []
       <==> && calls != []
            && calls[|calls| - 1].handler.source.Rest? && Throws(Run(START, calls[..|calls| - 1]), calls[|calls| - 1])
  {
    hide Handle, Throws;
    if calls != [] {
      var front, last := calls[..|calls| - 1], calls[|calls| - 1];
      assert calls == front + [last];
      BufferEmptyBetweenCalls(front, last);
    } else {
      assert Run(START, calls) == START;
    }
  }

  // The first call of the witness below leaves its fill, the second reports it.
  lemma FillLeft(item: Item)
    ensures Handle(START, Call(Handler(1, "A", Rest), [item], Some(0))) == World([FillOf(Rest, item)], [], false)
  {
    assert Entries([], [item]) == [Fresh(item)];
    assert RunsFound([], [item]) == [[Fresh(item)]] by {
      assert [Fresh(item)][..0] == [];
    }
    hide RunsOf, FillOf;
    assert FillsOf(Rest, [Fresh(item)]) == [FillOf(Rest, item)];
  }

  lemma FillReported(fill: Fill)
    ensures Handle(World([fill], [], false), Call(Handler(2, "B", Rest), [], None))
         == World([], [TradeUpdate(2, "B", Rest, NO_HEADER, [fill])], false)
  {
    assert Entries([fill], []) == [Stale(fill)];
    OneRun([Stale(fill)]);
    hide RunsOf;
    assert FillsOf(Rest, [Stale(fill)]) == [fill];
    assert RunsFound([fill], []) == [[Stale(fill)]];
  }

  /** It happens: the dispatcher throws at the only fill of account A, and account B's next download reports it. */
  lemma FillUnderAnotherAccount(item: Item)
    ensures var a := Call(Handler(1, "A", Rest), [item], Some(0));
            var b := Call(Handler(2, "B", Rest), [], None);
            Run(START, [a, b]).updates == [TradeUpdate(2, "B", Rest, NO_HEADER, [FillOf(Rest, item)])]
  {
    hide Handle, FillOf;
    var a := Call(Handler(1, "A", Rest), [item], Some(0));
    var b := Call(Handler(2, "B", Rest), [], None);
    FillLeft(item);
    FillReported(FillOf(Rest, item));
    assert [a, b][..1] == [a] && [a][..0] == [];
    assert Run(START, []) == START;
    assert Run(START, [a]) == Handle(START, a);
  }

  lemma StaleFirst(found: seq<Fill>, items: seq<Item>)
    requires found != []
    ensures RunsFound(found, items) != [] && RunsFound(found, items)[0][0] == Stale(found[0])
  {
    var entries := Entries(found, items);
    RunsOfIsMaximal(entries, KeyOf);
    FirstOfFlatten(RunsFound(found, items));
  }

  lemma FirstRun(found: seq<Fill>, items: seq<Item>, source: Source)
    requires found != []
    ensures RunsFound(found, items) != []
    ensures found <= FillsOf(source, RunsFound(found, items)[0])
  {
    hide RunsOf;
    var entries := Entries(found, items);
    var stale := entries[..|found|];
    OneRun(stale);
    FirstRunPrefix(entries, |found|);
    var first := RunsOf(entries, KeyOf)[0];
    assert stale <= first;
    assert FillsOf(source, first)[..|found|] == found;
  }

  lemma {:induction false} FirstRunPrefix(entries: seq<Entry>, n: nat)
    requires 0 < n <= |entries|
    ensures RunsOf(entries, KeyOf) != [] && RunsOf(entries[..n], KeyOf) != []
    ensures RunsOf(entries[..n], KeyOf)[0] <= RunsOf(entries, KeyOf)[0]
    decreases |entries| - n
  {
    if n == |entries| {
      assert entries[..n] == entries;
    } else {
      hide RunsOf, Extended;
      FirstRunPrefix(entries, n + 1);
      assert entries[..n + 1] == entries[..n] + [entries[n]];
      RunsOfStep(entries[..n], entries[n], KeyOf);
      ExtendedFirst(RunsOf(entries[..n], KeyOf), entries[n]);
    }
  }

  lemma ExtendedFirst(runs: seq<seq<Entry>>, e: Entry)
    requires runs != [] && forall i | 0 <= i < |runs| :: runs[i] != []
    ensures runs[0] <= Extended(runs, e, KeyOf)[0]
  {
  }
}
