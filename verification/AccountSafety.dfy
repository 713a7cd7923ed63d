// What holds of every account in every reachable state of the gateway.

module AccountSafety {
  import opened Options
  import opened Json
  import opened Symbols
  import opened Topics
  import opened MarketData
  import opened AccountRuns
  import opened Gateway
  import D = DropCopy

  // ---- What is lost ----

  // At event n, the other order entry stream of the account disconnects while requests are pending.
  ghost predicate LosesAt(c: Config, events: seq<Event>, name: string, n: nat)
    requires c.size > 0 && n < |events|
  {
    var g := Run(c, events[..n]);
    && events[n] == OnAccount(name, TradeDisconnected)
    && CanHappen(c, g, events[n])
    && g.accounts[name].queue != []
  }

  // At event n, the account's own private stream disconnects.
  ghost predicate EndsAt(c: Config, events: seq<Event>, name: string, n: nat)
    requires c.size > 0 && n < |events|
  {
    events[n] == OnAccount(name, Disconnected) && CanHappen(c, Run(c, events[..n]), events[n])
  }

  ghost predicate Loses(c: Config, events: seq<Event>, name: string)
    requires c.size > 0
  {
    exists n | 0 <= n < |events| ::
      LosesAt(c, events, name, n) && forall m | n < m < |events| :: !EndsAt(c, events, name, m)
  }

  lemma EventLoses(c: Config, g: State, e: Event, name: string)
    requires c.size > 0 && CanHappen(c, g, e) && name in g.accounts
    ensures name in Next(c, g, e).accounts
    ensures Next(c, g, e).accounts[name].lost
         == if e == OnAccount(name, Disconnected) then []
            else if e == OnAccount(name, TradeDisconnected) then g.accounts[name].lost + g.accounts[name].queue
            else g.accounts[name].lost
  {
    hide D.OnSymbols, Fresh, Inserted, CutShort, DeliveredStreams, Slice, AccountRuns.Step;
    match e
    case ClientSubscribe(items) => SymbolsLoseNothing(c.account, g.accounts[name], Fresh(g.all, items));
    case Instruments(instruments, throwAt) =>
      SymbolsLoseNothing(c.account, g.accounts[name], Fresh(g.all, Inserted(instruments, throwAt)));
    case OnAccount(a, event) => StepLoses(c.account, g.accounts[a], event);
    case _ =>
  }

  lemma SamePrefix(c: Config, events: seq<Event>, name: string, n: nat)
    requires c.size > 0 && n < |events| - 1
    ensures LosesAt(c, events[..|events| - 1], name, n) == LosesAt(c, events, name, n)
    ensures EndsAt(c, events[..|events| - 1], name, n) == EndsAt(c, events, name, n)
  {
    hide Run, CanHappen;
    assert events[..|events| - 1][..n] == events[..n];
  }

  // The last event decides, or else what was before it.
  lemma LosesStep(c: Config, events: seq<Event>, name: string)
    requires c.size > 0 && events != []
    ensures var k := |events| - 1;
            Loses(c, events, name) <==> LosesAt(c, events, name, k) || (Loses(c, events[..k], name) && !EndsAt(c, events, name, k))
  {
    hide LosesAt, EndsAt;
    var k := |events| - 1;
    var front := events[..k];
    forall n | 0 <= n < k
      ensures LosesAt(c, front, name, n) == LosesAt(c, events, name, n)
      ensures EndsAt(c, front, name, n) == EndsAt(c, events, name, n)
    {
      SamePrefix(c, events, name, n);
    }
    if Loses(c, front, name) && !EndsAt(c, events, name, k) {
      var n :| 0 <= n < k && LosesAt(c, front, name, n) && forall m | n < m < k :: !EndsAt(c, front, name, m);
      assert LosesAt(c, events, name, n);
    }
  }

  /** Over any run, requests of an account are lost exactly when the WebSocket order entry stream disconnected while
      some were pending, and the private stream has not disconnected since. */
  lemma {:induction false} LostExactly(c: Config, events: seq<Event>, name: string)
    requires c.size > 0 && name in c.accounts
    ensures name in Run(c, events).accounts
    ensures Run(c, events).accounts[name].lost != [] <==> Loses(c, events, name)
  {
    RunOk(c, events);
    if events != [] {
      hide Next, Loses;
      var k := |events| - 1;
      var front, e := events[..k], events[k];
      LostExactly(c, front, name);
      LosesStep(c, events, name);
      if CanHappen(c, Run(c, front), e) {
        EventLoses(c, Run(c, front), e, name);
      }
    } else {
      assert Run(c, events) == Start(c);
    }
  }

  // ---- Downloads ----

  /** Over any run, while the private connection is ready, every download acknowledged in this session has been
      enqueued in this session for every symbol of the account, whether the symbol came before or after the
      acknowledgement, and the wallet likewise; and each such request is dispatched or still pending unless requests were lost. */
  lemma DownloadCoverage(c: Config, events: seq<Event>, name: string, t: string, x: string)
    requires c.size > 0 && name in c.accounts
    ensures name in Run(c, events).accounts
    ensures var a := Run(c, events).accounts[name];
            a.ready && t in a.acked && t in D.Downloads(c.account.api) && x in a.symbols ==>
              var r := D.Request(t, x);
              && a.sessionStart <= |a.enqueued| && r in a.enqueued[a.sessionStart..]
              && (r in a.dispatched || r in a.queue || r in a.lost)
              && (!Loses(c, events, name) ==> r in a.dispatched || r in a.queue)
    ensures var a := Run(c, events).accounts[name];
            a.ready && "wallet" in a.acked ==>
              && a.sessionStart <= |a.enqueued| && D.Request("wallet", "") in a.enqueued[a.sessionStart..]
              && (!Loses(c, events, name) ==> D.Request("wallet", "") in a.dispatched || D.Request("wallet", "") in a.queue)
  {
    hide Run, Loses;
    RunOk(c, events);
    LostExactly(c, events, name);
    var g := Run(c, events);
    assert AccountOk(c, g.accounts[name], name, Members(g.symbols));
    var a := g.accounts[name];
    if a.ready && t in a.acked && t in D.Downloads(c.account.api) && x in a.symbols {
      CoveredRequestIsSomewhere(c.account, a, D.Request(t, x));
    }
    if a.ready && "wallet" in a.acked {
      CoveredRequestIsSomewhere(c.account, a, D.Request("wallet", ""));
    }
  }

  /** Over any run, the requests enqueued since the last clear are those dispatched since then followed by those
      pending, in order; since the private stream last disconnected, every request is dispatched, pending or was
      cleared by the WebSocket order entry stream, and none is unless that stream exists. */
  lemma QueueConservation(c: Config, events: seq<Event>, name: string)
    requires c.size > 0 && name in c.accounts
    ensures name in Run(c, events).accounts
    ensures var a := Run(c, events).accounts[name];
            && a.clearedEnqueued <= |a.enqueued| && a.clearedDispatched <= |a.dispatched|
            && a.enqueued[a.clearedEnqueued..] == a.dispatched[a.clearedDispatched..] + a.queue
            && multiset(a.enqueued) == multiset(a.dispatched) + multiset(a.lost) + multiset(a.queue)
            && (!c.account.wsApi ==> a.lost == [])
            && (a.lost == [] <==> |a.enqueued| == |a.dispatched| + |a.queue|)
            && (forall n: nat | n <= |a.queue| ::
                  && |D.DownloadsOf(a.queue[..n])| == n
                  && forall i | 0 <= i < n :: D.RequestOf(D.DownloadsOf(a.queue[..n])[i]) == a.queue[i])
  {
    hide Run;
    RunOk(c, events);
    var g := Run(c, events);
    assert AccountOk(c, g.accounts[name], name, Members(g.symbols));
    var a := g.accounts[name];
    NothingLostExactlyWhenAccounted(c.account, a);
    forall n: nat | n <= |a.queue|
      ensures |D.DownloadsOf(a.queue[..n])| == n
      ensures forall i | 0 <= i < n :: D.RequestOf(D.DownloadsOf(a.queue[..n])[i]) == a.queue[i]
    {
      SoundRequestsAreDownloaded(a, a.queue[..n]);
    }
  }

  // ---- Spot ----

  // Every acknowledgement in the run was for a topic requested in its session.
  ghost predicate HonestRun(c: Config, events: seq<Event>)
    requires c.size > 0
  {
    forall n | 0 <= n < |events| ::
      var g := Run(c, events[..n]);
      events[n].OnAccount? && events[n].account in g.accounts ==> Honest(g.accounts[events[n].account], events[n].event)
  }

  ghost predicate NoPositionsAnywhere(c: Config, g: State) {
    forall a | a in g.accounts :: NoPositions(c.account, g.accounts[a])
  }

  lemma NextKeepsNoPositions(c: Config, g: State, e: Event)
    requires c.size > 0 && CanHappen(c, g, e) && NoPositionsAnywhere(c, g)
    requires e.OnAccount? ==> Honest(g.accounts[e.account], e.event)
    ensures NoPositionsAnywhere(c, Next(c, g, e))
  {
    hide NoPositions, D.OnSymbols, Fresh, Inserted, CutShort, OnNewSymbols, Slice, CreateStreams, AccountRuns.Step;
    match e
    case ClientSubscribe(items) => DeliverKeepsNoPositions(c, g, Fresh(g.all, items));
    case Instruments(instruments, throwAt) => DeliverKeepsNoPositions(c, g, Fresh(g.all, Inserted(instruments, throwAt)));
    case OnAccount(a, event) => StepKeepsNoPositions(c.account, g.accounts[a], event);
    case _ =>
  }

  lemma DeliverKeepsNoPositions(c: Config, g: State, batch: seq<string>)
    requires c.size > 0 && NoPositionsAnywhere(c, g)
    ensures NoPositionsAnywhere(c, Deliver(c, g, batch))
  {
    hide NoPositions, D.OnSymbols, OnNewSymbols, Slice, CreateStreams;
    forall a | a in g.accounts ensures NoPositions(c.account, D.OnSymbols(c.account, g.accounts[a], batch)) {
      SymbolsKeepNoPositions(c.account, g.accounts[a], batch);
    }
  }

  /** Over any run in which the exchange acknowledges only what was requested, the spot gateway never enqueues a
      position download, so the assertion and the fatal branch of that download are never reached. */
  lemma {:induction false} SpotNeverAsksPositions(c: Config, events: seq<Event>)
    requires c.size > 0 && HonestRun(c, events)
    ensures NoPositionsAnywhere(c, Run(c, events))
    ensures c.account.api.Spot? ==>
              forall a, n: nat | a in Run(c, events).accounts && n <= |Run(c, events).accounts[a].queue| ::
                !D.AsksPositions(Run(c, events).accounts[a].queue[..n])
  {
    hide Next, CanHappen;
    if events != [] {
      var front, e := events[..|events| - 1], events[|events| - 1];
      assert HonestRun(c, front) by {
        forall n | 0 <= n < |front|
          ensures var g := Run(c, front[..n]);
                  front[n].OnAccount? && front[n].account in g.accounts ==> Honest(g.accounts[front[n].account], front[n].event)
        {
          assert front[..n] == events[..n];
        }
      }
      SpotNeverAsksPositions(c, front);
      if CanHappen(c, Run(c, front), e) {
        EnabledAccount(c, Run(c, front), e);
        NextKeepsNoPositions(c, Run(c, front), e);
      }
    }
  }

  lemma EnabledAccount(c: Config, g: State, e: Event)
    requires CanHappen(c, g, e)
    ensures e.OnAccount? ==> e.account in g.accounts
  {
  }

  // ---- Private subscriptions ----

  /** Each message sent after a login reads as a subscription to its topic, and a push on it is accepted. */
  lemma PrivateSubscriptionsReach(s: D.Settings, i: nat, op: Operation, eventType: EventType, allowUnknown: bool)
    requires i < |D.PrivateTopics(s.api)|
    ensures var topic := D.PrivateTopics(s.api)[i];
            && ReadArgs(Render(SubscribeTree(topic, [topic]))) == Some([topic])
            && Dispatch(topic, op, eventType, allowUnknown).ToPrivate?
            && DropCopyAccepts(Dispatch(topic, op, eventType, allowUnknown))
  {
    hide ReadArgs, Render, Dispatch;
    PrivateClosedLoop(Wallet, op, eventType, allowUnknown);
    PrivateClosedLoop(Position, op, eventType, allowUnknown);
    PrivateClosedLoop(PrivateTopic.Order, op, eventType, allowUnknown);
    PrivateClosedLoop(Execution, op, eventType, allowUnknown);
    assert D.PrivateTopics(s.api) == if s.api.Spot? then ["wallet", "order", "execution"] else ["wallet", "position", "order", "execution"];
  }
}
