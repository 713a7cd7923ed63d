// What every event keeps for one account: which downloads have been asked for, and where each request is.

module AccountRuns {
  import opened Orders
  import opened Symbols
  import opened DropCopy

  datatype AccountEvent =
    | Opened
    | Ready
    | Auth(success: bool)
    | Ack(reqId: string, order: seq<string>)
    | Disconnected
    | TradeDisconnected
    | Timer(count: nat)

  ghost predicate Enabled(s: Settings, a: Account, e: AccountEvent) {
    match e
    case Ack(reqId, order) => Listed(reqId) ==> Enumerates(order, a.symbols)
    case TradeDisconnected => s.wsApi
    case Timer(count) => count <= |a.queue|
    case _ => true
  }

  ghost function Step(s: Settings, a: Account, e: AccountEvent): Account
    requires Enabled(s, a, e)
  {
    match e
    case Opened => OnOpened(a)
    case Ready => OnReady(a)
    case Auth(success) => OnAuth(s, a, success)
    case Ack(reqId, order) => OnAck(a, reqId, order)
    case Disconnected => OnDisconnected(a)
    case TradeDisconnected => OnTradeDisconnected(a)
    case Timer(count) => OnTimer(s, a, count)
  }

  // ---- Invariants ----

  // The account knows the tradable part of all symbols, and never inserted one twice.
  ghost predicate KnowsTradable(s: Settings, a: Account, all: set<string>) {
    && a.symbols == (set x | x in all && s.tradable(a.name, x))
    && !a.assertionFailed
  }

  // The requests of the current session.
  function SessionRequests(a: Account): seq<Request>
    requires a.sessionStart <= |a.enqueued|
  {
    a.enqueued[a.sessionStart..]
  }

  // Whatever was acknowledged in this session has been asked for: the wallet, and the rest for every symbol.
  ghost predicate Covered(s: Settings, a: Account) {
    && a.sessionStart <= |a.enqueued|
    && (a.ready ==>
          && (forall t, x | t in a.acked && t in Downloads(s.api) && x in a.symbols :: Request(t, x) in SessionRequests(a))
          && ("wallet" in a.acked ==> Request("wallet", "") in SessionRequests(a)))
  }

  // First in, first out since the last clear; and nothing vanishes except by a clear.
  ghost predicate Conserved(s: Settings, a: Account) {
    && a.clearedEnqueued <= |a.enqueued| && a.clearedDispatched <= |a.dispatched|
    && a.enqueued[a.clearedEnqueued..] == a.dispatched[a.clearedDispatched..] + a.queue
    && multiset(a.enqueued) == multiset(a.dispatched) + multiset(a.lost) + multiset(a.queue)
    && (!s.wsApi ==> a.lost == [])
  }

  lemma EnqueueKeepsConserved(s: Settings, a: Account, requests: seq<Request>)
    requires Conserved(s, a)
    ensures Conserved(s, Enqueue(a, requests))
  {
    var a' := Enqueue(a, requests);
    assert a'.enqueued[a.clearedEnqueued..] == a.enqueued[a.clearedEnqueued..] + requests;
  }

  lemma EnqueueCovers(a: Account, requests: seq<Request>, r: Request)
    requires a.sessionStart <= |a.enqueued|
    ensures r in SessionRequests(a) || r in requests ==> r in SessionRequests(Enqueue(a, requests))
  {
    assert SessionRequests(Enqueue(a, requests)) == SessionRequests(a) + requests;
  }

  lemma SymbolKeeps(s: Settings, a: Account, all: set<string>, symbol: string)
    requires KnowsTradable(s, a, all) && Covered(s, a) && Conserved(s, a)
    requires symbol !in all
    ensures var a' := OnSymbol(s, a, symbol);
            a'.name == a.name && KnowsTradable(s, a', all + {symbol}) && Covered(s, a') && Conserved(s, a')
  {
    var a' := OnSymbol(s, a, symbol);
    if s.tradable(a.name, symbol) && a.ready {
      var requests := DownloadRequests(s.api, symbol);
      EnqueueKeepsConserved(s, a, requests);
      EnqueueCovers(a, requests, Request("wallet", ""));
      forall t, x | t in a'.acked && t in Downloads(s.api) && x in a'.symbols
        ensures Request(t, x) in SessionRequests(a')
      {
        AllDownloads(s.api, symbol, t);
        EnqueueCovers(a, requests, Request(t, x));
      }
    }
  }

  lemma AllDownloads(api: Category, symbol: string, t: string)
    requires t in Downloads(api)
    ensures Request(t, symbol) in DownloadRequests(api, symbol)
  {
    var requests := DownloadRequests(api, symbol);
    var n := |requests|;
    assert requests[n - 1] == Request("execution", symbol) && requests[n - 2] == Request("order", symbol);
    if !api.Spot? {
      assert requests[0] == Request("position", symbol);
    }
  }

  lemma {:induction false} SymbolsKeep(s: Settings, a: Account, all: set<string>, batch: seq<string>)
    requires KnowsTradable(s, a, all) && Covered(s, a) && Conserved(s, a)
    requires Distinct(batch) && Members(batch) !! all
    ensures var a' := OnSymbols(s, a, batch);
            a'.name == a.name && KnowsTradable(s, a', all + Members(batch)) && Covered(s, a') && Conserved(s, a')
  {
    if batch == [] {
      assert Members(batch) == {};
      assert all + Members(batch) == all;
    } else {
      hide KnowsTradable, Covered, Conserved, OnSymbol;
      var front, symbol := batch[..|batch| - 1], batch[|batch| - 1];
      assert batch == front + [symbol];
      assert Members(batch) == Members(front) + {symbol};
      assert symbol !in Members(front);
      SymbolsKeep(s, a, all, front);
      SymbolKeeps(s, OnSymbols(s, a, front), all + Members(front), symbol);
      assert all + Members(batch) == all + Members(front) + {symbol};
    }
  }

  lemma AckKeeps(s: Settings, a: Account, all: set<string>, reqId: string, order: seq<string>)
    requires KnowsTradable(s, a, all) && Covered(s, a) && Conserved(s, a)
    requires Enabled(s, a, Ack(reqId, order))
    ensures var a' := OnAck(a, reqId, order);
            KnowsTradable(s, a', all) && Covered(s, a') && Conserved(s, a')
  {
    var requests := AckRequests(reqId, order);
    var a' := OnAck(a, reqId, order);
    EnqueueKeepsConserved(s, a, requests);
    EnqueueCovers(a, requests, Request("wallet", ""));
    assert SessionRequests(a') == SessionRequests(Enqueue(a, requests));
    forall t, x | a.ready && t in a'.acked && t in Downloads(s.api) && x in a'.symbols
      ensures Request(t, x) in SessionRequests(a')
    {
      if t == reqId {
        assert x in Members(order);
        var i :| 0 <= i < |order| && order[i] == x;
        assert requests[i] == Request(t, x);
      }
      EnqueueCovers(a, requests, Request(t, x));
      assert SessionRequests(a') == SessionRequests(Enqueue(a, requests));
    }
  }

  lemma TimerKeeps(s: Settings, a: Account, count: nat)
    requires Conserved(s, a) && count <= |a.queue|
    ensures Conserved(s, OnTimer(s, a, count))
  {
    var a' := OnTimer(s, a, count);
    assert a'.dispatched[a.clearedDispatched..] == a.dispatched[a.clearedDispatched..] + a.queue[..count];
    assert a.queue == a.queue[..count] + a.queue[count..];
  }

  lemma TradeDisconnectedKeeps(s: Settings, a: Account)
    requires Conserved(s, a) && s.wsApi
    ensures Conserved(s, OnTradeDisconnected(a))
  {
    var a' := OnTradeDisconnected(a);
    assert a'.enqueued[a'.clearedEnqueued..] == [] && a'.dispatched[a'.clearedDispatched..] == [];
  }

  lemma StepKeeps(s: Settings, a: Account, all: set<string>, e: AccountEvent)
    requires KnowsTradable(s, a, all) && Covered(s, a) && Conserved(s, a)
    requires Enabled(s, a, e)
    ensures var a' := Step(s, a, e);
            a'.name == a.name && KnowsTradable(s, a', all) && Covered(s, a') && Conserved(s, a')
  {
    match e
    case Ack(reqId, order) => AckKeeps(s, a, all, reqId, order);
    case Timer(count) => TimerKeeps(s, a, count);
    case TradeDisconnected => TradeDisconnectedKeeps(s, a);
    case _ =>
  }

  lemma NewAccountKeeps(s: Settings, name: string)
    ensures KnowsTradable(s, NewAccount(name), {}) && Covered(s, NewAccount(name)) && Conserved(s, NewAccount(name))
  {
  }

  // ---- What follows ----

  /** A covered download is with the exchange, still pending, or was cleared by the other order entry stream; and
      nothing was cleared exactly when every request of the session is accounted for by the first two. */
  lemma CoveredRequestIsSomewhere(s: Settings, a: Account, r: Request)
    requires Covered(s, a) && Conserved(s, a) && a.ready
    requires || (r.topic in a.acked && r.topic in Downloads(s.api) && r.symbol in a.symbols)
             || (r == Request("wallet", "") && "wallet" in a.acked)
    ensures r in a.dispatched || r in a.queue || r in a.lost
    ensures !s.wsApi ==> r in a.dispatched || r in a.queue
  {
    assert r in SessionRequests(a);
    assert r in a.enqueued;
    assert r in multiset(a.enqueued);
    assert r in multiset(a.dispatched) || r in multiset(a.lost) || r in multiset(a.queue);
  }

  lemma NothingLostExactlyWhenAccounted(s: Settings, a: Account)
    requires Conserved(s, a)
    ensures |a.enqueued| == |a.dispatched| + |a.queue| <==> a.lost == []
    ensures a.lost == [] <==> multiset(a.enqueued) == multiset(a.dispatched) + multiset(a.queue)
  {
    assert |multiset(a.enqueued)| == |a.enqueued|;
    assert |multiset(a.dispatched) + multiset(a.lost) + multiset(a.queue)| == |a.dispatched| + |a.lost| + |a.queue|;
    assert |multiset(a.dispatched) + multiset(a.queue)| == |a.dispatched| + |a.queue|;
  }

  // ---- What one event does ----

  // What an event adds to the requests ever enqueued.
  lemma EnqueueCounts(a: Account, requests: seq<Request>, r: Request)
    ensures multiset(Enqueue(a, requests).enqueued)[r] == multiset(a.enqueued)[r] + multiset(requests)[r]
    ensures multiset(Enqueue(a, requests).queue)[r] == multiset(a.queue)[r] + multiset(requests)[r]
  {
  }

  /** A new tradable symbol of a ready account is asked for once on every download topic, and on nothing else. */
  lemma SymbolAskedOnce(s: Settings, a: Account, symbol: string, r: Request)
    ensures multiset(OnSymbol(s, a, symbol).enqueued)[r]
         == multiset(a.enqueued)[r]
            + if && a.ready && s.tradable(a.name, symbol) && r.symbol == symbol
                 && (r.topic == "order" || r.topic == "execution" || (r.topic == "position" && !s.api.Spot?))
              then 1 else 0
  {
    var requests := DownloadRequests(s.api, symbol);
    var common := [Request("order", symbol)] + [Request("execution", symbol)];
    assert requests == (if s.api.Spot? then [] else [Request("position", symbol)]) + common;
    assert multiset(common) == multiset{Request("order", symbol), Request("execution", symbol)};
    EnqueueCounts(a, requests, r);
  }

  /** The insertion assertion fails exactly for a tradable symbol that is already known, which is known afterwards. */
  lemma AssertionExactly(s: Settings, a: Account, symbol: string)
    ensures var a' := OnSymbol(s, a, symbol);
            && (a'.assertionFailed <==> a.assertionFailed || (s.tradable(a.name, symbol) && symbol in a.symbols))
            && a'.symbols == a.symbols + (if s.tradable(a.name, symbol) then {symbol} else {})
  {
  }

  lemma {:induction false} OnceEach(topic: string, order: seq<string>, r: Request)
    requires Distinct(order)
    ensures multiset(SymbolRequests(topic, order))[r] == if r.topic == topic && r.symbol in order then 1 else 0
  {
    if order != [] {
      var front, last := order[..|order| - 1], order[|order| - 1];
      assert order == front + [last];
      OnceEach(topic, front, r);
      OneMoreRequest(topic, front, last);
    }
  }

  /** An acknowledged topic is asked for once for every symbol of the account, the wallet once, and any other topic
      asks for nothing. */
  lemma AckAskedOnce(s: Settings, a: Account, reqId: string, order: seq<string>, r: Request)
    requires Enabled(s, a, Ack(reqId, order))
    ensures multiset(Step(s, a, Ack(reqId, order)).enqueued)[r]
         == multiset(a.enqueued)[r]
            + if || (reqId == "wallet" && r == Request("wallet", ""))
                 || ((reqId == "position" || reqId == "order" || reqId == "execution") && r.topic == reqId && r.symbol in a.symbols)
              then 1 else 0
  {
    var requests := AckRequests(reqId, order);
    EnqueueCounts(a, requests, r);
    if Listed(reqId) {
      OnceEach(reqId, order, r);
      assert r.symbol in order <==> r.symbol in Members(order);
    }
  }

  /** The connection stops being ready exactly at a disconnect or at a failed login that is retried, and starts at its
      opening or its report; the process ends exactly at a failed login that is not retried or at a position download
      on spot. */
  lemma ReadyAndTerminated(s: Settings, a: Account, e: AccountEvent)
    requires Enabled(s, a, e)
    ensures Step(s, a, e).ready
       <==> || e.Opened? || e.Ready?
            || (a.ready && !e.Disconnected? && !(e.Auth? && !e.success && s.retryLogon))
    ensures Step(s, a, e).terminated
       <==> || a.terminated
            || (e.Auth? && !e.success && !s.retryLogon)
            || (e.Timer? && s.api.Spot? && exists r :: r in a.queue[..e.count] && r.topic == "position")
    ensures Step(s, a, e).name == a.name && Step(s, a, e).symbols == a.symbols
  {
  }

  /** A login is sent at each report of readiness, and the status follows the last report, login or disconnect. */
  lemma StatusFollows(s: Settings, a: Account, e: AccountEvent)
    requires Enabled(s, a, e)
    ensures var a' := Step(s, a, e);
            && a'.logins == a.logins + (if e.Ready? then 1 else 0)
            && (a'.status.LoginSent? <==> e.Ready? || (a.status.LoginSent? && !(e.Auth? && e.success) && !e.Disconnected?))
            && (a'.status.LoggedIn? <==> (e.Auth? && e.success) || (a.status.LoggedIn? && !e.Ready? && !e.Disconnected?))
            && (a'.status.IsDisconnected? <==>
                  e.Disconnected? || (a.status.IsDisconnected? && !e.Ready? && !(e.Auth? && e.success)))
  {
  }

  /** A session starts without subscriptions and acknowledgements when the connection becomes ready; it learns of one
      topic per acknowledgement, and of the private topics at a login. */
  lemma SessionFollows(s: Settings, a: Account, e: AccountEvent)
    requires Enabled(s, a, e)
    ensures var a' := Step(s, a, e);
            var starts := e.Disconnected? || ((e.Opened? || e.Ready?) && !a.ready);
            && a'.acked == (if starts then {} else if e.Ack? then a.acked + {e.reqId} else a.acked)
            && a'.requested == (if starts then {} else if e.Auth? && e.success then a.requested + Members(PrivateTopics(s.api)) else a.requested)
            && a'.sessionStart == (if e.Disconnected? then 0 else if starts then |a.enqueued| else a.sessionStart)
            && (e.Disconnected? ==> a'.queue == a'.enqueued == a'.dispatched == a'.lost == [])
  {
  }

  // ---- What is lost ----

  lemma {:induction false} SymbolsLoseNothing(s: Settings, a: Account, batch: seq<string>)
    ensures OnSymbols(s, a, batch).lost == a.lost
  {
    if batch != [] {
      SymbolsLoseNothing(s, a, batch[..|batch| - 1]);
    }
  }

  lemma StepLoses(s: Settings, a: Account, e: AccountEvent)
    requires Enabled(s, a, e)
    ensures Step(s, a, e).lost == if e.Disconnected? then [] else if e.TradeDisconnected? then a.lost + a.queue else a.lost
  {
  }

  // ---- Only known symbols are asked for ----

  ghost predicate Sound(a: Account) {
    && (forall r | r in a.enqueued :: r == Request("wallet", "") || (Listed(r.topic) && r.symbol in a.symbols))
    && (forall r | r in a.queue :: r in a.enqueued)
  }

  lemma {:induction false} SymbolsKeepSound(s: Settings, a: Account, batch: seq<string>)
    requires Sound(a)
    ensures Sound(OnSymbols(s, a, batch))
  {
    if batch != [] {
      SymbolsKeepSound(s, a, batch[..|batch| - 1]);
    }
  }

  lemma StepKeepsSound(s: Settings, a: Account, e: AccountEvent)
    requires Sound(a) && Enabled(s, a, e)
    ensures Sound(Step(s, a, e))
  {
    if e.Ack? && Listed(e.reqId) {
      var requests := AckRequests(e.reqId, e.order);
      forall i | 0 <= i < |requests| ensures requests[i].symbol in a.symbols {
        assert e.order[i] in Members(e.order);
      }
    }
  }

  /** Every list of requests handed out becomes as many downloads, each answering its own request, in order. */
  lemma {:induction false} SoundRequestsAreDownloaded(a: Account, requests: seq<Request>)
    requires Sound(a) && forall i | 0 <= i < |requests| :: requests[i] in a.queue
    ensures |DownloadsOf(requests)| == |requests|
    ensures forall i | 0 <= i < |requests| :: RequestOf(DownloadsOf(requests)[i]) == requests[i]
  {
    if requests != [] {
      SoundRequestsAreDownloaded(a, requests[..|requests| - 1]);
      assert DownloadOf(requests[|requests| - 1]).Some?;
    }
  }

  /** Logging in subscribes to every download topic and to the wallet, each once. */
  lemma LoginSubscribesDownloads(api: Category)
    ensures Members(PrivateTopics(api)) == Downloads(api) + {"wallet"}
    ensures Distinct(PrivateTopics(api))
  {
    var topics := PrivateTopics(api);
    if api.Spot? {
      assert topics == ["wallet", "order", "execution"];
    } else {
      assert topics == ["wallet", "position", "order", "execution"];
    }
  }

  // ---- Spot has no positions ----

  ghost predicate NoPositions(s: Settings, a: Account) {
    s.api.Spot? ==> "position" !in a.requested && !AsksPositions(a.enqueued) && !AsksPositions(a.queue)
  }

  // The exchange acknowledges only what was requested in this session.
  ghost predicate Honest(a: Account, e: AccountEvent) {
    e.Ack? ==> e.reqId in a.requested
  }

  lemma {:induction false} SymbolsKeepNoPositions(s: Settings, a: Account, batch: seq<string>)
    requires NoPositions(s, a)
    ensures NoPositions(s, OnSymbols(s, a, batch))
  {
    if batch != [] {
      SymbolsKeepNoPositions(s, a, batch[..|batch| - 1]);
    }
  }

  lemma StepKeepsNoPositions(s: Settings, a: Account, e: AccountEvent)
    requires NoPositions(s, a) && Enabled(s, a, e) && Honest(a, e)
    ensures NoPositions(s, Step(s, a, e))
    ensures e.Timer? ==> Step(s, a, e).terminated == a.terminated || !s.api.Spot?
  {
    if s.api.Spot? {
      var topics := PrivateTopics(s.api);
      assert topics == ["wallet", "order", "execution"];
      assert "position" !in Members(topics);
      if e.Ack? {
        var requests := AckRequests(e.reqId, e.order);
        assert !AsksPositions(requests);
      }
    }
  }

  /** On spot, an event enqueues a position download exactly when it is an acknowledgement of the position topic,
      which was never subscribed, at a time when some symbol is known. */
  lemma StrayAckExactly(s: Settings, a: Account, e: AccountEvent)
    requires s.api.Spot? && Enabled(s, a, e) && !AsksPositions(a.enqueued)
    ensures AsksPositions(Step(s, a, e).enqueued) <==> e.Ack? && e.reqId == "position" && a.symbols != {}
  {
    if e.Ack? {
      var requests := AckRequests(e.reqId, e.order);
      assert Step(s, a, e).enqueued == a.enqueued + requests;
      if e.reqId == "position" {
        if a.symbols != {} {
          var x :| x in a.symbols;
          assert x in Members(e.order);
          assert requests[0].topic == "position" && requests[0] in Step(s, a, e).enqueued;
        } else {
          assert e.order != [] ==> e.order[0] in Members(e.order);
        }
      }
    }
  }
}
