// One account: the private stream that asks for downloads (src/roq/bybit/gateway/drop_copy.cpp), the queue it
// shares with the two order entry streams (account.hpp, order_entry_rest.cpp, order_entry_ws.cpp).

module DropCopy {
  import opened Options
  import opened Orders
  import opened Symbols

  datatype Request = Request(topic: string, symbol: string)

  // `tradable(account, symbol)` is the dispatcher's answer, and `wsApi` whether a second order entry stream exists.
  datatype Settings = Settings(api: Category, wsApi: bool, retryLogon: bool, tradable: (string, string) -> bool)

  // The downloads asked for again for every symbol.
  function Downloads(api: Category): set<string> {
    {"order", "execution"} + (if api.Spot? then {} else {"position"})
  }

  function PrivateTopics(api: Category): seq<string> {
    ["wallet"] + (if api.Spot? then [] else ["position"]) + ["order"] + ["execution"]
  }

  // ---- Specification ----

  // `enqueued`, `dispatched` and `lost` (cleared by the other stream) record the time since the private stream last
  // disconnected; `acked`, `requested` and the part of `enqueued` from `sessionStart` record the current session,
  // which starts when the connection becomes ready.  `ready` is what the connection answers when asked, `status` what
  // the stream last reported, and `logins` how many login messages it has sent.
  datatype Status = NoStatus | IsDisconnected | LoginSent | LoggedIn

  datatype Account = Account(
    name: string,
    symbols: set<string>,
    ready: bool,
    queue: seq<Request>,
    requested: set<string>,
    acked: set<string>,
    enqueued: seq<Request>,
    sessionStart: nat,
    dispatched: seq<Request>,
    lost: seq<Request>,
    clearedEnqueued: nat,
    clearedDispatched: nat,
    assertionFailed: bool,
    terminated: bool,
    status: Status,
    logins: nat)

  function NewAccount(name: string): Account {
    Account(name, {}, false, [], {}, {}, [], 0, [], [], 0, 0, false, false, NoStatus, 0)
  }

  function Enqueue(a: Account, requests: seq<Request>): Account {
    a.(queue := a.queue + requests, enqueued := a.enqueued + requests)
  }

  function DownloadRequests(api: Category, symbol: string): seq<Request> {
    (if api.Spot? then [] else [Request("position", symbol)]) + [Request("order", symbol)] + [Request("execution", symbol)]
  }

  function OnSymbol(s: Settings, a: Account, symbol: string): Account {
    if !s.tradable(a.name, symbol) then a
    else
      var a' := a.(assertionFailed := a.assertionFailed || symbol in a.symbols, symbols := a.symbols + {symbol});
      if a.ready then Enqueue(a', DownloadRequests(s.api, symbol)) else a'
  }

  function OnSymbols(s: Settings, a: Account, batch: seq<string>): Account {
    if batch == [] then a else OnSymbol(s, OnSymbols(s, a, batch[..|batch| - 1]), batch[|batch| - 1])
  }

  // The connection becomes ready, at any time before it reports so.
  function OnOpened(a: Account): Account {
    if a.ready then a else a.(ready := true, requested := {}, acked := {}, sessionStart := |a.enqueued|)
  }

  // It reports that it is ready: a login is sent.
  function OnReady(a: Account): Account {
    OnOpened(a).(status := LoginSent, logins := a.logins + 1)
  }

  function OnAuth(s: Settings, a: Account, success: bool): Account {
    if success then a.(requested := a.requested + Members(PrivateTopics(s.api)), status := LoggedIn)
    else if s.retryLogon then a.(ready := false)
    else a.(terminated := true)
  }

  // The acknowledged topics that are downloaded symbol by symbol.
  predicate Listed(reqId: string) {
    reqId == "position" || reqId == "order" || reqId == "execution"
  }

  function SymbolRequests(topic: string, order: seq<string>): (r: seq<Request>)
    ensures |r| == |order|
  {
    seq(|order|, i requires 0 <= i < |order| => Request(topic, order[i]))
  }

  // The requests for one acknowledged topic; `order` is the order in which the unordered set is visited.
  function AckRequests(reqId: string, order: seq<string>): seq<Request> {
    if reqId == "wallet" then [Request(reqId, "")]
    else if Listed(reqId) then SymbolRequests(reqId, order)
    else []
  }

  function OnAck(a: Account, reqId: string, order: seq<string>): Account {
    Enqueue(a, AckRequests(reqId, order)).(acked := a.acked + {reqId})
  }

  function OnDisconnected(a: Account): Account {
    a.(status := IsDisconnected, ready := false, queue := [], requested := {}, acked := {}, enqueued := [], sessionStart := 0,
       dispatched := [], lost := [], clearedEnqueued := 0, clearedDispatched := 0)
  }

  // The WebSocket order entry stream of the same account disconnects.
  function OnTradeDisconnected(a: Account): Account {
    a.(queue := [], lost := a.lost + a.queue, clearedEnqueued := |a.enqueued|, clearedDispatched := |a.dispatched|)
  }

  predicate AsksPositions(requests: seq<Request>) {
    exists r :: r in requests && r.topic == "position"
  }

  // The rate limiter lets the first `count` requests go.  A position download on spot ends the process.
  function OnTimer(s: Settings, a: Account, count: nat): Account
    requires count <= |a.queue|
  {
    a.(queue := a.queue[count..], dispatched := a.dispatched + a.queue[..count],
       terminated := a.terminated || (s.api.Spot? && AsksPositions(a.queue[..count])))
  }

  // How many requests become downloads before the process ends.
  function Served(api: Category, requests: seq<Request>): (n: nat)
    ensures n <= |requests|
    ensures n < |requests| <==> api.Spot? && AsksPositions(requests)
  {
    if requests == [] then 0
    else
      var front := requests[..|requests| - 1];
      assert requests == front + [requests[|requests| - 1]];
      var n := Served(api, front);
      if n < |front| || (api.Spot? && requests[|requests| - 1].topic == "position") then n else |requests|
  }

  ghost predicate Enumerates(order: seq<string>, symbols: set<string>) {
    Distinct(order) && Members(order) == symbols
  }

  // ---- The objects ----

  /** The part of the account that its streams share. */
  class AccountQueue {
    const name: string
    var requestQueue: seq<Request>
    ghost var enqueued: seq<Request>
    ghost var sessionStart: nat
    ghost var dispatched: seq<Request>
    ghost var lost: seq<Request>
    ghost var clearedEnqueued: nat
    ghost var clearedDispatched: nat

    constructor (name: string)
      ensures this.name == name && requestQueue == [] && enqueued == [] && dispatched == [] && lost == []
      ensures sessionStart == clearedEnqueued == clearedDispatched == 0
    {
      this.name, requestQueue, enqueued, dispatched, lost := name, [], [], [], [];
      sessionStart, clearedEnqueued, clearedDispatched := 0, 0, 0;
    }

    method EmplaceBack(r: Request)
      modifies this`requestQueue, this`enqueued
      ensures requestQueue == old(requestQueue) + [r] && enqueued == old(enqueued) + [r]
    {
      requestQueue := requestQueue + [r];
      enqueued := enqueued + [r];
    }

    // A FIFO that hands out as many requests as the rate limiter allows.
    method Dispatch(count: nat) returns (requests: seq<Request>)
      requires count <= |requestQueue|
      modifies this`requestQueue, this`dispatched
      ensures requests == old(requestQueue)[..count]
      ensures requestQueue == old(requestQueue)[count..] && dispatched == old(dispatched) + requests
    {
      requests := requestQueue[..count];
      requestQueue := requestQueue[count..];
      dispatched := dispatched + requests;
    }

    method ClearByPrivateStream()
      modifies this
      ensures requestQueue == [] && enqueued == [] && dispatched == [] && lost == []
      ensures sessionStart == clearedEnqueued == clearedDispatched == 0
    {
      requestQueue, enqueued, dispatched, lost := [], [], [], [];
      sessionStart, clearedEnqueued, clearedDispatched := 0, 0, 0;
    }

    method ClearByTradeStream()
      modifies this
      ensures requestQueue == [] && lost == old(lost) + old(requestQueue)
      ensures clearedEnqueued == |old(enqueued)| && clearedDispatched == |old(dispatched)|
      ensures enqueued == old(enqueued) && dispatched == old(dispatched) && sessionStart == old(sessionStart)
    {
      lost := lost + requestQueue;
      requestQueue := [];
      clearedEnqueued, clearedDispatched := |enqueued|, |dispatched|;
    }
  }

  /** The private stream. */
  class DropCopyStream {
    const settings: Settings
    const account: AccountQueue
    var symbols: set<string>
    var ready: bool
    var assertionFailed: bool
    var terminated: bool
    var status: Status
    var logins: nat
    ghost var requested: set<string>
    ghost var acked: set<string>

    ghost function View(): Account
      reads this, account
    {
      Account(account.name, symbols, ready, account.requestQueue, requested, acked, account.enqueued, account.sessionStart,
              account.dispatched, account.lost, account.clearedEnqueued, account.clearedDispatched, assertionFailed, terminated,
              status, logins)
    }

    constructor (settings: Settings, account: AccountQueue)
      requires account.requestQueue == [] && account.enqueued == [] && account.dispatched == [] && account.lost == []
      requires account.sessionStart == account.clearedEnqueued == account.clearedDispatched == 0
      ensures this.settings == settings && this.account == account
      ensures View() == NewAccount(account.name)
    {
      this.settings, this.account := settings, account;
      symbols, ready, assertionFailed, terminated, requested, acked := {}, false, false, false, {}, {};
      status, logins := NoStatus, 0;
    }

    method EnqueueDownloads(symbol: string)
      modifies account`requestQueue, account`enqueued
      ensures account.requestQueue == old(account.requestQueue) + DownloadRequests(settings.api, symbol)
      ensures account.enqueued == old(account.enqueued) + DownloadRequests(settings.api, symbol)
    {
      if !settings.api.Spot? {
        account.EmplaceBack(Request("position", symbol));
      }
      account.EmplaceBack(Request("order", symbol));
      account.EmplaceBack(Request("execution", symbol));
    }

    method SymbolUpdate(symbol: string)
      modifies this`symbols, this`assertionFailed, account`requestQueue, account`enqueued
      ensures View() == OnSymbol(settings, old(View()), symbol)
    {
      hide DownloadRequests;
      if !settings.tradable(account.name, symbol) {
        return;
      }
      assertionFailed := assertionFailed || symbol in symbols;
      symbols := symbols + {symbol};
      if ready {
        EnqueueDownloads(symbol);
      }
    }

    method SymbolsUpdate(batch: seq<string>)
      modifies this`symbols, this`assertionFailed, account`requestQueue, account`enqueued
      ensures View() == OnSymbols(settings, old(View()), batch)
    {
      hide OnSymbols, OnSymbol, View;
      ghost var before := View();
      NoSymbols(settings, before);
      for i := 0 to |batch|
        invariant View() == OnSymbols(settings, before, batch[..i])
      {
        OneMoreSymbol(settings, before, batch[..i], batch[i]);
        assert batch[..i + 1] == batch[..i] + [batch[i]];
        SymbolUpdate(batch[i]);
      }
      assert batch[..|batch|] == batch;
    }

    // Not a handler: from here on the connection answers that it is ready.
    method Opened()
      modifies this`ready, this`requested, this`acked, account`sessionStart
      ensures View() == OnOpened(old(View()))
    {
      if !ready {
        ready := true;
        requested, acked := {}, {};
        account.sessionStart := |account.enqueued|;
      }
    }

    method Ready()
      modifies this`ready, this`requested, this`acked, this`status, this`logins, account`sessionStart
      ensures View() == OnReady(old(View()))
    {
      Opened();
      logins := logins + 1;
      status := LoginSent;
    }

    // The topics subscribed after a successful login are returned in the order they are sent.
    method Auth(success: bool) returns (subscriptions: seq<string>)
      modifies this`ready, this`requested, this`terminated, this`status
      ensures View() == OnAuth(settings, old(View()), success)
      ensures subscriptions == if success then PrivateTopics(settings.api) else []
    {
      subscriptions := [];
      if success {
        status := LoggedIn;
        subscriptions := subscriptions + ["wallet"];
        if !settings.api.Spot? {
          subscriptions := subscriptions + ["position"];
        }
        subscriptions := subscriptions + ["order"];
        subscriptions := subscriptions + ["execution"];
        requested := requested + Members(subscriptions);
      } else if settings.retryLogon {
        ready := false;
      } else {
        terminated := true;
      }
    }

    // One request for each symbol, in some order of the unordered set.
    method EnqueueSymbols(topic: string) returns (ghost order: seq<string>)
      modifies account`requestQueue, account`enqueued
      ensures Enumerates(order, symbols)
      ensures account.requestQueue == old(account.requestQueue) + SymbolRequests(topic, order)
      ensures account.enqueued == old(account.enqueued) + SymbolRequests(topic, order)
    {
      hide Distinct, Members, SymbolRequests;
      order := [];
      NoRequests(topic);
      var todo := symbols;
      while todo != {}
        invariant Distinct(order) && Members(order) == symbols - todo && todo <= symbols
        invariant account.requestQueue == old(account.requestQueue) + SymbolRequests(topic, order)
        invariant account.enqueued == old(account.enqueued) + SymbolRequests(topic, order)
        decreases |todo|
      {
        var symbol :| symbol in todo;
        account.EmplaceBack(Request(topic, symbol));
        OneMoreRequest(topic, order, symbol);
        OneMoreMember(order, symbol, symbols - todo);
        todo := todo - {symbol};
        order := order + [symbol];
      }
    }

    /** An acknowledged subscription; the symbols are visited in some order, each exactly once. */
    method SubscribeAck(reqId: string) returns (ghost order: seq<string>)
      modifies this`acked, account`requestQueue, account`enqueued
      ensures Listed(reqId) ==> Enumerates(order, symbols)
      ensures View() == OnAck(old(View()), reqId, order)
    {
      acked := acked + {reqId};
      order := [];
      if reqId == "wallet" {
        account.EmplaceBack(Request(reqId, ""));
      } else if reqId == "position" || reqId == "order" || reqId == "execution" {
        order := EnqueueSymbols(reqId);
      }
    }

    method Disconnected()
      modifies this`ready, this`requested, this`acked, this`status, account
      ensures View() == OnDisconnected(old(View()))
    {
      status := IsDisconnected;
      ready := false;
      requested, acked := {}, {};
      account.ClearByPrivateStream();
    }
  }

  lemma NoRequests(topic: string)
    ensures SymbolRequests(topic, []) == []
    ensures Distinct([]) && Members([]) == {}
  {
  }

  lemma OneMoreRequest(topic: string, order: seq<string>, symbol: string)
    ensures SymbolRequests(topic, order + [symbol]) == SymbolRequests(topic, order) + [Request(topic, symbol)]
  {
  }

  lemma OneMoreMember(order: seq<string>, symbol: string, members: set<string>)
    requires Distinct(order) && Members(order) == members && symbol !in members
    ensures Distinct(order + [symbol]) && Members(order + [symbol]) == members + {symbol}
  {
    assert forall s | s in order :: s in Members(order);
  }

  // How a dispatched request is turned into a download.
  datatype Download = WalletBalance | Positions(symbol: string) | OpenOrders(symbol: string) | Executions(symbol: string)

  function DownloadOf(r: Request): Option<Download> {
    if r.topic == "wallet" then Some(WalletBalance)
    else if r.topic == "position" then Some(Positions(r.symbol))
    else if r.topic == "order" then Some(OpenOrders(r.symbol))
    else if r.topic == "execution" then Some(Executions(r.symbol))
    else None
  }

  // The request a download answers.
  function RequestOf(d: Download): Request {
    match d
    case WalletBalance => Request("wallet", "")
    case Positions(symbol) => Request("position", symbol)
    case OpenOrders(symbol) => Request("order", symbol)
    case Executions(symbol) => Request("execution", symbol)
  }

  function DownloadsOf(requests: seq<Request>): seq<Download> {
    if requests == [] then []
    else
      var d := DownloadOf(requests[|requests| - 1]);
      DownloadsOf(requests[..|requests| - 1]) + (if d.Some? then [d.value] else [])
  }

  lemma DownloadsSnoc(requests: seq<Request>, r: Request)
    ensures DownloadsOf(requests + [r]) == DownloadsOf(requests) + (if DownloadOf(r).Some? then [DownloadOf(r).value] else [])
  {
    assert (requests + [r])[..|requests|] == requests;
  }

  /** The order entry streams' hold on the queue. */
  class OrderEntryStreams {
    const settings: Settings
    const dropCopy: DropCopyStream

    constructor (dropCopy: DropCopyStream)
      ensures this.dropCopy == dropCopy && settings == dropCopy.settings
    {
      this.dropCopy, settings := dropCopy, dropCopy.settings;
    }

    // The callback of the queue: one download per request, until a position download on spot ends the process.
    method Download(requests: seq<Request>) returns (downloads: seq<Download>, fatal: bool)
      ensures fatal <==> settings.api.Spot? && AsksPositions(requests)
      ensures downloads == DownloadsOf(requests[..Served(settings.api, requests)])
    {
      hide AsksPositions;
      downloads, fatal := [], false;
      for i := 0 to |requests|
        invariant Served(settings.api, requests[..i]) == i
        invariant downloads == DownloadsOf(requests[..i])
      {
        var r := requests[i];
        assert requests[..i + 1] == requests[..i] + [r];
        if r.topic == "position" && settings.api.Spot? {
          ServedUntil(settings.api, requests, i);
          return downloads, true;
        }
        OneMoreServed(settings.api, requests[..i], r);
        DownloadsSnoc(requests[..i], r);
        if DownloadOf(r).Some? {
          downloads := downloads + [DownloadOf(r).value];
        }
      }
      assert requests[..|requests|] == requests;
    }

    // Over REST, on a timer, while that stream is ready.
    method CheckRequestQueue(count: nat) returns (downloads: seq<Download>)
      requires settings == dropCopy.settings && count <= |dropCopy.account.requestQueue|
      modifies dropCopy`terminated, dropCopy.account`requestQueue, dropCopy.account`dispatched
      ensures dropCopy.View() == OnTimer(settings, old(dropCopy.View()), count)
      ensures var requests := old(dropCopy.account.requestQueue)[..count];
              downloads == DownloadsOf(requests[..Served(settings.api, requests)])
    {
      hide AsksPositions, DownloadsOf, Served;
      var requests := dropCopy.account.Dispatch(count);
      var fatal;
      downloads, fatal := Download(requests);
      dropCopy.terminated := dropCopy.terminated || fatal;
    }

    // Over WebSocket, which exists only with the WebSocket API on.
    method TradeDisconnected()
      requires settings.wsApi
      modifies dropCopy.account
      ensures dropCopy.View() == OnTradeDisconnected(old(dropCopy.View()))
    {
      dropCopy.account.ClearByTradeStream();
    }
  }

  lemma OneMoreServed(api: Category, requests: seq<Request>, r: Request)
    requires Served(api, requests) == |requests| && !(api.Spot? && r.topic == "position")
    ensures Served(api, requests + [r]) == |requests| + 1
  {
    assert (requests + [r])[..|requests|] == requests;
  }

  lemma {:induction false} ServedUntil(api: Category, requests: seq<Request>, i: nat)
    requires i < |requests| && Served(api, requests[..i]) == i
    requires api.Spot? && requests[i].topic == "position"
    ensures Served(api, requests) == i
    decreases |requests|
  {
    var front := requests[..|requests| - 1];
    if i < |front| {
      assert front[..i] == requests[..i];
      ServedUntil(api, front, i);
    }
  }

  lemma NoSymbols(s: Settings, a: Account)
    ensures OnSymbols(s, a, []) == a
  {
  }

  lemma OneMoreSymbol(s: Settings, a: Account, batch: seq<string>, symbol: string)
    ensures OnSymbols(s, a, batch + [symbol]) == OnSymbol(s, OnSymbols(s, a, batch), symbol)
  {
    assert (batch + [symbol])[..|batch|] == batch;
  }
}
