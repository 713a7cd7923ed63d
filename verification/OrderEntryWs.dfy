// Order actions over the WebSocket (src/roq/bybit/gateway/order_entry_ws.cpp): nothing is captured, and a
// rejection is tied to its request only by the request id that the exchange echoes.

module OrderEntryWs {
  import opened Options
  import opened Json
  import opened Orders
  import opened Encoder
  import opened OrderReader

  datatype Settings = Settings(streamId: nat, api: Category, recvWindow: int)

  datatype Action =
    | Place(create: CreateOrder, refData: RefData, requestId: string)
    | Amend(change: ModifyOrder, order: Order, refData: RefData, requestId: string, previousRequestId: string)
    | Cancel(order: Order, requestId: string, previousRequestId: string)

  datatype Operation = OrderCreate | OrderAmend | OrderCancel

  function OperationOf(a: Action): Operation {
    match a
    case Place(_, _, _) => OrderCreate
    case Amend(_, _, _, _, _) => OrderAmend
    case Cancel(_, _, _) => OrderCancel
  }

  function OperationText(o: Operation): string {
    match o
    case OrderCreate => "order.create"
    case OrderAmend => "order.amend"
    case OrderCancel => "order.cancel"
  }

  function ReadOperation(t: string): Option<Operation> {
    if t == "order.create" then Some(OrderCreate)
    else if t == "order.amend" then Some(OrderAmend)
    else if t == "order.cancel" then Some(OrderCancel)
    else None
  }

  function BodyTree(api: Category, a: Action): Json {
    match a
    case Place(create, refData, requestId) => Obj(PlaceFields(create, refData, requestId, api))
    case Amend(change, order, refData, _, previous) => Obj(AmendFields(change, order, refData, previous, api))
    case Cancel(order, _, previous) => Obj(CancelFields(order, previous, api))
  }

  function MessageText(s: Settings, a: Action, nowUtc: int): string {
    EnvelopePrefix(OperationText(OperationOf(a)), nowUtc, s.recvWindow) + Render(BodyTree(s.api, a)) + EnvelopeSuffix(a.requestId)
  }

  datatype Reject = Reject(streamId: nat, operation: Operation, retCode: int, text: string, requestId: string, clientOrderId: string)

  // Only a new order's rejection repeats the id as client order id.
  function RejectOf(streamId: nat, o: Operation, retCode: int, retMsg: string, reqId: string): Reject {
    Reject(streamId, o, retCode, retMsg, reqId, if o.OrderCreate? then reqId else "")
  }

  // ---- What the exchange echoes ----

  datatype Echo = Echo(operation: Operation, reqId: string)

  // It reads the operation and the request id off the message.
  function EchoOf(message: string): Option<Echo> {
    var v :- Read(message);
    var op :- GetText(v, "op");
    var operation :- ReadOperation(op);
    var reqId :- GetText(v, "reqId");
    Some(Echo(operation, reqId))
  }

  predicate CleanAction(a: Action) {
    CleanText(a.requestId) &&
    match a
    case Place(create, _, _) => CleanText(create.symbol)
    case Amend(_, order, _, _, previous) => CleanText(order.symbol) && CleanText(RefOf(order, previous).id)
    case Cancel(order, _, previous) => CleanText(order.symbol) && CleanText(RefOf(order, previous).id)
  }

  /** The echo of a message names its operation and its request. */
  lemma EchoNamesRequest(s: Settings, a: Action, nowUtc: int)
    requires CleanAction(a)
    ensures EchoOf(MessageText(s, a, nowUtc)) == Some(Echo(OperationOf(a), a.requestId))
  {
    hide Read, Render, GetText, EnvelopePrefix, EnvelopeSuffix, PlaceFields, AmendFields, CancelFields, Clean, CleanText;
    match a {
      case Place(create, refData, requestId) => CleanPlace(create, refData, requestId, s.api);
      case Amend(change, order, refData, _, previous) => CleanAmend(change, order, refData, previous, s.api);
      case Cancel(order, _, previous) => CleanCancel(order, previous, s.api);
    }
    CleanOperation(OperationOf(a));
    EnvelopeReads(OperationText(OperationOf(a)), nowUtc, s.recvWindow, BodyTree(s.api, a), a.requestId);
  }

  lemma CleanOperation(o: Operation)
    ensures CleanText(OperationText(o)) && ReadOperation(OperationText(o)) == Some(o)
  {
  }

  // ---- What a message asks for ----

  datatype Wanted = WantsPlace(place: PlaceRequest) | WantsAmend(amend: AmendRequest) | WantsCancel(cancel: CancelRequest)

  function ReadWanted(o: Operation, body: Json): Option<Wanted> {
    match o
    case OrderCreate =>
      var r :- ReadPlaceTree(body);
      Some(WantsPlace(r))
    case OrderAmend =>
      var r :- ReadAmendTree(body);
      Some(WantsAmend(r))
    case OrderCancel =>
      var r :- ReadCancelTree(body);
      Some(WantsCancel(r))
  }

  // The one argument of a message, read according to its operation.
  function ReadArgument(message: string): Option<Wanted> {
    var echo :- EchoOf(message);
    var v :- Read(message);
    match Get(v, "args")
    case Some(Arr(items)) => if |items| == 1 then ReadWanted(echo.operation, items[0]) else None
    case _ => None
  }

  function Requested(api: Category, a: Action): Wanted {
    match a
    case Place(create, refData, requestId) => WantsPlace(PlaceRequested(create, refData, requestId, api))
    case Amend(change, order, refData, _, previous) => WantsAmend(AmendRequested(change, order, refData, previous, api))
    case Cancel(order, _, previous) => WantsCancel(CancelRequested(order, previous, api))
  }

  lemma BodyReads(api: Category, a: Action)
    requires CleanAction(a)
    ensures Clean(BodyTree(api, a)) && ReadWanted(OperationOf(a), BodyTree(api, a)) == Some(Requested(api, a))
  {
    hide Read, Render, PlaceFields, AmendFields, CancelFields, Clean, CleanText, ReadPlaceTree, ReadAmendTree, ReadCancelTree,
         PlaceRequested, AmendRequested, CancelRequested;
    ReadsBack(api, a);
    ReadOfRender(BodyTree(api, a));
  }

  lemma ReadsBack(api: Category, a: Action)
    requires CleanAction(a)
    ensures Clean(BodyTree(api, a))
    ensures match a
            case Place(create, refData, id) => ReadPlace(Render(BodyTree(api, a))) == Some(PlaceRequested(create, refData, id, api))
            case Amend(change, order, refData, _, previous) =>
              ReadAmend(Render(BodyTree(api, a))) == Some(AmendRequested(change, order, refData, previous, api))
            case Cancel(order, _, previous) => ReadCancel(Render(BodyTree(api, a))) == Some(CancelRequested(order, previous, api))
  {
    hide Read, Render, PlaceFields, AmendFields, CancelFields, Clean, CleanText, ReadPlace, ReadAmend, ReadCancel,
         PlaceRequested, AmendRequested, CancelRequested;
    match a {
      case Place(create, refData, requestId) =>
        CleanPlace(create, refData, requestId, api);
        PlaceReads(create, refData, requestId, api);
      case Amend(change, order, refData, _, previous) =>
        CleanAmend(change, order, refData, previous, api);
        AmendReads(change, order, refData, previous, api);
      case Cancel(order, _, previous) =>
        CleanCancel(order, previous, api);
        CancelReads(order, previous, api);
    }
  }

  // What is read holds no quote and no backslash.
  lemma ReadIsClean(message: string, a: Action, api: Category)
    requires EchoOf(message) == Some(Echo(OperationOf(a), a.requestId)) && ReadArgument(message) == Some(Requested(api, a))
    ensures CleanAction(a)
  {
    hide ReadValue, Lookup, Clean, CleanText, PlaceRequested, AmendRequested, CancelRequested;
    ReadTextIsClean(message, "reqId");
    ReadValueIsClean(message);
    var v := Read(message).value;
    ArgumentIsClean(v);
    var body := Get(v, "args").value.items[0];
    TreeTextIsClean(body, "symbol");
    TreeTextIsClean(body, "orderId");
    TreeTextIsClean(body, "orderLinkId");
    WantedTexts(body, a, api);
  }

  lemma ArgumentIsClean(v: Json)
    requires Clean(v)
    ensures match Get(v, "args") case Some(Arr(items)) => |items| == 1 ==> Clean(items[0]) case _ => true
  {
    if v.Obj? {
      LookupIsClean(v.fields, "args");
    }
  }

  lemma TreeTextIsClean(v: Json, key: string)
    requires Clean(v)
    ensures GetText(v, key).Some? ==> CleanText(GetText(v, key).value)
  {
    if v.Obj? {
      LookupIsClean(v.fields, key);
    }
  }

  lemma WantedTexts(body: Json, a: Action, api: Category)
    requires ReadWanted(OperationOf(a), body) == Some(Requested(api, a))
    ensures match a
            case Place(create, _, _) => GetText(body, "symbol") == Some(create.symbol)
            case Amend(_, order, _, _, previous) =>
              && GetText(body, "symbol") == Some(order.symbol)
              && (GetText(body, "orderId") == Some(RefOf(order, previous).id) || GetText(body, "orderLinkId") == Some(RefOf(order, previous).id))
            case Cancel(order, _, previous) =>
              && GetText(body, "symbol") == Some(order.symbol)
              && (GetText(body, "orderId") == Some(RefOf(order, previous).id) || GetText(body, "orderLinkId") == Some(RefOf(order, previous).id))
  {
    hide Lookup, ReadCategory, ReadNumber, ReadSide, ReadOrderType, ReadTimeInForce, GetText, GetFlag, GetOptionalNumber;
  }

  /** A message is read as its operation, its request id and the order that was asked for, exactly when none of the
      texts in it needs escaping. */
  lemma MessageReadsBack(s: Settings, a: Action, nowUtc: int)
    ensures var text := MessageText(s, a, nowUtc);
            EchoOf(text) == Some(Echo(OperationOf(a), a.requestId)) && ReadArgument(text) == Some(Requested(s.api, a))
            <==> CleanAction(a)
  {
    hide Read, Render, GetText, EnvelopePrefix, EnvelopeSuffix, BodyTree, ReadWanted, Requested, EchoOf, ReadArgument, CleanAction, Clean;
    var text := MessageText(s, a, nowUtc);
    if CleanAction(a) {
      ArgumentReads(s, a, nowUtc);
    } else if EchoOf(text) == Some(Echo(OperationOf(a), a.requestId)) && ReadArgument(text) == Some(Requested(s.api, a)) {
      ReadIsClean(text, a, s.api);
    }
  }

  lemma ArgumentReads(s: Settings, a: Action, nowUtc: int)
    requires CleanAction(a)
    ensures var text := MessageText(s, a, nowUtc);
            EchoOf(text) == Some(Echo(OperationOf(a), a.requestId)) && ReadArgument(text) == Some(Requested(s.api, a))
  {
    hide Read, Render, GetText, Get, EnvelopePrefix, EnvelopeSuffix, BodyTree, ReadWanted, Requested, EchoOf, Clean, CleanText;
    EchoNamesRequest(s, a, nowUtc);
    BodyReads(s.api, a);
    CleanOperation(OperationOf(a));
    EnvelopeReads(OperationText(OperationOf(a)), nowUtc, s.recvWindow, BodyTree(s.api, a), a.requestId);
  }

  // ---- State and steps ----

  // `log` pairs every rejection with the message whose echo caused it.
  datatype State = State(ready: bool, issued: seq<Action>, sent: seq<string>, log: seq<(nat, Reject)>)

  datatype Event =
    | StatusChange(ready: bool)
    | Request(action: Action, nowUtc: int)
    | Answer(token: nat, retCode: int, retMsg: string)

  function OnAction(s: Settings, g: State, a: Action, nowUtc: int): State {
    if g.ready then g.(issued := g.issued + [a], sent := g.sent + [MessageText(s, a, nowUtc)]) else g
  }

  // Success is not reported; the private stream tells.
  function OnAck(s: Settings, g: State, token: nat, e: Echo, retCode: int, retMsg: string): State {
    if retCode == 0 then g else g.(log := g.log + [(token, RejectOf(s.streamId, e.operation, retCode, retMsg, e.reqId))])
  }

  // The exchange answers messages that were sent, in any order and any number of times.
  function Next(s: Settings, g: State, e: Event): State {
    match e
    case StatusChange(ready) => g.(ready := ready)
    case Request(action, nowUtc) => OnAction(s, g, action, nowUtc)
    case Answer(token, retCode, retMsg) =>
      if token < |g.sent| && EchoOf(g.sent[token]).Some? then OnAck(s, g, token, EchoOf(g.sent[token]).value, retCode, retMsg)
      else g
  }

  function Run(s: Settings, events: seq<Event>): State {
    if events == [] then State(false, [], [], [])
    else Next(s, Run(s, events[..|events| - 1]), events[|events| - 1])
  }

  class OrderEntryWsStream {
    const settings: Settings
    const buffer: Buffer
    var ready: bool
    var sent: seq<string>
    var rejects: seq<Reject>
    ghost var issued: seq<Action>
    ghost var log: seq<(nat, Reject)>

    ghost function View(): State
      reads this
    {
      State(ready, issued, sent, log)
    }

    constructor (settings: Settings, buffer: Buffer)
      ensures this.settings == settings && this.buffer == buffer && View() == State(false, [], [], [])
    {
      this.settings, this.buffer := settings, buffer;
      ready, sent, rejects, issued, log := false, [], [], [], [];
    }

    method SendBuffer(ghost a: Action, ghost nowUtc: int)
      requires buffer.text == MessageText(settings, a, nowUtc) && ready
      modifies this`sent, this`issued
      ensures View() == OnAction(settings, old(View()), a, nowUtc)
    {
      hide MessageText;
      sent := sent + [buffer.text];
      issued := issued + [a];
    }

    // Each of the three refuses, by an exception, while the connection is not ready.
    method CreateOrder(create: Orders.CreateOrder, refData: RefData, requestId: string, nowUtc: int) returns (accepted: bool)
      modifies this`sent, this`issued, buffer
      ensures View() == OnAction(settings, old(View()), Place(create, refData, requestId), nowUtc) && accepted == old(ready)
    {
      hide PlaceFields, Render, EnvelopePrefix, EnvelopeSuffix;
      if !ready {
        return false;
      }
      PlaceOrderWs(buffer, create, refData, requestId, settings.api, nowUtc, settings.recvWindow);
      SendBuffer(Place(create, refData, requestId), nowUtc);
      return true;
    }

    method ModifyOrder(change: Orders.ModifyOrder, order: Order, refData: RefData, requestId: string,
                       previousRequestId: string, nowUtc: int) returns (accepted: bool)
      modifies this`sent, this`issued, buffer
      ensures View() == OnAction(settings, old(View()), Amend(change, order, refData, requestId, previousRequestId), nowUtc)
           && accepted == old(ready)
    {
      hide AmendFields, Render, EnvelopePrefix, EnvelopeSuffix;
      if !ready {
        return false;
      }
      AmendOrderWs(buffer, change, order, refData, requestId, previousRequestId, settings.api, nowUtc, settings.recvWindow);
      SendBuffer(Amend(change, order, refData, requestId, previousRequestId), nowUtc);
      return true;
    }

    method CancelOrder(order: Order, requestId: string, previousRequestId: string, nowUtc: int) returns (accepted: bool)
      modifies this`sent, this`issued, buffer
      ensures View() == OnAction(settings, old(View()), Cancel(order, requestId, previousRequestId), nowUtc)
           && accepted == old(ready)
    {
      hide CancelFields, Render, EnvelopePrefix, EnvelopeSuffix;
      if !ready {
        return false;
      }
      CancelOrderWs(buffer, order, requestId, previousRequestId, settings.api, nowUtc, settings.recvWindow);
      SendBuffer(Cancel(order, requestId, previousRequestId), nowUtc);
      return true;
    }

    // The three acknowledgement handlers.
    method OnAnswer(ghost token: nat, operation: Operation, retCode: int, retMsg: string, reqId: string)
      modifies this`rejects, this`log
      ensures View() == OnAck(settings, old(View()), token, Echo(operation, reqId), retCode, retMsg)
      ensures rejects == old(rejects)
                + if retCode == 0 then [] else [RejectOf(settings.streamId, operation, retCode, retMsg, reqId)]
    {
      if retCode != 0 {
        match operation {
          case OrderCreate => rejects := rejects + [Reject(settings.streamId, OrderCreate, retCode, retMsg, reqId, reqId)];
          case OrderAmend => rejects := rejects + [Reject(settings.streamId, OrderAmend, retCode, retMsg, reqId, "")];
          case OrderCancel => rejects := rejects + [Reject(settings.streamId, OrderCancel, retCode, retMsg, reqId, "")];
        }
        log := log + [(token, RejectOf(settings.streamId, operation, retCode, retMsg, reqId))];
      }
    }
  }

  // ---- All runs ----

  ghost predicate Names(r: Reject, s: Settings, a: Action) {
    && r.streamId == s.streamId && r.operation == OperationOf(a) && r.requestId == a.requestId
    && r.clientOrderId == (if a.Place? then a.requestId else "")
  }

  // The exchange's answer that a rejection passes on.
  ghost predicate PassesOn(events: seq<Event>, token: nat, r: Reject) {
    r.retCode != 0 && exists n :: 0 <= n < |events| && events[n] == Answer(token, r.retCode, r.text)
  }

  ghost predicate Ok(s: Settings, g: State) {
    && |g.issued| == |g.sent|
    && (forall t | 0 <= t < |g.sent| && CleanAction(g.issued[t]) :: EchoOf(g.sent[t]) == Some(Echo(OperationOf(g.issued[t]), g.issued[t].requestId)))
    && (forall i | 0 <= i < |g.log| :: g.log[i].0 < |g.issued|)
    && (forall i | 0 <= i < |g.log| && CleanAction(g.issued[g.log[i].0]) :: Names(g.log[i].1, s, g.issued[g.log[i].0]))
  }

  lemma NextKeeps(s: Settings, g: State, e: Event)
    requires Ok(s, g)
    ensures Ok(s, Next(s, g, e))
  {
    hide CleanAction, EchoOf, MessageText;
    if e.Request? && CleanAction(e.action) {
      EchoNamesRequest(s, e.action, e.nowUtc);
    }
  }

  lemma NextPassesOn(s: Settings, g: State, events: seq<Event>, e: Event)
    requires forall i | 0 <= i < |g.log| :: PassesOn(events, g.log[i].0, g.log[i].1)
    ensures forall i | 0 <= i < |Next(s, g, e).log| :: PassesOn(events + [e], Next(s, g, e).log[i].0, Next(s, g, e).log[i].1)
  {
    hide EchoOf, MessageText;
    var g' := Next(s, g, e);
    forall i | 0 <= i < |g'.log| ensures PassesOn(events + [e], g'.log[i].0, g'.log[i].1) {
      if i < |g.log| {
        assert PassesOn(events, g.log[i].0, g.log[i].1);
        var n :| 0 <= n < |events| && events[n] == Answer(g.log[i].0, g.log[i].1.retCode, g.log[i].1.text);
        assert (events + [e])[n] == events[n];
      } else {
        assert (events + [e])[|events|] == e;
      }
    }
  }

  /** Over any run in which the exchange answers what it was sent, a rejection passes on the code and text of an answer
      with an error code, and names the operation and the request id of the message that was answered, provided that
      message's texts need no escaping. */
  lemma {:induction false} RejectionsNameRequests(s: Settings, events: seq<Event>)
    ensures var g := Run(s, events);
            && |g.issued| == |g.sent|
            && (forall i | 0 <= i < |g.log| :: PassesOn(events, g.log[i].0, g.log[i].1))
            && (forall i | 0 <= i < |g.log| ::
                  && g.log[i].0 < |g.issued|
                  && (CleanAction(g.issued[g.log[i].0]) ==> Names(g.log[i].1, s, g.issued[g.log[i].0])))
    ensures Ok(s, Run(s, events))
  {
    if events != [] {
      hide Next, CleanAction, EchoOf, Names, PassesOn;
      var front, e := events[..|events| - 1], events[|events| - 1];
      assert events == front + [e];
      RejectionsNameRequests(s, front);
      NextKeeps(s, Run(s, front), e);
      NextPassesOn(s, Run(s, front), front, e);
    }
  }

  /** A message is sent exactly when the connection is ready, on spot too. */
  lemma SentExactlyWhenReady(s: Settings, g: State, a: Action, nowUtc: int)
    ensures var g' := Next(s, g, Request(a, nowUtc));
            if g.ready then g'.issued == g.issued + [a] && |g'.sent| == |g.sent| + 1 && g'.log == g.log else g' == g
  {
    hide MessageText;
  }

  lemma {:induction false} NothingBeforeReady(s: Settings, events: seq<Event>)
    requires forall e | e in events :: !(e.StatusChange? && e.ready)
    ensures var g := Run(s, events); !g.ready && g.sent == [] && g.issued == [] && g.log == []
  {
    if events != [] {
      hide MessageText, EchoOf;
      NothingBeforeReady(s, events[..|events| - 1]);
      assert events[|events| - 1] in events;
    }
  }

  lemma StatusIsReadiness(s: Settings, g: State, ready: bool)
    ensures Next(s, g, StatusChange(ready)) == g.(ready := ready)
  {
    hide MessageText, EchoOf;
  }

  function RejectionsOf(log: seq<(nat, Reject)>, token: nat): nat {
    if log == [] then 0
    else RejectionsOf(log[..|log| - 1], token) + (if log[|log| - 1].0 == token then 1 else 0)
  }

  // The answers with an error code that reached a message already sent.
  function ErrorAnswers(s: Settings, events: seq<Event>, token: nat): nat {
    if events == [] then 0
    else
      var front, e := events[..|events| - 1], events[|events| - 1];
      ErrorAnswers(s, front, token)
      + (if e.Answer? && e.token == token && e.retCode != 0 && token < |Run(s, front).sent| then 1 else 0)
  }

  lemma OneMoreEvent(s: Settings, g: State, e: Event, token: nat)
    ensures RejectionsOf(Next(s, g, e).log, token)
         == RejectionsOf(g.log, token)
            + if e.Answer? && e.token == token && e.retCode != 0 && token < |g.sent| && EchoOf(g.sent[token]).Some? then 1 else 0
  {
    hide EchoOf, MessageText;
    var g' := Next(s, g, e);
    if |g'.log| == |g.log| + 1 {
      assert g'.log[..|g.log|] == g.log;
    }
  }

  /** A message is rejected as often as the exchange answered it with an error, and never otherwise. */
  lemma {:induction false} RejectedExactlyWhenAnswered(s: Settings, events: seq<Event>, token: nat)
    requires token < |Run(s, events).issued| && CleanAction(Run(s, events).issued[token])
    ensures RejectionsOf(Run(s, events).log, token) == ErrorAnswers(s, events, token)
  {
    if events != [] {
      var front, e := events[..|events| - 1], events[|events| - 1];
      var g, g' := Run(s, front), Run(s, events);
      RejectionsNameRequests(s, front);
      hide EchoOf, CleanAction, MessageText;
      OneMoreEvent(s, g, e, token);
      if token < |g.issued| {
        RejectedExactlyWhenAnswered(s, front, token);
        assert EchoOf(g.sent[token]).Some?;
      } else {
        NotYetRejected(s, front, token);
      }
    }
  }

  lemma {:induction false} NotYetRejected(s: Settings, events: seq<Event>, token: nat)
    requires token >= |Run(s, events).sent|
    ensures RejectionsOf(Run(s, events).log, token) == 0 && ErrorAnswers(s, events, token) == 0
  {
    if events != [] {
      hide EchoOf, MessageText;
      var front := events[..|events| - 1];
      var g, g' := Run(s, front), Run(s, events);
      NotYetRejected(s, front, token);
      if g'.log != g.log {
        assert g'.log[..|g.log|] == g.log;
      }
    }
  }
}
