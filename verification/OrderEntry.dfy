// Order actions over one pipelined REST connection: requests whose callbacks capture user, order and version, and
// completions that all pass through one error/success splitter (src/roq/bybit/gateway/order_entry_rest.cpp).

module OrderEntry {
  import opened Options
  import opened Json
  import opened Orders
  import opened Encoder

  datatype Settings = Settings(streamId: nat, api: Category, terminateOn403: bool)

  // ---- Requests ----

  datatype Action =
    | Place(user: nat, orderId: nat, create: CreateOrder, refData: RefData, requestId: string)
    | Amend(user: nat, orderId: nat, version: nat, change: ModifyOrder, order: Order, refData: RefData,
            requestId: string, previousRequestId: string)
    | Cancel(user: nat, orderId: nat, version: nat, order: Order, requestId: string, previousRequestId: string)
    | CancelAll(symbol: string, requestId: string)

  function BodyText(api: Category, a: Action): string {
    match a
    case Place(_, _, create, refData, requestId) => Render(Obj(PlaceFields(create, refData, requestId, api)))
    case Amend(_, _, _, change, order, refData, _, previous) => Render(Obj(AmendFields(change, order, refData, previous, api)))
    case Cancel(_, _, _, order, _, previous) => Render(Obj(CancelFields(order, previous, api)))
    case CancelAll(symbol, _) => Render(Obj(CancelAllFields(symbol, api)))
  }

  // What a callback captures; the connection hands the request id back beside it.
  datatype Callback =
    | PlaceAck(user: nat, orderId: nat)
    | AmendAck(user: nat, orderId: nat, version: nat)
    | CancelAck(user: nat, orderId: nat, version: nat)
    | CancelAllAck

  datatype InFlight = InFlight(callback: Callback, requestId: string)

  function InFlightOf(a: Action): InFlight {
    match a
    case Place(user, orderId, _, _, requestId) => InFlight(PlaceAck(user, orderId), requestId)
    case Amend(user, orderId, version, _, _, _, requestId, _) => InFlight(AmendAck(user, orderId, version), requestId)
    case Cancel(user, orderId, version, _, requestId, _) => InFlight(CancelAck(user, orderId, version), requestId)
    case CancelAll(_, requestId) => InFlight(CancelAllAck, requestId)
  }

  datatype Outcome = Sent | NotReady | NotSupported

  // ---- Completions ----

  datatype Origin = Gateway | Exchange | OtherOrigin(code: nat)

  datatype RequestStatus = Accepted | Rejected | Error | OtherStatus(code: nat)

  // `Mapped` is the error a return code stands for.
  datatype ErrorCode = NoError | Unknown | RequestRateLimitReached | Mapped(retCode: int) | OtherError(code: nat)

  datatype Verdict = Verdict(origin: Origin, status: RequestStatus, error: ErrorCode, text: string)

  datatype Thrown =
    | OmsException(verdict: Verdict)
    | NetworkError(status: RequestStatus, error: ErrorCode, what: string)
    | StdException(what: string)

  // The decoded acknowledgement; a new order's has no quantities.
  datatype Ack = Ack(retCode: int, retMsg: string, orderId: string, orderLinkId: string, symbol: string,
                     orderQty: int, orderPrice: int, execQty: int)

  datatype Body = Decoded(ack: Ack) | Malformed(thrown: Thrown)

  datatype HttpCategory = UnknownCategory | Informational | Success | Redirection | ClientError | ServerError

  // `unexpected` is what the expectation of status 200 throws.
  datatype Completion =
    | NoResult(thrown: Thrown)
    | Result(category: HttpCategory, status: nat, statusText: string, body: Body, unexpected: Thrown)

  datatype RequestType = CreateOrderType | ModifyOrderType | CancelOrderType

  datatype OrderUpdate = OrderUpdate(symbol: string, externalOrderId: string, quantity: int, price: int,
                                     tradedQuantity: int, remainingQuantity: int)

  datatype Answer =
    | Response(streamId: nat, user: nat, orderId: nat, requestType: RequestType, version: nat, verdict: Verdict,
               requestId: string, externalOrderId: string, clientOrderId: string, update: Option<OrderUpdate>)
    | CancelAllResponse(streamId: nat, requestId: string, verdict: Verdict)

  // What the dispatcher is called with; `token` is the request it is about and `thrown` what the call threw.
  datatype Entry =
    | Forwarded(token: nat, symbol: string, requestId: string)
    | Answered(token: nat, answer: Answer, thrown: Option<Thrown>)

  // ---- Specification of one completion ----

  function CallbackType(c: Callback): RequestType
    requires !c.CancelAllAck?
  {
    match c
    case PlaceAck(_, _) => CreateOrderType
    case AmendAck(_, _, _) => ModifyOrderType
    case CancelAck(_, _, _) => CancelOrderType
  }

  // A new order is version 1.
  function CallbackVersion(c: Callback): nat
    requires !c.CancelAllAck?
  {
    if c.PlaceAck? then 1 else c.version
  }

  function ErrorAnswer(s: Settings, f: InFlight, v: Verdict): Answer {
    if f.callback.CancelAllAck? then CancelAllResponse(s.streamId, f.requestId, v.(status := Rejected))
    else Response(s.streamId, f.callback.user, f.callback.orderId, CallbackType(f.callback), CallbackVersion(f.callback), v,
                  "", "", "", None)
  }

  function AckVerdict(ack: Ack): Verdict {
    Verdict(Exchange, if ack.retCode == 0 then Accepted else Rejected, Mapped(ack.retCode), ack.retMsg)
  }

  function SuccessAnswer(s: Settings, f: InFlight, ack: Ack): Answer {
    if f.callback.CancelAllAck? then CancelAllResponse(s.streamId, f.requestId, Verdict(Exchange, Accepted, NoError, ""))
    else if f.callback.PlaceAck? then
      Response(s.streamId, f.callback.user, f.callback.orderId, CreateOrderType, 1, AckVerdict(ack),
               ack.orderLinkId, ack.orderId, ack.orderLinkId, None)
    else
      Response(s.streamId, f.callback.user, f.callback.orderId, CallbackType(f.callback), f.callback.version, AckVerdict(ack),
               "", ack.orderId, "",
               Some(OrderUpdate(ack.symbol, ack.orderId, ack.orderQty, ack.orderPrice, ack.execQty, ack.orderQty - ack.execQty)))
  }

  function CaughtVerdict(t: Thrown): Verdict {
    match t
    case OmsException(verdict) => verdict
    case NetworkError(status, error, what) => Verdict(Gateway, status, error, what)
    case StdException(what) => Verdict(Exchange, Error, Unknown, what)
  }

  // What the guarded part does, before anything is caught.
  datatype Attempt = Terminates | Throws(thrown: Thrown) | Answers(answer: Answer)

  function Try(s: Settings, f: InFlight, c: Completion): Attempt {
    match c
    case NoResult(thrown) => Throws(thrown)
    case Result(category, status, statusText, body, unexpected) =>
      match category
      case UnknownCategory => Throws(unexpected)
      case Informational => Throws(unexpected)
      case Success =>
        (match body
         case Malformed(thrown) => Throws(thrown)
         case Decoded(ack) => Answers(SuccessAnswer(s, f, ack)))
      case Redirection => Terminates
      case ClientError =>
        if status == 403 && s.terminateOn403 then Terminates
        else if status == 403 || status == 429 then
          Answers(ErrorAnswer(s, f, Verdict(Exchange, Rejected, RequestRateLimitReached, statusText)))
        else Answers(ErrorAnswer(s, f, Verdict(Exchange, Rejected, Unknown, "")))
      case ServerError => Answers(ErrorAnswer(s, f, Verdict(Exchange, Rejected, Unknown, statusText)))
  }

  // throws[k] is what the dispatcher throws at the k-th call made for one completion.
  function ThrowAt(throws: seq<Option<Thrown>>, k: nat): Option<Thrown> {
    if k < |throws| then throws[k] else None
  }

  function EntriesFor(s: Settings, token: nat, f: InFlight, c: Completion, throws: seq<Option<Thrown>>): seq<Entry> {
    match Try(s, f, c)
    case Terminates => []
    case Throws(t) => [Answered(token, ErrorAnswer(s, f, CaughtVerdict(t)), ThrowAt(throws, 0))]
    case Answers(a) =>
      [Answered(token, a, ThrowAt(throws, 0))]
      + (match ThrowAt(throws, 0)
         case None => []
         case Some(t) => [Answered(token, ErrorAnswer(s, f, CaughtVerdict(t)), ThrowAt(throws, 1))])
  }

  // What leaves the splitter: an exception of the answer made while handling an exception.
  function Uncaught(s: Settings, f: InFlight, c: Completion, throws: seq<Option<Thrown>>): Option<Thrown> {
    match Try(s, f, c)
    case Terminates => None
    case Throws(_) => ThrowAt(throws, 0)
    case Answers(_) => if ThrowAt(throws, 0).None? then None else ThrowAt(throws, 1)
  }

  // ---- State and steps ----

  datatype Done = Done(completion: Completion, throws: seq<Option<Thrown>>)

  // The k-th request sent has token k; `issued` is what was asked for, `sent` the bytes, and `completed` how each
  // request ended and what the dispatcher did about it.
  datatype State = State(
    ready: bool,
    issued: seq<Action>,
    sent: seq<string>,
    inFlight: map<nat, InFlight>,
    completed: map<nat, Done>,
    log: seq<Entry>,
    terminated: bool)

  function Start(): State {
    State(false, [], [], map[], map[], [], false)
  }

  function Refusal(s: Settings, g: State, a: Action): Option<Outcome> {
    if a.Amend? && s.api.Spot? then Some(NotSupported)
    else if !g.ready then Some(NotReady)
    else None
  }

  function Send(s: Settings, g: State, a: Action): State {
    g.(issued := g.issued + [a], sent := g.sent + [BodyText(s.api, a)], inFlight := g.inFlight[|g.sent| := InFlightOf(a)])
  }

  function OnAction(s: Settings, g: State, a: Action): State {
    if Refusal(s, g, a).Some? then g else Send(s, g, a)
  }

  // One request, and one acknowledgement that it was forwarded.
  function SendForwarded(s: Settings, g: State, symbol: string, requestId: string): State {
    Send(s, g, CancelAll(symbol, requestId)).(log := g.log + [Forwarded(|g.sent|, symbol, requestId)])
  }

  // An empty filter selects every symbol that has orders.
  function SendAll(s: Settings, g: State, symbols: seq<string>, filter: string, requestId: string): State {
    if symbols == [] then g
    else
      var g' := SendAll(s, g, symbols[..|symbols| - 1], filter, requestId);
      var symbol := symbols[|symbols| - 1];
      if filter != "" && symbol != filter then g' else SendForwarded(s, g', symbol, requestId)
  }

  function OnCancelAll(s: Settings, g: State, symbols: seq<string>, filter: string, requestId: string): State {
    if g.ready then SendAll(s, g, symbols, filter, requestId) else g
  }

  function OnCompletion(s: Settings, g: State, token: nat, c: Completion, throws: seq<Option<Thrown>>): State
    requires token in g.inFlight
  {
    g.(inFlight := g.inFlight - {token},
       completed := g.completed[token := Done(c, throws)],
       log := g.log + EntriesFor(s, token, g.inFlight[token], c, throws),
       terminated := g.terminated || Try(s, g.inFlight[token], c).Terminates?)
  }

  // ---- The objects ----

  /** The dispatcher logs every call, whether it returns or throws. */
  class Dispatcher {
    var forwarded: seq<(string, string)>
    var answers: seq<Answer>
    ghost var log: seq<Entry>

    constructor ()
      ensures log == []
    {
      forwarded, answers, log := [], [], [];
    }

    method Forward(ghost token: nat, symbol: string, requestId: string)
      modifies this
      ensures log == old(log) + [Forwarded(token, symbol, requestId)]
      ensures forwarded == old(forwarded) + [(symbol, requestId)] && answers == old(answers)
    {
      forwarded := forwarded + [(symbol, requestId)];
      log := log + [Forwarded(token, symbol, requestId)];
    }

    method Dispatch(ghost token: nat, answer: Answer, throws: Option<Thrown>) returns (thrown: Option<Thrown>)
      modifies this
      ensures thrown == throws
      ensures log == old(log) + [Answered(token, answer, throws)]
      ensures answers == old(answers) + [answer] && forwarded == old(forwarded)
    {
      answers := answers + [answer];
      log := log + [Answered(token, answer, throws)];
      thrown := throws;
    }
  }

  /** The pipelined connection: it keeps the callback of every request until that request completes. */
  class Connection {
    var sent: seq<string>
    var inFlight: map<nat, InFlight>

    constructor ()
      ensures sent == [] && inFlight == map[]
    {
      sent, inFlight := [], map[];
    }

    method Request(body: string, f: InFlight)
      modifies this
      ensures sent == old(sent) + [body] && inFlight == old(inFlight)[|old(sent)| := f]
    {
      inFlight := inFlight[|sent| := f];
      sent := sent + [body];
    }

    method Take(token: nat) returns (f: InFlight)
      requires token in inFlight
      modifies this`inFlight
      ensures f == old(inFlight)[token] && inFlight == old(inFlight) - {token}
    {
      f := inFlight[token];
      inFlight := inFlight - {token};
    }
  }

  class OrderEntryRest {
    const settings: Settings
    const connection: Connection
    const dispatcher: Dispatcher
    const buffer: Buffer
    var ready: bool
    var terminated: bool
    ghost var issued: seq<Action>
    ghost var completed: map<nat, Done>

    ghost function View(): State
      reads this, connection, dispatcher
    {
      State(ready, issued, connection.sent, connection.inFlight, completed, dispatcher.log, terminated)
    }

    constructor (settings: Settings, connection: Connection, dispatcher: Dispatcher, buffer: Buffer)
      requires connection.sent == [] && connection.inFlight == map[] && dispatcher.log == []
      ensures this.settings == settings && this.connection == connection && this.dispatcher == dispatcher && this.buffer == buffer
      ensures View() == Start()
    {
      this.settings, this.connection, this.dispatcher, this.buffer := settings, connection, dispatcher, buffer;
      ready, terminated, issued, completed := false, false, [], map[];
    }

    // The encoded text is taken out of the reused buffer before the next request overwrites it.
    method SendBuffer(ghost a: Action, f: InFlight)
      requires buffer.text == BodyText(settings.api, a) && f == InFlightOf(a)
      modifies this`issued, connection
      ensures View() == Send(settings, old(View()), a)
    {
      hide BodyText;
      connection.Request(buffer.text, f);
      issued := issued + [a];
    }

    method PlaceOrder(user: nat, orderId: nat, create: CreateOrder, refData: RefData, requestId: string) returns (r: Outcome)
      modifies this`issued, connection, buffer
      ensures var a := Place(user, orderId, create, refData, requestId);
              && View() == OnAction(settings, old(View()), a)
              && r == match Refusal(settings, old(View()), a) case Some(refusal) => refusal case None => Sent
    {
      hide PlaceFields, Render;
      if !ready {
        return NotReady;
      }
      Encoder.PlaceOrder(buffer, create, refData, requestId, settings.api);
      SendBuffer(Place(user, orderId, create, refData, requestId), InFlight(PlaceAck(user, orderId), requestId));
      return Sent;
    }

    method AmendOrder(user: nat, orderId: nat, version: nat, change: ModifyOrder, order: Order, refData: RefData,
                      requestId: string, previousRequestId: string) returns (r: Outcome)
      modifies this`issued, connection, buffer
      ensures var a := Amend(user, orderId, version, change, order, refData, requestId, previousRequestId);
              && View() == OnAction(settings, old(View()), a)
              && r == match Refusal(settings, old(View()), a) case Some(refusal) => refusal case None => Sent
    {
      hide AmendFields, Render;
      if settings.api.Spot? {
        return NotSupported;
      }
      if !ready {
        return NotReady;
      }
      Encoder.AmendOrder(buffer, change, order, refData, previousRequestId, settings.api);
      SendBuffer(Amend(user, orderId, version, change, order, refData, requestId, previousRequestId),
                 InFlight(AmendAck(user, orderId, version), requestId));
      return Sent;
    }

    method CancelOrder(user: nat, orderId: nat, version: nat, order: Order, requestId: string, previousRequestId: string)
      returns (r: Outcome)
      modifies this`issued, connection, buffer
      ensures var a := Cancel(user, orderId, version, order, requestId, previousRequestId);
              && View() == OnAction(settings, old(View()), a)
              && r == match Refusal(settings, old(View()), a) case Some(refusal) => refusal case None => Sent
    {
      hide CancelFields, Render;
      if !ready {
        return NotReady;
      }
      Encoder.CancelOrder(buffer, order, previousRequestId, settings.api);
      SendBuffer(Cancel(user, orderId, version, order, requestId, previousRequestId),
                 InFlight(CancelAck(user, orderId, version), requestId));
      return Sent;
    }

    method CancelSymbol(symbol: string, requestId: string)
      modifies this`issued, connection, buffer, dispatcher
      ensures View() == SendForwarded(settings, old(View()), symbol, requestId)
    {
      hide Render, CancelAllFields;
      ghost var token := |connection.sent|;
      Encoder.CancelAllOrders(buffer, symbol, settings.api);
      SendBuffer(CancelAll(symbol, requestId), InFlight(CancelAllAck, requestId));
      dispatcher.Forward(token, symbol, requestId);
    }

    /** `symbols` is what the dispatcher visits: the symbols that have orders of the account. */
    method CancelAllOrders(symbols: seq<string>, filter: string, requestId: string) returns (r: Outcome)
      modifies this`issued, connection, buffer, dispatcher
      ensures View() == OnCancelAll(settings, old(View()), symbols, filter, requestId)
      ensures r == if old(ready) then Sent else NotReady
    {
      if !ready {
        return NotReady;
      }
      ghost var before := View();
      for i := 0 to |symbols|
        invariant ready && View() == SendAll(settings, before, symbols[..i], filter, requestId)
      {
        hide SendAll, SendForwarded, View;
        SendAllStep(settings, before, symbols[..i], symbols[i], filter, requestId);
        assert symbols[..i + 1] == symbols[..i] + [symbols[i]];
        if filter != "" && symbols[i] != filter {
          continue;
        }
        CancelSymbol(symbols[i], requestId);
      }
      assert symbols[..|symbols|] == symbols;
      return Sent;
    }

    method HandleError(ghost token: nat, f: InFlight, v: Verdict, throws: Option<Thrown>) returns (thrown: Option<Thrown>)
      modifies dispatcher
      ensures thrown == throws
      ensures dispatcher.log == old(dispatcher.log) + [Answered(token, ErrorAnswer(settings, f, v), throws)]
    {
      thrown := dispatcher.Dispatch(token, ErrorAnswer(settings, f, v), throws);
    }

    method HandleSuccess(ghost token: nat, f: InFlight, body: Body, throws: Option<Thrown>) returns (thrown: Option<Thrown>)
      modifies dispatcher
      ensures thrown == if body.Malformed? then Some(body.thrown) else throws
      ensures dispatcher.log == old(dispatcher.log)
                                + if body.Malformed? then [] else [Answered(token, SuccessAnswer(settings, f, body.ack), throws)]
    {
      match body
      case Malformed(e) => thrown := Some(e);
      case Decoded(ack) => thrown := dispatcher.Dispatch(token, SuccessAnswer(settings, f, ack), throws);
    }

    // The guarded part: what it throws, and how often it called the dispatcher.
    method Splitter(ghost token: nat, f: InFlight, c: Completion, throws: seq<Option<Thrown>>)
      returns (e: Option<Thrown>, calls: nat)
      modifies this`terminated, dispatcher
      ensures terminated == (old(terminated) || Try(settings, f, c).Terminates?)
      ensures calls == if Try(settings, f, c).Answers? then 1 else 0
      ensures e == match Try(settings, f, c)
                   case Terminates => None
                   case Throws(thrown) => Some(thrown)
                   case Answers(_) => ThrowAt(throws, 0)
      ensures dispatcher.log == old(dispatcher.log)
                + (match Try(settings, f, c)
                   case Answers(answer) => [Answered(token, answer, ThrowAt(throws, 0))]
                   case _ => [])
    {
      hide ErrorAnswer, SuccessAnswer;
      e, calls := None, 0;
      match c {
        case NoResult(thrown) =>
          e := Some(thrown);
        case Result(category, status, statusText, body, unexpected) =>
          match category {
            case UnknownCategory =>
              e := Some(unexpected);
            case Informational =>
              e := Some(unexpected);
            case Success =>
              e := HandleSuccess(token, f, body, ThrowAt(throws, 0));
              calls := if body.Decoded? then 1 else 0;
            case Redirection =>
              terminated := true;
            case ClientError =>
              if status == 403 && settings.terminateOn403 {
                terminated := true;
                return;
              }
              var v := if status == 403 || status == 429 then Verdict(Exchange, Rejected, RequestRateLimitReached, statusText)
                       else Verdict(Exchange, Rejected, Unknown, "");
              e := HandleError(token, f, v, ThrowAt(throws, 0));
              calls := 1;
            case ServerError =>
              e := HandleError(token, f, Verdict(Exchange, Rejected, Unknown, statusText), ThrowAt(throws, 0));
              calls := 1;
          }
      }
    }

    /** One completion: the callback is taken, the splitter runs, and whatever it throws is answered as an error.
        An exception of that last answer is not caught. */
    method OnResponse(token: nat, c: Completion, throws: seq<Option<Thrown>>) returns (uncaught: Option<Thrown>)
      requires token in connection.inFlight
      modifies this`terminated, this`completed, connection`inFlight, dispatcher
      ensures View() == OnCompletion(settings, old(View()), token, c, throws)
      ensures uncaught == Uncaught(settings, old(connection.inFlight[token]), c, throws)
    {
      hide ErrorAnswer, CaughtVerdict, Try, ThrowAt;
      var f := connection.Take(token);
      completed := completed[token := Done(c, throws)];
      var e, calls := Splitter(token, f, c, throws);
      uncaught := None;
      if e.Some? {
        uncaught := HandleError(token, f, CaughtVerdict(e.value), ThrowAt(throws, calls));
      }
    }
  }

  lemma SendAllStep(s: Settings, g: State, symbols: seq<string>, symbol: string, filter: string, requestId: string)
    ensures SendAll(s, g, symbols + [symbol], filter, requestId)
         == var g' := SendAll(s, g, symbols, filter, requestId);
            if filter != "" && symbol != filter then g' else SendForwarded(s, g', symbol, requestId)
  {
    assert (symbols + [symbol])[..|symbols|] == symbols;
  }
}
