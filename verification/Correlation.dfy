// Which answers belong to which request, over any interleaving of pipelined requests and completions.

module Correlation {
  import opened Options
  import opened Json
  import opened Orders
  import opened Encoder
  import opened OrderReader
  import opened OrderEntry

  datatype Event =
    | StatusChange(ready: bool)
    | Action(action: OrderEntry.Action)
    | CancelAllOrders(symbols: seq<string>, filter: string, requestId: string)
    | Completed(token: nat, completion: Completion, throws: seq<Option<Thrown>>)

  // A callback is called at most once, for a request that was sent; nothing happens after the process has terminated.
  predicate CanHappen(g: State, e: Event) {
    && !g.terminated
    && (e.Action? ==> !e.action.CancelAll?)
    && (e.Completed? ==> e.token in g.inFlight)
  }

  function Next(s: OrderEntry.Settings, g: State, e: Event): State
    requires CanHappen(g, e)
  {
    match e
    case StatusChange(ready) => g.(ready := ready)
    case Action(action) => OnAction(s, g, action)
    case CancelAllOrders(symbols, filter, requestId) => OnCancelAll(s, g, symbols, filter, requestId)
    case Completed(token, completion, throws) => OnCompletion(s, g, token, completion, throws)
  }

  // An event that cannot happen is ignored, so runs are arbitrary lists of events.
  function Run(s: OrderEntry.Settings, events: seq<Event>): State {
    if events == [] then Start()
    else
      var g := Run(s, events[..|events| - 1]);
      var e := events[|events| - 1];
      if CanHappen(g, e) then Next(s, g, e) else g
  }

  // ---- Answers of one request ----

  predicate About(e: Entry, token: nat) {
    e.Answered? && e.token == token
  }

  // The answers about one request, with what the dispatcher threw; forwarding is not an answer.
  function AnswersTo(log: seq<Entry>, token: nat): seq<Entry> {
    if log == [] then []
    else
      var e := log[|log| - 1];
      AnswersTo(log[..|log| - 1], token) + (if About(e, token) then [e] else [])
  }

  // The identity a request was made under.
  predicate Identifies(s: OrderEntry.Settings, e: Entry, a: OrderEntry.Action) {
    e.Answered? && e.answer.streamId == s.streamId &&
    match a
    case Place(user, orderId, _, _, _) =>
      && e.answer.Response? && e.answer.requestType == CreateOrderType
      && e.answer.user == user && e.answer.orderId == orderId && e.answer.version == 1
    case Amend(user, orderId, version, _, _, _, _, _) =>
      && e.answer.Response? && e.answer.requestType == ModifyOrderType
      && e.answer.user == user && e.answer.orderId == orderId && e.answer.version == version
    case Cancel(user, orderId, version, _, _, _) =>
      && e.answer.Response? && e.answer.requestType == CancelOrderType
      && e.answer.user == user && e.answer.orderId == orderId && e.answer.version == version
    case CancelAll(_, requestId) => e.answer.CancelAllResponse? && e.answer.requestId == requestId
  }

  lemma {:induction false} AnswersConcat(a: seq<Entry>, b: seq<Entry>, token: nat)
    ensures AnswersTo(a + b, token) == AnswersTo(a, token) + AnswersTo(b, token)
  {
    if b == [] {
      assert a + b == a;
    } else {
      var n := |b| - 1;
      assert (a + b)[..|a| + n] == a + b[..n];
      AnswersConcat(a, b[..n], token);
    }
  }

  lemma {:induction false} AnswersAll(log: seq<Entry>, token: nat)
    requires forall i | 0 <= i < |log| :: About(log[i], token)
    ensures AnswersTo(log, token) == log
  {
    if log != [] {
      var n := |log| - 1;
      AnswersAll(log[..n], token);
      assert log == log[..n] + [log[n]];
    }
  }

  lemma {:induction false} AnswersNone(log: seq<Entry>, token: nat)
    requires forall i | 0 <= i < |log| :: !About(log[i], token)
    ensures AnswersTo(log, token) == []
  {
    if log != [] {
      AnswersNone(log[..|log| - 1], token);
    }
  }

  // The completions that end the process: a redirection, and a 403 when that is what the settings ask for.
  predicate Ends(s: OrderEntry.Settings, c: Completion) {
    c.Result? && (c.category.Redirection? || (c.category.ClientError? && c.status == 403 && s.terminateOn403))
  }

  // The completions answered in the regular course: an acknowledgement that decodes, and an error of either side.
  predicate Regular(s: OrderEntry.Settings, c: Completion) {
    c.Result? && !Ends(s, c) && ((c.category.Success? && c.body.Decoded?) || c.category.ClientError? || c.category.ServerError?)
  }

  lemma Attempts(s: OrderEntry.Settings, f: InFlight, c: Completion)
    ensures Try(s, f, c).Terminates? <==> Ends(s, c)
    ensures Try(s, f, c).Answers? <==> Regular(s, c)
  {
  }

  /** What one completion makes the dispatcher see: answers under the identity of the request, two of them exactly
      when it threw at an answer given in the regular course, none exactly when the process is terminated. */
  lemma CompletionAnswers(s: OrderEntry.Settings, token: nat, a: OrderEntry.Action, d: Done)
    ensures var entries := EntriesFor(s, token, InFlightOf(a), d.completion, d.throws);
            && (forall i | 0 <= i < |entries| :: About(entries[i], token) && Identifies(s, entries[i], a))
            && |entries| == (if Ends(s, d.completion) then 0
                             else if Regular(s, d.completion) && ThrowAt(d.throws, 0).Some? then 2 else 1)
            && (forall i | 0 <= i < |entries| :: entries[i].thrown == ThrowAt(d.throws, i))
  {
    hide AckVerdict, CaughtVerdict;
  }

  /** What leaves the response handling is what the dispatcher throws at an answer to an exception, and nothing else. */
  lemma UncaughtExactly(s: OrderEntry.Settings, a: OrderEntry.Action, d: Done)
    ensures Uncaught(s, InFlightOf(a), d.completion, d.throws)
         == if Ends(s, d.completion) then None
            else if !Regular(s, d.completion) then ThrowAt(d.throws, 0)
            else if ThrowAt(d.throws, 0).Some? then ThrowAt(d.throws, 1)
            else None
  {
    hide ErrorAnswer, SuccessAnswer;
  }

  // ---- What an answer says ----

  predicate Says(v: Verdict, origin: Origin, status: RequestStatus, error: ErrorCode, text: string) {
    v.origin == origin && v.status == status && v.error == error && v.text == text
  }

  // How an exception is answered; a cancel-all is rejected whatever the exception carries.
  predicate SaysException(v: Verdict, t: Thrown, cancelAll: bool) {
    match t
    case OmsException(carried) => Says(v, carried.origin, if cancelAll then Rejected else carried.status, carried.error, carried.text)
    case NetworkError(status, error, what) => Says(v, Gateway, if cancelAll then Rejected else status, error, what)
    case StdException(what) => Says(v, Exchange, if cancelAll then Rejected else Error, Unknown, what)
  }

  // An error names no ids and brings no update.
  predicate NamesNothing(e: Entry) {
    e.Answered? && (e.answer.Response? ==>
      e.answer.requestId == e.answer.externalOrderId == e.answer.clientOrderId == "" && e.answer.update == None)
  }

  /** An exception is answered with its own origin, status, error and text: one of the request, an unexpected status, a
      body that does not decode, and one of the dispatcher at a regular answer. */
  lemma ExceptionAnswered(s: OrderEntry.Settings, token: nat, a: OrderEntry.Action, d: Done)
    ensures var entries := EntriesFor(s, token, InFlightOf(a), d.completion, d.throws);
            var c := d.completion;
            && (c.NoResult? ==>
                  |entries| == 1 && NamesNothing(entries[0]) && SaysException(entries[0].answer.verdict, c.thrown, a.CancelAll?))
            && (c.Result? && (c.category.UnknownCategory? || c.category.Informational?) ==>
                  |entries| == 1 && NamesNothing(entries[0]) && SaysException(entries[0].answer.verdict, c.unexpected, a.CancelAll?))
            && (c.Result? && c.category.Success? && c.body.Malformed? ==>
                  |entries| == 1 && NamesNothing(entries[0]) && SaysException(entries[0].answer.verdict, c.body.thrown, a.CancelAll?))
            && (Regular(s, c) && ThrowAt(d.throws, 0).Some? ==>
                  |entries| == 2 && NamesNothing(entries[1])
                  && SaysException(entries[1].answer.verdict, ThrowAt(d.throws, 0).value, a.CancelAll?))
  {
  }

  /** An error of the exchange is a rejection by the exchange: of the rate limit with the text of the status for a 429
      and a tolerated 403, unknown without a text for another client error, and unknown with the text of the status
      for a server error. */
  lemma ErrorAnswered(s: OrderEntry.Settings, token: nat, a: OrderEntry.Action, d: Done)
    requires d.completion.Result? && !Ends(s, d.completion)
    requires d.completion.category.ClientError? || d.completion.category.ServerError?
    ensures var entries := EntriesFor(s, token, InFlightOf(a), d.completion, d.throws);
            var c := d.completion;
            && entries != [] && NamesNothing(entries[0])
            && var v := entries[0].answer.verdict;
               if c.category.ServerError? then Says(v, Exchange, Rejected, Unknown, c.statusText)
               else if c.status == 403 || c.status == 429 then Says(v, Exchange, Rejected, RequestRateLimitReached, c.statusText)
               else Says(v, Exchange, Rejected, Unknown, "")
  {
  }

  /** An acknowledgement is passed on: accepted by the exchange for code 0 and rejected otherwise, with the code and the
      message, under the exchange's order id; a new order's also under the link id, an amended or cancelled order's
      with its symbol and quantities, what remains being what has not been executed.  A cancel-all is accepted without
      details. */
  lemma AcknowledgementAnswered(s: OrderEntry.Settings, token: nat, a: OrderEntry.Action, d: Done)
    requires d.completion.Result? && d.completion.category.Success? && d.completion.body.Decoded?
    ensures var entries := EntriesFor(s, token, InFlightOf(a), d.completion, d.throws);
            var ack := d.completion.body.ack;
            && entries != [] && entries[0].Answered?
            && var answer := entries[0].answer;
               if a.CancelAll? then answer.CancelAllResponse? && Says(answer.verdict, Exchange, Accepted, NoError, "")
               else
                 && answer.Response?
                 && Says(answer.verdict, Exchange, if ack.retCode == 0 then Accepted else Rejected, Mapped(ack.retCode), ack.retMsg)
                 && answer.externalOrderId == ack.orderId
                 && answer.requestId == answer.clientOrderId == (if a.Place? then ack.orderLinkId else "")
                 && (answer.update.None? <==> a.Place?)
                 && (!a.Place? ==>
                       var u := answer.update.value;
                       && u.symbol == ack.symbol && u.externalOrderId == ack.orderId
                       && u.quantity == ack.orderQty && u.price == ack.orderPrice && u.tradedQuantity == ack.execQty
                       && ack.execQty + u.remainingQuantity == ack.orderQty)
  {
  }

  // ---- All runs ----

  ghost predicate TokenOk(s: OrderEntry.Settings, g: State, t: nat) {
    var answers := AnswersTo(g.log, t);
    if t >= |g.issued| || t in g.inFlight then
      answers == [] && t !in g.completed
    else
      && t in g.completed
      && answers == EntriesFor(s, t, InFlightOf(g.issued[t]), g.completed[t].completion, g.completed[t].throws)
      && (!g.terminated ==> !Try(s, InFlightOf(g.issued[t]), g.completed[t].completion).Terminates?)
  }

  ghost predicate Ok(s: OrderEntry.Settings, g: State) {
    && |g.issued| == |g.sent|
    && (forall t | 0 <= t < |g.issued| :: g.sent[t] == BodyText(s.api, g.issued[t]))
    && (forall t | 0 <= t < |g.issued| :: s.api.Spot? ==> !g.issued[t].Amend?)
    && (forall t | t in g.inFlight :: t < |g.issued| && g.inFlight[t] == InFlightOf(g.issued[t]))
    && (forall t: nat :: TokenOk(s, g, t))
  }

  lemma SendKeeps(s: OrderEntry.Settings, g: State, a: OrderEntry.Action)
    requires Ok(s, g) && (s.api.Spot? ==> !a.Amend?)
    ensures Ok(s, Send(s, g, a))
  {
    hide BodyText, InFlightOf, EntriesFor, Try, AnswersTo;
    var g' := Send(s, g, a);
    forall t: nat ensures TokenOk(s, g', t) {
      assert TokenOk(s, g, t);
    }
  }

  lemma ForwardKeeps(s: OrderEntry.Settings, g: State, token: nat, symbol: string, requestId: string)
    requires Ok(s, g)
    ensures Ok(s, g.(log := g.log + [Forwarded(token, symbol, requestId)]))
  {
    hide BodyText, InFlightOf, EntriesFor, Try;
    hide AnswersTo;
    var more := [Forwarded(token, symbol, requestId)];
    forall t: nat ensures TokenOk(s, g.(log := g.log + more), t) {
      assert TokenOk(s, g, t);
      AnswersConcat(g.log, more, t);
      AnswersNone(more, t);
      assert AnswersTo(g.log, t) + [] == AnswersTo(g.log, t);
    }
  }

  lemma {:induction false} SendAllKeeps(s: OrderEntry.Settings, g: State, symbols: seq<string>, filter: string, requestId: string)
    requires Ok(s, g)
    ensures Ok(s, SendAll(s, g, symbols, filter, requestId))
  {
    if symbols != [] {
      hide Ok, Send;
      var front, symbol := symbols[..|symbols| - 1], symbols[|symbols| - 1];
      SendAllKeeps(s, g, front, filter, requestId);
      var g' := SendAll(s, g, front, filter, requestId);
      SendKeeps(s, g', CancelAll(symbol, requestId));
      ForwardedLog(s, g', symbol, requestId);
      ForwardKeeps(s, Send(s, g', CancelAll(symbol, requestId)), |g'.sent|, symbol, requestId);
    }
  }

  lemma ForwardedLog(s: OrderEntry.Settings, g: State, symbol: string, requestId: string)
    ensures var sent := Send(s, g, CancelAll(symbol, requestId));
            SendForwarded(s, g, symbol, requestId) == sent.(log := sent.log + [Forwarded(|g.sent|, symbol, requestId)])
  {
  }

  lemma CompletionKeeps(s: OrderEntry.Settings, g: State, token: nat, c: Completion, throws: seq<Option<Thrown>>)
    requires Ok(s, g) && token in g.inFlight && !g.terminated
    ensures Ok(s, OnCompletion(s, g, token, c, throws))
  {
    hide BodyText, InFlightOf, EntriesFor, Try, AnswersTo;
    var g' := OnCompletion(s, g, token, c, throws);
    var entries := EntriesFor(s, token, g.inFlight[token], c, throws);
    CompletionAnswers(s, token, g.issued[token], Done(c, throws));
    forall t: nat ensures TokenOk(s, g', t) {
      assert TokenOk(s, g, t);
      AnswersConcat(g.log, entries, t);
      if t == token {
        AnswersAll(entries, t);
        assert AnswersTo(g'.log, t) == entries;
      } else {
        AnswersNone(entries, t);
        assert AnswersTo(g'.log, t) == AnswersTo(g.log, t);
      }
    }
  }

  lemma NextKeeps(s: OrderEntry.Settings, g: State, e: Event)
    requires Ok(s, g) && CanHappen(g, e)
    ensures Ok(s, Next(s, g, e))
  {
    hide Send, SendAll, OnCompletion, BodyText;
    match e
    case StatusChange(ready) =>
      StatusKeeps(s, g, ready);
    case Action(action) =>
      if Refusal(s, g, action).None? {
        SendKeeps(s, g, action);
      }
    case CancelAllOrders(symbols, filter, requestId) =>
      SendAllKeeps(s, g, symbols, filter, requestId);
    case Completed(token, completion, throws) =>
      CompletionKeeps(s, g, token, completion, throws);
  }

  lemma StatusKeeps(s: OrderEntry.Settings, g: State, ready: bool)
    requires Ok(s, g)
    ensures Ok(s, g.(ready := ready))
  {
    hide BodyText, InFlightOf, EntriesFor, Try, AnswersTo;
    forall t: nat ensures TokenOk(s, g.(ready := ready), t) {
      assert TokenOk(s, g, t);
    }
  }

  lemma {:induction false} RunOk(s: OrderEntry.Settings, events: seq<Event>)
    ensures Ok(s, Run(s, events))
  {
    if events != [] {
      hide Ok, Next;
      var front := events[..|events| - 1];
      RunOk(s, front);
      if CanHappen(Run(s, front), events[|events| - 1]) {
        NextKeeps(s, Run(s, front), events[|events| - 1]);
      }
    }
  }

  /** Over any interleaving: a request in flight has no answer.  A completed request has exactly the answers of its
      own completion, under its own type, user, order and version: one while the process lives, and a second exactly
      when the dispatcher threw at the first and that was given in the regular course. */
  lemma RequestCorrelation(s: OrderEntry.Settings, events: seq<Event>, t: nat)
    ensures var g := Run(s, events);
            var answers := AnswersTo(g.log, t);
            && |g.issued| == |g.sent|
            && (t >= |g.issued| || t in g.inFlight ==> answers == [])
            && (t < |g.issued| && t !in g.inFlight ==>
                  && t in g.completed
                  && var d := g.completed[t];
                     && answers == EntriesFor(s, t, InFlightOf(g.issued[t]), d.completion, d.throws)
                     && (forall i | 0 <= i < |answers| :: Identifies(s, answers[i], g.issued[t]))
                     && (!g.terminated ==> |answers| == if Regular(s, d.completion) && ThrowAt(d.throws, 0).Some? then 2 else 1))
  {
    hide Run, EntriesFor, Try, InFlightOf, Identifies, Regular, Ends;
    RunOk(s, events);
    var g := Run(s, events);
    assert TokenOk(s, g, t);
    if t < |g.issued| && t !in g.inFlight {
      CompletionAnswers(s, t, g.issued[t], g.completed[t]);
      Attempts(s, InFlightOf(g.issued[t]), g.completed[t].completion);
    }
  }

  // ---- When a request is sent ----

  /** An order action is sent exactly when the connection is ready, and an amendment only off spot; otherwise it is
      refused, an amendment on spot because it is not supported and anything else because it is not ready, and
      nothing changes. */
  lemma SentExactlyWhenReady(s: OrderEntry.Settings, g: State, a: OrderEntry.Action)
    requires CanHappen(g, Action(a))
    ensures var g' := Next(s, g, Action(a));
            && (|g'.sent| == |g.sent| + 1 <==> g.ready && !(s.api.Spot? && a.Amend?))
            && (!(g.ready && !(s.api.Spot? && a.Amend?)) ==> g' == g)
            && (Refusal(s, g, a) == Some(NotSupported) <==> s.api.Spot? && a.Amend?)
            && (Refusal(s, g, a) == Some(NotReady) <==> !g.ready && !(s.api.Spot? && a.Amend?))
            && g'.log == g.log && g'.ready == g.ready
  {
    hide BodyText;
  }

  /** A cancel-all sends nothing while the connection is not ready; only a status changes readiness, and only order
      actions send. */
  lemma NothingElseIsSent(s: OrderEntry.Settings, g: State, e: Event)
    requires CanHappen(g, e)
    ensures e.CancelAllOrders? && !g.ready ==> Next(s, g, e) == g
    ensures e.StatusChange? ==> Next(s, g, e) == g.(ready := e.ready)
    ensures e.Completed? ==> Next(s, g, e).sent == g.sent && Next(s, g, e).ready == g.ready
  {
  }

  /** Nothing is sent, and nothing answered, before a status makes the connection ready. */
  lemma {:induction false} NothingBeforeReady(s: OrderEntry.Settings, events: seq<Event>)
    requires forall e | e in events :: !(e.StatusChange? && e.ready)
    ensures var g := Run(s, events);
            !g.ready && g.sent == [] && g.issued == [] && g.inFlight == map[] && g.log == [] && !g.terminated
  {
    if events != [] {
      NothingBeforeReady(s, events[..|events| - 1]);
      assert events[|events| - 1] in events;
    }
  }

  // ---- What was sent for a request ----

  /** The bytes of every request of every run, although all are written into one buffer, read as the order the
      request was made for, exactly when the symbol and the ids on the wire need no escaping; and spot never amends. */
  lemma RequestReadsBack(s: OrderEntry.Settings, events: seq<Event>, t: nat)
    requires t < |Run(s, events).issued|
    ensures var g := Run(s, events);
            && t < |g.sent|
            && match g.issued[t]
               case Place(_, _, create, refData, id) =>
                 ReadPlace(g.sent[t]) == Some(PlaceRequested(create, refData, id, s.api)) <==> CleanText(create.symbol) && CleanText(id)
               case Amend(_, _, _, change, order, refData, _, previous) =>
                 && !s.api.Spot?
                 && (ReadAmend(g.sent[t]) == Some(AmendRequested(change, order, refData, previous, s.api))
                     <==> CleanText(order.symbol) && CleanText(RefOf(order, previous).id))
               case Cancel(_, _, _, order, _, previous) =>
                 ReadCancel(g.sent[t]) == Some(CancelRequested(order, previous, s.api))
                 <==> CleanText(order.symbol) && CleanText(RefOf(order, previous).id)
               case CancelAll(symbol, _) =>
                 ReadCancelAll(g.sent[t]) == Some(CancelAllRequest(s.api, symbol)) <==> CleanText(symbol)
  {
    hide Run, ReadPlace, ReadAmend, ReadCancel, ReadCancelAll, PlaceRequested, AmendRequested, CancelRequested, PlaceFields, AmendFields,
         CancelFields, CancelAllFields, Render, CleanText, RefOf;
    RunOk(s, events);
    match Run(s, events).issued[t]
    case Place(_, _, create, refData, id) => PlaceRoundTrip(create, refData, id, s.api);
    case Amend(_, _, _, change, order, refData, _, previous) => AmendRoundTrip(change, order, refData, previous, s.api);
    case Cancel(_, _, _, order, _, previous) => CancelRoundTrip(order, previous, s.api);
    case CancelAll(symbol, _) => CancelAllRoundTrip(symbol, s.api);
  }

  // ---- What the answers say ----

  predicate Accepting(e: Entry) {
    e.Answered? && e.answer.verdict.status == Accepted
  }

  // The status and the error that an exception carries.
  predicate ClaimsStatus(t: Thrown, status: RequestStatus) {
    match t
    case OmsException(verdict) => verdict.status == status
    case NetworkError(carried, _, _) => carried == status
    case StdException(_) => false
  }

  predicate ClaimsError(t: Thrown, error: ErrorCode) {
    match t
    case OmsException(verdict) => verdict.error == error
    case NetworkError(_, carried, _) => carried == error
    case StdException(_) => false
  }

  // The exceptions that may be met on the way of one completion.
  ghost predicate MayBeThrown(d: Done, t: Thrown) {
    || (d.completion.NoResult? && t == d.completion.thrown)
    || (d.completion.Result? && t == d.completion.unexpected)
    || (d.completion.Result? && d.completion.body.Malformed? && t == d.completion.body.thrown)
    || Some(t) in d.throws
  }

  // No exception claims that a request was accepted.
  ghost predicate Refusing(d: Done) {
    forall t | MayBeThrown(d, t) :: !ClaimsStatus(t, Accepted)
  }

  lemma PossibleThrows(d: Done)
    ensures d.completion.NoResult? ==> MayBeThrown(d, d.completion.thrown)
    ensures d.completion.Result? ==> MayBeThrown(d, d.completion.unexpected)
    ensures d.completion.Result? && d.completion.body.Malformed? ==> MayBeThrown(d, d.completion.body.thrown)
    ensures ThrowAt(d.throws, 0).Some? ==> MayBeThrown(d, ThrowAt(d.throws, 0).value)
  {
    if ThrowAt(d.throws, 0).Some? {
      assert d.throws[0] == Some(ThrowAt(d.throws, 0).value);
    }
  }

  predicate Acknowledged(a: OrderEntry.Action, c: Completion) {
    c.Result? && c.category.Success? && c.body.Decoded? && (a.CancelAll? || c.body.ack.retCode == 0)
  }

  /** A request is reported as accepted exactly when the exchange acknowledged it with code 0 (for a cancel-all, with
      any code), and an acceptance is contradicted by a later answer exactly when the dispatcher threw at it. */
  lemma AcceptedExactlyWhenAcknowledged(s: OrderEntry.Settings, token: nat, a: OrderEntry.Action, d: Done)
    requires Refusing(d)
    ensures var entries := EntriesFor(s, token, InFlightOf(a), d.completion, d.throws);
            && ((exists e :: e in entries && Accepting(e)) <==> Acknowledged(a, d.completion))
            && (Acknowledged(a, d.completion) ==>
                  && Accepting(entries[0])
                  && (|entries| == 2 <==> ThrowAt(d.throws, 0).Some?)
                  && (|entries| == 2 ==> !Accepting(entries[1])))
  {
    PossibleThrows(d);
    var entries := EntriesFor(s, token, InFlightOf(a), d.completion, d.throws);
    assert forall e | e in entries :: e == entries[0] || (|entries| == 2 && e == entries[1]);
    assert Acknowledged(a, d.completion) ==> entries[0] in entries;
  }

  // No exception claims that a rate limit was reached.
  ghost predicate NotLimiting(d: Done) {
    forall t | MayBeThrown(d, t) :: !ClaimsError(t, RequestRateLimitReached)
  }

  /** A rate limit is reported exactly for a client error with status 403, unless that ends the process, or 429. */
  lemma RateLimitExactly(s: OrderEntry.Settings, token: nat, a: OrderEntry.Action, d: Done)
    requires NotLimiting(d)
    ensures var entries := EntriesFor(s, token, InFlightOf(a), d.completion, d.throws);
            (exists e :: e in entries && e.Answered? && e.answer.verdict.error == RequestRateLimitReached)
            <==> && d.completion.Result? && d.completion.category.ClientError?
                 && (d.completion.status == 429 || (d.completion.status == 403 && !s.terminateOn403))
  {
    PossibleThrows(d);
    var entries := EntriesFor(s, token, InFlightOf(a), d.completion, d.throws);
    assert forall e | e in entries :: e == entries[0] || (|entries| == 2 && e == entries[1]);
    assert entries != [] ==> entries[0] in entries;
  }

  // The link id that the exchange reads off the bytes of a request.
  function LinkIdRead(text: string): Option<string> {
    var r :- ReadPlace(text);
    Some(r.orderLinkId)
  }

  // While request ids are not reused.
  ghost predicate DistinctPlaceIds(issued: seq<OrderEntry.Action>) {
    forall i, j | 0 <= i < j < |issued| && issued[i].Place? && issued[j].Place? :: issued[i].requestId != issued[j].requestId
  }

  /** Over any run, let the exchange acknowledge new order t with the link id it read off the bytes of new order u.
      The first answer then goes to the user and order of t and names the request of u; so, while request ids are not
      reused, it names its own request exactly when the exchange answered that request. */
  lemma AnswerNamesAnsweredOrder(s: OrderEntry.Settings, events: seq<Event>, t: nat, u: nat, ack: Ack)
    requires var g := Run(s, events);
             && t < |g.issued| && g.issued[t].Place? && t !in g.inFlight && t in g.completed
             && g.completed[t].completion.Result? && g.completed[t].completion.category.Success?
             && g.completed[t].completion.body == Decoded(ack)
    requires var g := Run(s, events);
             && u < |g.issued| && |g.issued| == |g.sent|
             && g.issued[u].Place? && CleanText(g.issued[u].create.symbol) && CleanText(g.issued[u].requestId)
             && LinkIdRead(g.sent[u]) == Some(ack.orderLinkId)
    ensures var g := Run(s, events);
            var answers := AnswersTo(g.log, t);
            && answers != [] && answers[0].Answered? && answers[0].answer.Response?
            && var answer := answers[0].answer;
               && answer.user == g.issued[t].user && answer.orderId == g.issued[t].orderId
               && answer.requestId == answer.clientOrderId == g.issued[u].requestId
               && (DistinctPlaceIds(g.issued) ==> (answer.requestId == g.issued[t].requestId <==> u == t))
  {
    hide Run, ReadPlace, PlaceFields, Render, CleanText, AnswersTo;
    RequestCorrelation(s, events, t);
    RequestReadsBack(s, events, u);
  }

  // A new order is sent and completes, and nothing else happens.
  lemma OneOrder(s: OrderEntry.Settings, a: OrderEntry.Action, d: Done)
    requires a.Place?
    ensures var g := Run(s, [StatusChange(true), Action(a), Completed(0, d.completion, d.throws)]);
            g.issued == [a] && g.log == EntriesFor(s, 0, InFlightOf(a), d.completion, d.throws)
  {
    hide EntriesFor, Try, BodyText;
    var e1, e2, e3 := StatusChange(true), Action(a), Completed(0, d.completion, d.throws);
    assert [e1, e2, e3][..2] == [e1, e2] && [e1, e2][..1] == [e1] && [e1][..0] == [];
    var g1, g2 := Run(s, [e1]), Run(s, [e1, e2]);
    assert Run(s, []) == Start();
    assert g1 == Start().(ready := true);
    assert g2 == Send(s, g1, a);
    assert Run(s, [e1, e2, e3]) == OnCompletion(s, g2, 0, d.completion, d.throws);
    assert [] + EntriesFor(s, 0, InFlightOf(a), d.completion, d.throws) == EntriesFor(s, 0, InFlightOf(a), d.completion, d.throws);
  }

  /** It happens: the exchange accepts a new order, the dispatcher throws when told so, and is then told of an error. */
  lemma AcceptedThenFailed(s: OrderEntry.Settings, create: CreateOrder, refData: RefData)
    ensures var a := Place(7, 42, create, refData, "id");
            var ok := Result(Success, 200, "OK", Decoded(Ack(0, "OK", "x", "id", "", 0, 0, 0)), StdException(""));
            var g := Run(s, [StatusChange(true), Action(a), Completed(0, ok, [Some(StdException("failed"))])]);
            var answers := AnswersTo(g.log, 0);
            && g.issued == [a]
            && |answers| == 2 && Identifies(s, answers[0], a) && Identifies(s, answers[1], a)
            && answers[0].answer.verdict.status == Accepted
            && answers[1].answer.verdict == Verdict(Exchange, Error, Unknown, "failed")
  {
    var a := Place(7, 42, create, refData, "id");
    var ok := Result(Success, 200, "OK", Decoded(Ack(0, "OK", "x", "id", "", 0, 0, 0)), StdException(""));
    var d := Done(ok, [Some(StdException("failed"))]);
    hide Run, AnswersTo, EntriesFor, Try, ErrorAnswer, SuccessAnswer, Identifies;
    OneOrder(s, a, d);
    CompletionAnswers(s, 0, a, d);
    AcknowledgementAnswered(s, 0, a, d);
    ExceptionAnswered(s, 0, a, d);
    AnswersAll(EntriesFor(s, 0, InFlightOf(a), ok, d.throws), 0);
  }

  // ---- Cancelling everything ----

  function Selected(symbols: seq<string>, filter: string): seq<string> {
    if symbols == [] then []
    else
      var symbol := symbols[|symbols| - 1];
      Selected(symbols[..|symbols| - 1], filter) + (if filter != "" && symbol != filter then [] else [symbol])
  }

  lemma {:induction false} SelectedExactly(symbols: seq<string>, filter: string)
    ensures filter == "" ==> Selected(symbols, filter) == symbols
    ensures filter != "" ==>
              && (forall x | x in Selected(symbols, filter) :: x == filter)
              && |Selected(symbols, filter)| == multiset(symbols)[filter]
  {
    if symbols != [] {
      var front, symbol := symbols[..|symbols| - 1], symbols[|symbols| - 1];
      SelectedExactly(front, filter);
      assert symbols == front + [symbol];
    }
  }

  /** A cancel-all sends one request for each selected symbol in order, each followed by its own acknowledgement that
      it was forwarded, and gives no answer yet. */
  lemma {:induction false} CancelAllForwards(s: OrderEntry.Settings, g: State, symbols: seq<string>, filter: string, requestId: string)
    requires |g.issued| == |g.sent|
    ensures var g' := SendAll(s, g, symbols, filter, requestId);
            var selected := Selected(symbols, filter);
            var n, m := |g.issued|, |g.log|;
            && |g'.issued| == |g'.sent| == n + |selected| && |g'.log| == m + |selected|
            && g'.issued[..n] == g.issued && g'.log[..m] == g.log
            && (forall i | 0 <= i < |selected| ::
                  && g'.issued[n + i] == CancelAll(selected[i], requestId)
                  && g'.log[m + i] == Forwarded(n + i, selected[i], requestId))
  {
    hide BodyText;
    if symbols != [] {
      CancelAllForwards(s, g, symbols[..|symbols| - 1], filter, requestId);
    }
  }
}
