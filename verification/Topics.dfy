// Subscription messages and the topics pushed back for them: `subscribe` in
// src/roq/bybit/gateway/market_data.cpp and drop_copy.cpp against the topic reader and the dispatch
// cascade of src/roq/bybit/protocol/json/parser.cpp.

module Topics {
  import opened Options
  import opened Json
  import Text

  // ---- Topics ----

  datatype PublicTopic = OrderBook(depth: nat) | PublicTrade | Tickers | Kline

  datatype PrivateTopic = Wallet | Position | Order | Execution

  function TopicText(t: PublicTopic): string {
    match t
    case OrderBook(depth) => "orderbook." + Text.PrintNat(depth)
    case PublicTrade => "publicTrade"
    case Tickers => "tickers"
    case Kline => "kline"
  }

  function PrivateText(t: PrivateTopic): string {
    match t
    case Wallet => "wallet"
    case Position => "position"
    case Order => "order"
    case Execution => "execution"
  }

  // The topic strings requested for a list of symbols.
  function Args(topic: string, symbols: seq<string>): (r: seq<string>)
    ensures |r| == |symbols|
  {
    seq(|symbols|, i requires 0 <= i < |symbols| => topic + "." + symbols[i])
  }

  // What the kline overload requests: its separator leaves the interval out, so only the first topic has one.
  function KlineArgs(interval: nat, symbols: seq<string>): (r: seq<string>)
    requires symbols != []
    ensures |r| == |symbols|
  {
    ["kline." + Text.PrintNat(interval) + "." + symbols[0]] + Args("kline", symbols[1..])
  }

  // ---- Messages ----

  function Strings(texts: seq<string>): (r: seq<Json>)
    ensures |r| == |texts|
  {
    seq(|texts|, i requires 0 <= i < |texts| => Str(texts[i]))
  }

  function SubscribeTree(requestId: string, args: seq<string>): Json {
    Obj([Field("req_id", Str(requestId)), Field("op", Str("subscribe")), Field("args", Arr(Strings(args)))])
  }

  function Join(parts: seq<string>, separator: string): string {
    if parts == [] then ""
    else if |parts| == 1 then parts[0]
    else parts[0] + separator + Join(parts[1..], separator)
  }

  // Everything of a subscription message up to the opening quote of its first argument.
  function SubscribeHead(requestId: string): string {
    "{" + Quote("req_id") + ":" + Quote(requestId) + ("," + Quote("op") + ":" + Quote("subscribe")) + ("," + Quote("args") + ":[")
  }

  lemma {:induction false} JoinedArgs(topic: string, symbols: seq<string>)
    requires symbols != []
    ensures Quote(topic + "." + Join(symbols, "\",\"" + topic + ".")) == RenderItems(Strings(Args(topic, symbols)))
  {
    var items := Strings(Args(topic, symbols));
    if |symbols| == 1 {
      assert Render(items[0]) == Quote(topic + "." + symbols[0]);
    } else {
      JoinedArgs(topic, symbols[1..]);
      assert items[1..] == Strings(Args(topic, symbols[1..]));
      var rest := Join(symbols[1..], "\",\"" + topic + ".");
      assert Render(items[0]) == Quote(topic + "." + symbols[0]);
      assert Quote(topic + "." + (symbols[0] + ("\",\"" + topic + ".") + rest))
          == Quote(topic + "." + symbols[0]) + "," + Quote(topic + "." + rest);
    }
  }

  lemma FirstItem(interval: nat, symbols: seq<string>)
    requires symbols != []
    ensures var items := Strings(KlineArgs(interval, symbols));
            && |items| == |symbols|
            && items[0] == Str("kline." + Text.PrintNat(interval) + "." + symbols[0])
            && items[1..] == Strings(Args("kline", symbols[1..]))
  {
    hide Text.PrintNat;
  }

  lemma KlineJoinedArgs(interval: nat, symbols: seq<string>)
    requires symbols != []
    ensures Quote("kline." + Text.PrintNat(interval) + "." + Join(symbols, "\",\"" + "kline" + "."))
         == RenderItems(Strings(KlineArgs(interval, symbols)))
  {
    var head := "kline." + Text.PrintNat(interval) + ".";
    var items := Strings(KlineArgs(interval, symbols));
    hide Text.PrintNat, Quote, Args, Strings, KlineArgs;
    FirstItem(interval, symbols);
    if |symbols| > 1 {
      var rest := symbols[1..];
      var separator := "\",\"" + "kline" + ".";
      JoinedArgs("kline", rest);
      assert separator == "\",\"" + "kline.";
      SplitQuote(head, symbols[0], "kline.", Join(rest, separator));
      assert Join(symbols, separator) == symbols[0] + separator + Join(rest, separator);
      assert "kline" + "." + Join(rest, separator) == "kline." + Join(rest, separator);
    }
  }

  lemma SplitQuote(head: string, first: string, next: string, tail: string)
    ensures Quote(head + (first + ("\",\"" + next) + tail)) == Quote(head + first) + "," + Quote(next + tail)
  {
  }

  lemma SubscribeText(requestId: string, args: seq<string>)
    ensures SubscribeHead(requestId) + RenderItems(Strings(args)) + "]" + "}" == Render(SubscribeTree(requestId, args))
  {
    hide RenderFields, Quote, RenderItems;
    var a, b, c := Field("req_id", Str(requestId)), Field("op", Str("subscribe")), Field("args", Arr(Strings(args)));
    RenderThreeFields(a, b, c);
    assert "," + FieldText(c) == "," + Quote("args") + ":[" + RenderItems(Strings(args)) + "]";
  }

  /** The public subscription message: the text built with a joined separator is the text of the tree. */
  method FormatSubscribe(topic: string, requestId: nat, symbols: seq<string>) returns (message: string)
    requires symbols != []
    ensures message == Render(SubscribeTree(Text.PrintNat(requestId), Args(topic, symbols)))
  {
    hide Join, RenderItems, RenderFields, Text.PrintNat;
    var separator := "\",\"" + topic + ".";
    message := SubscribeHead(Text.PrintNat(requestId)) + Quote(topic + "." + Join(symbols, separator)) + "]" + "}";
    JoinedArgs(topic, symbols);
    SubscribeText(Text.PrintNat(requestId), Args(topic, symbols));
  }

  method FormatSubscribeKline(requestId: nat, symbols: seq<string>, interval: nat) returns (message: string)
    requires symbols != []
    ensures message == Render(SubscribeTree(Text.PrintNat(requestId), KlineArgs(interval, symbols)))
  {
    hide Join, RenderItems, RenderFields, Text.PrintNat;
    var separator := "\",\"" + "kline" + ".";
    message := SubscribeHead(Text.PrintNat(requestId))
      + Quote("kline." + Text.PrintNat(interval) + "." + Join(symbols, separator)) + "]" + "}";
    KlineJoinedArgs(interval, symbols);
    SubscribeText(Text.PrintNat(requestId), KlineArgs(interval, symbols));
  }

  /** The private subscription message names one topic, which is also its request id. */
  method FormatSubscribePrivate(topic: string) returns (message: string)
    ensures message == Render(SubscribeTree(topic, [topic]))
  {
    message := SubscribeHead(topic) + Quote(topic) + "]" + "}";
    assert Strings([topic]) == [Str(topic)];
    SubscribeText(topic, [topic]);
  }

  // ---- Reading the args of a message ----

  function TextsOf(items: seq<Json>): Option<seq<string>> {
    if items == [] then Some([])
    else
      match items[0]
      case Str(text) =>
        var rest :- TextsOf(items[1..]);
        Some([text] + rest)
      case _ => None
  }

  // The args of a subscription: of a message whose op is "subscribe".
  function ReadArgs(message: string): Option<seq<string>> {
    var v :- Read(message);
    var op :- GetText(v, "op");
    match if op == "subscribe" then Get(v, "args") else None
    case Some(Arr(items)) => TextsOf(items)
    case _ => None
  }

  lemma {:induction false} TextsOfStrings(texts: seq<string>)
    ensures TextsOf(Strings(texts)) == Some(texts)
  {
    if texts != [] {
      assert Strings(texts)[1..] == Strings(texts[1..]);
      TextsOfStrings(texts[1..]);
      assert texts == [texts[0]] + texts[1..];
    }
  }

  lemma {:induction false} CleanStrings(texts: seq<string>)
    requires forall i | 0 <= i < |texts| :: CleanText(texts[i])
    ensures CleanItems(Strings(texts))
  {
    if texts != [] {
      assert Strings(texts)[1..] == Strings(texts[1..]);
      CleanStrings(texts[1..]);
    }
  }

  lemma CleanSubscribe(requestId: string, args: seq<string>)
    requires CleanText(requestId) && CleanItems(Strings(args))
    ensures Clean(SubscribeTree(requestId, args))
  {
    hide CleanItems;
    var fields := SubscribeTree(requestId, args).fields;
    assert CleanText("req_id") && CleanText("op") && CleanText("args") && CleanText("subscribe");
    assert Clean(fields[2].value);
    assert fields[2..][1..] == [] && fields[2..][0] == fields[2];
    assert CleanFields(fields[2..]);
    assert fields[1..][1..] == fields[2..] && fields[1..][0] == fields[1];
    assert CleanFields(fields[1..]);
    assert fields[0].key == "req_id" && Clean(fields[0].value);
    assert CleanFields(fields);
  }

  predicate CleanTexts(texts: seq<string>) {
    forall i | 0 <= i < |texts| :: CleanText(texts[i])
  }

  lemma {:induction false} TextsAreClean(items: seq<Json>)
    requires CleanItems(items)
    ensures TextsOf(items).Some? ==> CleanTexts(TextsOf(items).value)
  {
    if items != [] {
      TextsAreClean(items[1..]);
    }
  }

  // No argument that was read holds a quote or a backslash.
  lemma ReadArgsIsClean(message: string)
    ensures ReadArgs(message).Some? ==> CleanTexts(ReadArgs(message).value)
  {
    hide ReadValue, TextsOf, CleanTexts;
    ReadValueIsClean(message);
    if Read(message).Some? && Read(message).value.Obj? {
      LookupIsClean(Read(message).value.fields, "args");
      match Get(Read(message).value, "args") {
        case Some(Arr(items)) => TextsAreClean(items);
        case _ =>
      }
    }
  }

  lemma CleanArgsRead(requestId: string, args: seq<string>)
    requires CleanText(requestId) && CleanTexts(args)
    ensures ReadArgs(Render(SubscribeTree(requestId, args))) == Some(args)
    ensures Read(Render(SubscribeTree(requestId, args))).Some?
    ensures GetText(Read(Render(SubscribeTree(requestId, args))).value, "req_id") == Some(requestId)
    ensures GetText(Read(Render(SubscribeTree(requestId, args))).value, "op") == Some("subscribe")
  {
    hide Read, Render, TextsOf;
    var v := SubscribeTree(requestId, args);
    CleanStrings(args);
    TextsOfStrings(args);
    CleanSubscribe(requestId, args);
    ReadOfRender(v);
    assert Lookup(v.fields, "req_id") == Some(Str(requestId));
    assert v.fields[1..][1..] == v.fields[2..];
    assert Lookup(v.fields[1..], "op") == Some(Str("subscribe"));
    assert Lookup(v.fields, "op") == Lookup(v.fields[1..], "op");
    assert Lookup(v.fields[2..], "args") == Some(Arr(Strings(args)));
    assert Lookup(v.fields[1..], "args") == Lookup(v.fields[2..], "args");
  }

  /** A message reads as a subscription to its arguments in order, under its request id, exactly when no argument
      holds a quote or a backslash. */
  lemma SubscribeReads(requestId: string, args: seq<string>)
    requires CleanText(requestId)
    ensures var text := Render(SubscribeTree(requestId, args));
            && (ReadArgs(text) == Some(args) <==> CleanTexts(args))
            && (CleanTexts(args) ==>
                  && Read(text).Some?
                  && GetText(Read(text).value, "op") == Some("subscribe")
                  && GetText(Read(text).value, "req_id") == Some(requestId))
  {
    hide Read, Render, TextsOf, CleanTexts, ReadArgs;
    ReadArgsIsClean(Render(SubscribeTree(requestId, args)));
    if CleanTexts(args) {
      CleanArgsRead(requestId, args);
    }
  }

  // ---- Dispatching a pushed message ----

  datatype Operation = NoOperation | UnknownOperation | Auth | Ping | Pong | Subscribe | OrderCreate | OrderAmend | OrderCancel

  datatype EventType = NoType | UnknownType | Error | Snapshot | Delta | CommandResp

  // The handler a message is given to; `depth` is what the order book handler is told.
  datatype Route =
    | ToPublic(topic: PublicTopic)
    | ToOrderBook(depth: Option<nat>)
    | ToPrivate(privateTopic: PrivateTopic)
    | ToAuth | ToPing | ToSubscribe | ToError
    | Dropped
    | NotHandled
    | Fatal

  function ParseTopic(value: string): string {
    value[..Text.FindFirst(value, '.', 0)]
  }

  // `++pos1` wraps to 0 when there is no dot.
  function ParseMbpDepth(value: string): Option<nat> {
    var dot := Text.FindFirst(value, '.', 0);
    var pos1 := if dot == |value| then 0 else dot + 1;
    var pos2 := Text.FindFirst(value, '.', pos1);
    Text.ReadUint32(value[pos1..pos2])
  }

  function DispatchTopic(topic: string): Option<Route> {
    var name := ParseTopic(topic);
    if name == "orderbook" then Some(ToOrderBook(ParseMbpDepth(topic)))
    else if name == "publicTrade" then Some(ToPublic(PublicTrade))
    else if name == "tickers" then Some(ToPublic(Tickers))
    else if name == "kline" then Some(ToPublic(Kline))
    else if name == "wallet" then Some(ToPrivate(Wallet))
    else if name == "position" then Some(ToPrivate(Position))
    else if name == "order" then Some(ToPrivate(Order))
    else if name == "execution" then Some(ToPrivate(Execution))
    else None
  }

  function DispatchOperation(op: Operation, allowUnknown: bool): Option<Route> {
    match op
    case NoOperation => None
    case UnknownOperation => if allowUnknown then Some(NotHandled) else None
    case Auth => Some(ToAuth)
    case Ping => Some(ToPing)
    case Pong => Some(Dropped)
    case Subscribe => Some(ToSubscribe)
    case OrderCreate => Some(Dropped)
    case OrderAmend => Some(Dropped)
    case OrderCancel => Some(Dropped)
  }

  function DispatchType(t: EventType, allowUnknown: bool): Option<Route> {
    match t
    case NoType => None
    case UnknownType => if allowUnknown then Some(NotHandled) else None
    case Error => Some(ToError)
    case Snapshot => None
    case Delta => None
    case CommandResp => Some(ToSubscribe)
  }

  function Dispatch(topic: string, op: Operation, t: EventType, allowUnknown: bool): Route {
    match DispatchTopic(topic)
    case Some(r) => r
    case None =>
      match DispatchOperation(op, allowUnknown)
      case Some(r) => r
      case None =>
        match DispatchType(t, allowUnknown)
        case Some(r) => r
        case None => Fatal
  }

  // The handlers that do not terminate the process, per stream.  ToOrderBook(None) stands for a depth that is not a
  // 32-bit number: what the number reader then does is not known, so it is not counted among them.
  predicate MarketDataAccepts(r: Route) {
    || r.ToPublic? || (r.ToOrderBook? && r.depth.Some?)
    || r.ToPing? || r.ToSubscribe? || r.Dropped? || r.NotHandled?
  }

  // A login that failed may still end the process inside its handler.
  predicate DropCopyAccepts(r: Route) {
    r.ToPrivate? || r.ToAuth? || r.ToPing? || r.ToSubscribe? || r.Dropped? || r.NotHandled?
  }

  function RouteOf(t: PublicTopic): Route {
    match t
    case OrderBook(depth) => ToOrderBook(Some(depth))
    case _ => ToPublic(t)
  }

  /** The parser's own fatal branch is reached exactly by a message without a known topic, without an operation and
      without a type that is routed; it leaves a message unhandled exactly when the first unknown part is tolerated. */
  lemma FatalExactly(topic: string, op: Operation, t: EventType, allowUnknown: bool)
    ensures Dispatch(topic, op, t, allowUnknown).Fatal?
       <==> && DispatchTopic(topic).None?
            && (op.NoOperation? || (op.UnknownOperation? && !allowUnknown))
            && (t.NoType? || t.Snapshot? || t.Delta? || (t.UnknownType? && !allowUnknown))
    ensures Dispatch(topic, op, t, allowUnknown).NotHandled?
       <==> DispatchTopic(topic).None? && allowUnknown && (op.UnknownOperation? || (op.NoOperation? && t.UnknownType?))
  {
    hide ParseTopic, ParseMbpDepth;
  }

  predicate PublicName(name: string) {
    name == "orderbook" || name == "publicTrade" || name == "tickers" || name == "kline"
  }

  predicate PrivateName(name: string) {
    name == "wallet" || name == "position" || name == "order" || name == "execution"
  }

  // Without a known topic and a known operation, the type decides.
  predicate TypeSurvives(t: EventType, allowUnknown: bool) {
    t.CommandResp? || (t.UnknownType? && allowUnknown)
  }

  predicate TypeDecides(op: Operation, allowUnknown: bool) {
    op.NoOperation? || (op.UnknownOperation? && !allowUnknown)
  }

  /** The public stream survives a message exactly when its topic is public (an order book with a depth that reads);
      or it has no known topic, and either its operation is known or tolerated but not a login, or it has no such
      operation and its type is a command response or a tolerated unknown one. */
  lemma PublicStreamSurvives(topic: string, op: Operation, t: EventType, allowUnknown: bool)
    ensures MarketDataAccepts(Dispatch(topic, op, t, allowUnknown))
       <==> var name := ParseTopic(topic);
            if PublicName(name) then name == "orderbook" ==> ParseMbpDepth(topic).Some?
            else && !PrivateName(name)
                 && if TypeDecides(op, allowUnknown) then TypeSurvives(t, allowUnknown) else !op.Auth?
  {
    hide ParseTopic, ParseMbpDepth;
  }

  /** The private stream survives one exactly when its topic is private; or it has no known topic, and its operation
      is known or tolerated, a login included, or else its type is a command response or a tolerated unknown one. */
  lemma PrivateStreamSurvives(topic: string, op: Operation, t: EventType, allowUnknown: bool)
    ensures DropCopyAccepts(Dispatch(topic, op, t, allowUnknown))
       <==> var name := ParseTopic(topic);
            || PrivateName(name)
            || (!PublicName(name) && (TypeDecides(op, allowUnknown) ==> TypeSurvives(t, allowUnknown)))
  {
    hide ParseTopic, ParseMbpDepth;
  }

  /** Which message reaches which handler: a known topic decides; without one the operation, and without one of
      these the type. */
  lemma HandlerExactly(topic: string, op: Operation, t: EventType, allowUnknown: bool)
    ensures var r := Dispatch(topic, op, t, allowUnknown);
            var name := ParseTopic(topic);
            var noTopic := !PublicName(name) && !PrivateName(name);
            var noOperation := noTopic && TypeDecides(op, allowUnknown);
            && (r.ToOrderBook? <==> name == "orderbook") && (r.ToOrderBook? ==> r.depth == ParseMbpDepth(topic))
            && (r == ToPublic(PublicTrade) <==> name == "publicTrade")
            && (r == ToPublic(Tickers) <==> name == "tickers")
            && (r == ToPublic(Kline) <==> name == "kline")
            && (r == ToPrivate(Wallet) <==> name == "wallet")
            && (r == ToPrivate(Position) <==> name == "position")
            && (r == ToPrivate(Order) <==> name == "order")
            && (r == ToPrivate(Execution) <==> name == "execution")
            && (r.ToAuth? <==> noTopic && op.Auth?)
            && (r.ToPing? <==> noTopic && op.Ping?)
            && (r.Dropped? <==> noTopic && (op.Pong? || op.OrderCreate? || op.OrderAmend? || op.OrderCancel?))
            && (r.ToSubscribe? <==> (noTopic && op.Subscribe?) || (noOperation && t.CommandResp?))
            && (r.ToError? <==> noOperation && t.Error?)
  {
    hide ParseTopic, ParseMbpDepth;
  }

  // ---- The loop is closed ----

  lemma FirstDot(name: string, rest: string)
    requires forall i | 0 <= i < |name| :: name[i] != '.'
    ensures Text.FindFirst(name + "." + rest, '.', 0) == |name|
  {
    var t := name + "." + rest;
    assert forall i | 0 <= i < |name| :: t[i] == name[i];
    assert t[|name|] == '.';
  }

  lemma NameBeforeDot(name: string, rest: string)
    requires forall i | 0 <= i < |name| :: name[i] != '.'
    ensures ParseTopic(name + "." + rest) == name
  {
    hide Text.FindFirst;
    FirstDot(name, rest);
    assert (name + "." + rest)[..|name|] == name;
  }

  lemma NextDot(head: string, digits: string, rest: string)
    requires forall i | 0 <= i < |digits| :: digits[i] != '.'
    ensures var t := head + digits + "." + rest;
            && Text.FindFirst(t, '.', |head|) == |head| + |digits|
            && t[|head|..|head| + |digits|] == digits
  {
    hide Text.FindFirst;
    var t := head + digits + "." + rest;
    var before := head + digits;
    assert t == before + ("." + rest);
    forall i | |head| <= i < |head| + |digits| ensures t[i] == before[i] == digits[i - |head|] {
    }
    var n := Text.FindFirst(t, '.', |head|);
    assert t[|before|] == '.';
    assert n >= |before|;
    assert n <= |before|;
    assert before[|head|..] == digits;
  }

  /** The depth between the dots is read back exactly when it fits 32 bits. */
  lemma DepthBetweenDots(depth: nat, symbol: string)
    ensures ParseMbpDepth("orderbook." + Text.PrintNat(depth) + "." + symbol) == if depth < 4_294_967_296 then Some(depth) else None
    ensures ParseTopic("orderbook." + Text.PrintNat(depth) + "." + symbol) == "orderbook"
  {
    hide Text.PrintNat, Text.Value, Text.FindFirst;
    var digits := Text.PrintNat(depth);
    var t := "orderbook." + digits + "." + symbol;
    Text.PrintNatReads(depth);
    var head := "orderbook";
    FirstDot(head, digits + "." + symbol);
    NameBeforeDot(head, digits + "." + symbol);
    assert t == head + "." + (digits + "." + symbol);
    NextDot("orderbook.", digits, symbol);
  }

  /** A push on a subscribed topic reaches that topic's own handler, whatever else the message says and however
      many dots the symbol has; an order book update is told the depth that was printed. */
  lemma PushReachesHandler(t: PublicTopic, symbol: string, op: Operation, eventType: EventType, allowUnknown: bool)
    requires t.OrderBook? ==> t.depth < 0x1_0000_0000
    ensures var r := Dispatch(TopicText(t) + "." + symbol, op, eventType, allowUnknown);
            r == RouteOf(t) && MarketDataAccepts(r) && !DropCopyAccepts(r)
  {
    hide Text.PrintNat, Text.FindFirst, ParseMbpDepth, ParseTopic;
    var value := TopicText(t) + "." + symbol;
    match t
    case OrderBook(depth) =>
      DepthBetweenDots(depth, symbol);
    case PublicTrade =>
      NameBeforeDot("publicTrade", symbol);
    case Tickers =>
      NameBeforeDot("tickers", symbol);
    case Kline =>
      NameBeforeDot("kline", symbol);
  }

  /** The same for the private topics, which are pushed without a symbol, on the private stream. */
  lemma PrivatePushReachesHandler(t: PrivateTopic, op: Operation, eventType: EventType, allowUnknown: bool)
    ensures var r := Dispatch(PrivateText(t), op, eventType, allowUnknown);
            r == ToPrivate(t) && DropCopyAccepts(r) && !MarketDataAccepts(r)
  {
    var value := PrivateText(t);
    assert Text.FindFirst(value, '.', 0) == |value|;
    assert value[..|value|] == value;
  }

  lemma CleanConcat(a: string, b: string)
    ensures CleanText(a + b) <==> CleanText(a) && CleanText(b)
  {
    assert forall i | 0 <= i < |a| :: (a + b)[i] == a[i];
    assert forall i | 0 <= i < |b| :: (a + b)[|a| + i] == b[i];
  }

  lemma CleanArgs(topic: string, symbols: seq<string>)
    requires CleanText(topic)
    ensures CleanTexts(Args(topic, symbols)) <==> CleanTexts(symbols)
  {
    hide CleanText;
    CleanDot();
    forall i | 0 <= i < |symbols| ensures CleanText(Args(topic, symbols)[i]) <==> CleanText(symbols[i]) {
      CleanConcat(topic, ".");
      CleanConcat(topic + ".", symbols[i]);
    }
  }

  lemma CleanDot()
    ensures CleanText(".") && CleanText("kline.") && CleanText("kline")
  {
  }

  /** Reading the args of a public subscription gives `topic.symbol` for each symbol in order, exactly when no symbol
      holds a quote or a backslash; and a push carrying any of these topics is routed to the handler of the topic,
      whatever the symbol.  For kline this is not the message that is sent: see KlineReads. */
  lemma ClosedLoop(t: PublicTopic, requestId: nat, symbols: seq<string>, op: Operation, eventType: EventType, allowUnknown: bool)
    requires t.OrderBook? ==> t.depth < 0x1_0000_0000
    ensures var args := Args(TopicText(t), symbols);
            && (ReadArgs(Render(SubscribeTree(Text.PrintNat(requestId), args))) == Some(args) <==> CleanTexts(symbols))
            && (forall i | 0 <= i < |symbols| ::
                  && args[i] == TopicText(t) + "." + symbols[i]
                  && Dispatch(args[i], op, eventType, allowUnknown) == RouteOf(t)
                  && MarketDataAccepts(Dispatch(args[i], op, eventType, allowUnknown)))
  {
    hide ReadArgs, Render, Dispatch, Text.PrintNat, TopicText, RouteOf, CleanTexts;
    var args := Args(TopicText(t), symbols);
    CleanNumber(requestId);
    CleanTopic(t);
    CleanArgs(TopicText(t), symbols);
    SubscribeReads(Text.PrintNat(requestId), args);
    forall i | 0 <= i < |symbols|
      ensures Dispatch(args[i], op, eventType, allowUnknown) == RouteOf(t)
           && MarketDataAccepts(Dispatch(args[i], op, eventType, allowUnknown))
    {
      PushReachesHandler(t, symbols[i], op, eventType, allowUnknown);
    }
  }

  lemma CleanNumber(n: nat)
    ensures CleanText(Text.PrintNat(n))
  {
    Text.PrintNatReads(n);
    assert forall i | 0 <= i < |Text.PrintNat(n)| :: Text.IsDigit(Text.PrintNat(n)[i]);
  }

  lemma CleanTopic(t: PublicTopic)
    ensures CleanText(TopicText(t))
  {
    if t.OrderBook? {
      CleanNumber(t.depth);
    }
  }

  /** The kline message asks for `kline.<interval>.<symbol>` for each symbol exactly when there is one symbol. */
  lemma KlineIntended(interval: nat, symbols: seq<string>)
    requires symbols != []
    ensures KlineArgs(interval, symbols) == Args("kline." + Text.PrintNat(interval), symbols) <==> |symbols| == 1
  {
    hide Text.PrintNat;
    Text.PrintNatReads(interval);
    var args := KlineArgs(interval, symbols);
    if |symbols| == 1 {
      assert args == Args("kline." + Text.PrintNat(interval), symbols);
    } else {
      assert |args[1]| == |"kline" + "." + symbols[1]|;
      assert |args[1]| < |Args("kline." + Text.PrintNat(interval), symbols)[1]|;
    }
  }

  /** The second of two symbols is asked for without an interval. */
  lemma KlineSecondSymbol()
    ensures KlineArgs(1, ["A", "B"])[1] == "kline.B"
    ensures Args("kline." + Text.PrintNat(1), ["A", "B"])[1] == "kline.1.B"
  {
    assert Text.PrintNat(1) == "1";
  }

  /** A private subscription reads as its one topic, which is also its request id, and a push on it reaches the
      handler of the topic. */
  lemma PrivateClosedLoop(t: PrivateTopic, op: Operation, eventType: EventType, allowUnknown: bool)
    ensures var topic := PrivateText(t);
            var text := Render(SubscribeTree(topic, [topic]));
            && ReadArgs(text) == Some([topic])
            && Read(text).Some? && GetText(Read(text).value, "req_id") == Some(topic)
            && Dispatch(topic, op, eventType, allowUnknown) == ToPrivate(t)
            && DropCopyAccepts(Dispatch(topic, op, eventType, allowUnknown))
  {
    hide ReadArgs, Read, Render, Dispatch;
    assert CleanText(PrivateText(t));
    assert CleanTexts([PrivateText(t)]);
    SubscribeReads(PrivateText(t), [PrivateText(t)]);
    PrivatePushReachesHandler(t, op, eventType, allowUnknown);
  }

  lemma CleanKlineArgs(interval: nat, symbols: seq<string>)
    requires symbols != []
    ensures CleanTexts(KlineArgs(interval, symbols)) <==> CleanTexts(symbols)
  {
    hide CleanText, Text.PrintNat;
    var number, args := Text.PrintNat(interval), KlineArgs(interval, symbols);
    CleanNumber(interval);
    CleanDot();
    CleanConcat("kline.", number);
    CleanConcat("kline." + number, ".");
    CleanConcat("kline." + number + ".", symbols[0]);
    CleanArgs("kline", symbols[1..]);
    assert args == [args[0]] + args[1..] && symbols == [symbols[0]] + symbols[1..];
    assert args[1..] == Args("kline", symbols[1..]);
    CleanCons(args[0], args[1..]);
    CleanCons(symbols[0], symbols[1..]);
  }

  lemma CleanCons(first: string, rest: seq<string>)
    ensures CleanTexts([first] + rest) <==> CleanText(first) && CleanTexts(rest)
  {
    var all := [first] + rest;
    assert all[0] == first && forall i | 0 <= i < |rest| :: all[i + 1] == rest[i];
  }

  /** Its bytes read as the exact expansion, exactly when no symbol holds a quote or a backslash, and every topic in
      it still reaches the kline handler. */
  lemma KlineReads(requestId: nat, interval: nat, symbols: seq<string>, op: Operation, eventType: EventType, allowUnknown: bool)
    requires symbols != []
    ensures var args := KlineArgs(interval, symbols);
            && (ReadArgs(Render(SubscribeTree(Text.PrintNat(requestId), args))) == Some(args) <==> CleanTexts(symbols))
            && forall i | 0 <= i < |symbols| :: Dispatch(args[i], op, eventType, allowUnknown) == ToPublic(Kline)
  {
    hide ReadArgs, Render, Dispatch, Text.PrintNat, Strings, CleanTexts;
    var args := KlineArgs(interval, symbols);
    CleanNumber(requestId);
    CleanKlineArgs(interval, symbols);
    SubscribeReads(Text.PrintNat(requestId), args);
    var first := Text.PrintNat(interval) + "." + symbols[0];
    assert args[0] == TopicText(Kline) + "." + first;
    assert forall i | 0 < i < |symbols| :: args[i] == TopicText(Kline) + "." + symbols[i];
    forall i | 0 <= i < |args| ensures Dispatch(args[i], op, eventType, allowUnknown) == ToPublic(Kline) {
      PushReachesHandler(Kline, if i == 0 then first else symbols[i], op, eventType, allowUnknown);
    }
  }
}
