// What an order message says to a reader that looks fields up by name, whatever order they are written in.

module OrderReader {
  import opened Options
  import opened Json
  import opened Orders
  import opened Encoder
  import Text

  datatype PlaceRequest = PlaceRequest(
    category: Category,
    symbol: string,
    side: Side,
    orderType: OrderType,
    quantity: Number,
    timeInForce: WireTimeInForce,
    reduceOnly: bool,
    price: Option<Number>,
    orderLinkId: string)

  datatype OrderRef = ByOrderId(id: string) | ByLinkId(id: string)

  datatype AmendRequest = AmendRequest(category: Category, symbol: string, price: Option<Number>, quantity: Option<Number>, order: OrderRef)

  datatype CancelRequest = CancelRequest(category: Category, symbol: string, order: OrderRef)

  // ---- Reading ----

  function GetFlag(v: Json, key: string): Option<bool> {
    match Get(v, key)
    case Some(Bare(literal)) => if literal == "true" then Some(true) else if literal == "false" then Some(false) else None
    case _ => None
  }

  // A key that may be absent.
  function GetOptionalNumber(v: Json, key: string): Option<Option<Number>> {
    if Get(v, key).None? then Some(None)
    else
      var text :- GetText(v, key);
      var n :- ReadNumber(text);
      Some(Some(n))
  }

  function GetOrderRef(v: Json): Option<OrderRef> {
    match GetText(v, "orderId")
    case Some(id) => Some(ByOrderId(id))
    case None =>
      var id :- GetText(v, "orderLinkId");
      Some(ByLinkId(id))
  }

  function ReadPlaceTree(v: Json): Option<PlaceRequest> {
    var categoryText :- GetText(v, "category");
    var category :- ReadCategory(categoryText);
    var symbol :- GetText(v, "symbol");
    var sideText :- GetText(v, "side");
    var side :- ReadSide(sideText);
    var orderTypeText :- GetText(v, "orderType");
    var orderType :- ReadOrderType(orderTypeText);
    var quantityText :- GetText(v, "qty");
    var quantity :- ReadNumber(quantityText);
    var timeInForceText :- GetText(v, "timeInForce");
    var timeInForce :- ReadTimeInForce(timeInForceText);
    var reduceOnly :- GetFlag(v, "reduceOnly");
    var price :- GetOptionalNumber(v, "price");
    var orderLinkId :- GetText(v, "orderLinkId");
    Some(PlaceRequest(category, symbol, side, orderType, quantity, timeInForce, reduceOnly, price, orderLinkId))
  }

  function ReadAmendTree(v: Json): Option<AmendRequest> {
    var categoryText :- GetText(v, "category");
    var category :- ReadCategory(categoryText);
    var symbol :- GetText(v, "symbol");
    var price :- GetOptionalNumber(v, "price");
    var quantity :- GetOptionalNumber(v, "qty");
    var order :- GetOrderRef(v);
    Some(AmendRequest(category, symbol, price, quantity, order))
  }

  function ReadCancelTree(v: Json): Option<CancelRequest> {
    var categoryText :- GetText(v, "category");
    var category :- ReadCategory(categoryText);
    var symbol :- GetText(v, "symbol");
    var order :- GetOrderRef(v);
    Some(CancelRequest(category, symbol, order))
  }

  datatype CancelAllRequest = CancelAllRequest(category: Category, symbol: string)

  function ReadCancelAllTree(v: Json): Option<CancelAllRequest> {
    var categoryText :- GetText(v, "category");
    var category :- ReadCategory(categoryText);
    var symbol :- GetText(v, "symbol");
    Some(CancelAllRequest(category, symbol))
  }

  function ReadCancelAll(text: string): Option<CancelAllRequest> {
    var v :- Read(text);
    ReadCancelAllTree(v)
  }

  function ReadPlace(text: string): Option<PlaceRequest> {
    var v :- Read(text);
    ReadPlaceTree(v)
  }

  function ReadAmend(text: string): Option<AmendRequest> {
    var v :- Read(text);
    ReadAmendTree(v)
  }

  function ReadCancel(text: string): Option<CancelRequest> {
    var v :- Read(text);
    ReadCancelTree(v)
  }

  // ---- What the gateway was asked to send ----

  function Optional(a: Amount, precision: nat): Option<Number> {
    if a.NaN? then None else Some(ToNumber(a, precision))
  }

  function RefOf(order: Order, previousRequestId: string): OrderRef {
    if order.externalOrderId != "" then ByOrderId(order.externalOrderId) else ByLinkId(previousRequestId)
  }

  function PlaceRequested(o: CreateOrder, refData: RefData, requestId: string, category: Category): PlaceRequest {
    PlaceRequest(
      category, o.symbol, o.side, o.orderType, ToNumber(o.quantity, refData.quantityPrecision),
      MapTimeInForce(o.timeInForce, o.instructions), DoNotIncrease in o.instructions,
      Optional(o.price, refData.pricePrecision), requestId)
  }

  function AmendRequested(m: ModifyOrder, order: Order, refData: RefData, previousRequestId: string, category: Category): AmendRequest {
    AmendRequest(
      category, order.symbol, Optional(m.price, refData.pricePrecision), Optional(m.quantity, refData.quantityPrecision),
      RefOf(order, previousRequestId))
  }

  function CancelRequested(order: Order, previousRequestId: string, category: Category): CancelRequest {
    CancelRequest(category, order.symbol, RefOf(order, previousRequestId))
  }

  // ---- Lookups ----

  lemma {:induction false} LookupAt(fields: seq<Field>, i: nat, key: string)
    requires i < |fields| && fields[i].key == key
    requires forall j | 0 <= j < i :: fields[j].key != key
    ensures Lookup(fields, key) == Some(fields[i].value)
  {
    if i > 0 {
      assert fields[0].key != key;
      LookupAt(fields[1..], i - 1, key);
    }
  }

  lemma {:induction false} LookupMissing(fields: seq<Field>, key: string)
    requires forall j | 0 <= j < |fields| :: fields[j].key != key
    ensures Lookup(fields, key) == None
  {
    if fields != [] {
      LookupMissing(fields[1..], key);
    }
  }

  lemma {:induction false} CleanFieldsAll(fields: seq<Field>)
    requires forall i | 0 <= i < |fields| :: CleanText(fields[i].key) && Clean(fields[i].value)
    ensures CleanFields(fields)
  {
    if fields != [] {
      CleanFieldsAll(fields[1..]);
    }
  }

  lemma CleanAmount(a: Amount, precision: nat)
    ensures CleanText(AmountText(a, precision))
  {
    if a.Units? {
      Text.DecimalCharacters(a.units, precision);
    }
  }

  // ---- New orders ----

  // The written fields, by position.
  lemma PlaceLayout(o: CreateOrder, refData: RefData, requestId: string, category: Category)
    ensures var fields := PlaceFields(o, refData, requestId, category);
            var n := if o.price.NaN? then 8 else 9;
            && |fields| == n
            && fields[0] == StrField("category", CategoryText(category))
            && fields[1] == StrField("symbol", o.symbol)
            && fields[2] == StrField("side", SideText(o.side))
            && fields[3] == StrField("orderType", OrderTypeText(o.orderType))
            && fields[4] == StrField("qty", AmountText(o.quantity, refData.quantityPrecision))
            && fields[5] == StrField("timeInForce", TimeInForceText(MapTimeInForce(o.timeInForce, o.instructions)))
            && fields[6] == Field("reduceOnly", Bare(BoolText(DoNotIncrease in o.instructions)))
            && (n == 9 ==> fields[7] == StrField("price", AmountText(o.price, refData.pricePrecision)))
            && fields[n - 1] == StrField("orderLinkId", requestId)
  {
    hide AmountText, CategoryText, SideText, OrderTypeText, TimeInForceText, MapTimeInForce, BoolText;
  }

  lemma CleanKeys()
    ensures CleanText("category") && CleanText("symbol") && CleanText("side") && CleanText("orderType")
    ensures CleanText("qty") && CleanText("timeInForce") && CleanText("reduceOnly") && CleanText("price")
    ensures CleanText("orderLinkId") && CleanText("orderId")
  {
  }

  lemma CleanVocabulary(c: Category, s: Side, t: OrderType, f: WireTimeInForce, b: bool)
    ensures CleanText(CategoryText(c)) && CleanText(SideText(s)) && CleanText(OrderTypeText(t))
    ensures CleanText(TimeInForceText(f)) && CleanLiteral(BoolText(b))
  {
  }

  lemma CleanPlace(o: CreateOrder, refData: RefData, requestId: string, category: Category)
    requires CleanText(o.symbol) && CleanText(requestId)
    ensures Clean(Obj(PlaceFields(o, refData, requestId, category)))
  {
    hide AmountText, CategoryText, SideText, OrderTypeText, TimeInForceText, MapTimeInForce, BoolText, CleanText, CleanLiteral, PlaceFields;
    var fields := PlaceFields(o, refData, requestId, category);
    PlaceLayout(o, refData, requestId, category);
    CleanKeys();
    CleanVocabulary(category, o.side, o.orderType, MapTimeInForce(o.timeInForce, o.instructions), DoNotIncrease in o.instructions);
    CleanAmount(o.quantity, refData.quantityPrecision);
    CleanAmount(o.price, refData.pricePrecision);
    CleanFieldsAll(fields);
  }

  lemma PlaceLookups(o: CreateOrder, refData: RefData, requestId: string, category: Category)
    ensures var v := Obj(PlaceFields(o, refData, requestId, category));
            && GetText(v, "category") == Some(CategoryText(category))
            && GetText(v, "symbol") == Some(o.symbol)
            && GetText(v, "side") == Some(SideText(o.side))
            && GetText(v, "orderType") == Some(OrderTypeText(o.orderType))
            && GetText(v, "qty") == Some(AmountText(o.quantity, refData.quantityPrecision))
            && GetText(v, "timeInForce") == Some(TimeInForceText(MapTimeInForce(o.timeInForce, o.instructions)))
            && Get(v, "reduceOnly") == Some(Bare(BoolText(DoNotIncrease in o.instructions)))
            && Get(v, "price") == (if o.price.NaN? then None else Some(Str(AmountText(o.price, refData.pricePrecision))))
            && GetText(v, "orderLinkId") == Some(requestId)
  {
    hide AmountText, CategoryText, SideText, OrderTypeText, TimeInForceText, MapTimeInForce, BoolText, PlaceFields, Lookup;
    var fields := PlaceFields(o, refData, requestId, category);
    PlaceLayout(o, refData, requestId, category);
    LookupAt(fields, 0, "category");
    LookupAt(fields, 1, "symbol");
    LookupAt(fields, 2, "side");
    LookupAt(fields, 3, "orderType");
    LookupAt(fields, 4, "qty");
    LookupAt(fields, 5, "timeInForce");
    LookupAt(fields, 6, "reduceOnly");
    LookupAt(fields, |fields| - 1, "orderLinkId");
    if o.price.NaN? {
      LookupMissing(fields, "price");
    } else {
      LookupAt(fields, 7, "price");
    }
  }

  lemma PlaceReads(o: CreateOrder, refData: RefData, requestId: string, category: Category)
    requires CleanText(o.symbol) && CleanText(requestId)
    ensures ReadPlace(Render(Obj(PlaceFields(o, refData, requestId, category))))
         == Some(PlaceRequested(o, refData, requestId, category))
  {
    hide AmountText, CategoryText, SideText, OrderTypeText, TimeInForceText, MapTimeInForce, PlaceFields, Lookup, ReadNumber, Read, Render, Clean;
    hide ReadCategory, ReadSide, ReadOrderType, ReadTimeInForce;
    CleanPlace(o, refData, requestId, category);
    ReadOfRender(Obj(PlaceFields(o, refData, requestId, category)));
    PlaceLookups(o, refData, requestId, category);
    VocabularyRoundTrip(category, o.side, o.orderType, MapTimeInForce(o.timeInForce, o.instructions));
    NumberRoundTrip(o.quantity, refData.quantityPrecision);
    NumberRoundTrip(o.price, refData.pricePrecision);
  }

  /** Every field of a new order is recovered from its bytes, the price exactly when there is one; and that holds
      exactly for the symbols and ids without a quote or a backslash, because nothing is escaped. */
  lemma PlaceRoundTrip(o: CreateOrder, refData: RefData, requestId: string, category: Category)
    ensures ReadPlace(Render(Obj(PlaceFields(o, refData, requestId, category))))
         == Some(PlaceRequested(o, refData, requestId, category))
       <==> CleanText(o.symbol) && CleanText(requestId)
  {
    hide Read, Render, Lookup, AmountText, CleanText, ReadCategory, ReadSide, ReadOrderType, ReadTimeInForce, ReadNumber;
    if CleanText(o.symbol) && CleanText(requestId) {
      PlaceReads(o, refData, requestId, category);
    } else {
      ReadTextIsClean(Render(Obj(PlaceFields(o, refData, requestId, category))), "symbol");
      ReadTextIsClean(Render(Obj(PlaceFields(o, refData, requestId, category))), "orderLinkId");
    }
  }

  /** Two new orders have the same bytes exactly when they ask for the same thing. */
  lemma PlaceInjective(o: CreateOrder, r: RefData, id: string, c: Category, o': CreateOrder, r': RefData, id': string, c': Category)
    requires CleanText(o.symbol) && CleanText(id) && CleanText(o'.symbol) && CleanText(id')
    ensures Render(Obj(PlaceFields(o, r, id, c))) == Render(Obj(PlaceFields(o', r', id', c')))
       <==> PlaceRequested(o, r, id, c) == PlaceRequested(o', r', id', c')
  {
    hide ReadPlace, Render, AmountText;
    PlaceRoundTrip(o, r, id, c);
    PlaceRoundTrip(o', r', id', c');
    SameNumberSameText(o.quantity, r.quantityPrecision, o'.quantity, r'.quantityPrecision);
    SameNumberSameText(o.price, r.pricePrecision, o'.price, r'.pricePrecision);
  }

  lemma SameNumberSameText(a: Amount, p: nat, a': Amount, p': nat)
    ensures ToNumber(a, p) == ToNumber(a', p') ==> AmountText(a, p) == AmountText(a', p')
  {
  }

  // ---- Amended orders ----

  lemma AmendLayout(m: ModifyOrder, order: Order, refData: RefData, previousRequestId: string, category: Category)
    ensures var fields := AmendFields(m, order, refData, previousRequestId, category);
            var p := if m.price.NaN? then 2 else 3;
            var n := if m.quantity.NaN? then p + 1 else p + 2;
            && |fields| == n
            && fields[0] == StrField("category", CategoryText(category))
            && fields[1] == StrField("symbol", order.symbol)
            && (p == 3 ==> fields[2] == StrField("price", AmountText(m.price, refData.pricePrecision)))
            && (n == p + 2 ==> fields[p] == StrField("qty", AmountText(m.quantity, refData.quantityPrecision)))
            && fields[n - 1] == IdField(order, previousRequestId)
  {
    hide AmountText, CategoryText, IdField;
  }

  lemma CleanAmend(m: ModifyOrder, order: Order, refData: RefData, previousRequestId: string, category: Category)
    requires CleanText(order.symbol) && CleanText(RefOf(order, previousRequestId).id)
    ensures Clean(Obj(AmendFields(m, order, refData, previousRequestId, category)))
  {
    hide AmountText, CategoryText, CleanText, AmendFields;
    var fields := AmendFields(m, order, refData, previousRequestId, category);
    AmendLayout(m, order, refData, previousRequestId, category);
    CleanKeys();
    CleanVocabulary(category, Side.Undefined, OrderType.Undefined, WireTimeInForce.Undefined, false);
    CleanAmount(m.quantity, refData.quantityPrecision);
    CleanAmount(m.price, refData.pricePrecision);
    CleanFieldsAll(fields);
  }

  lemma AmendLookups(m: ModifyOrder, order: Order, refData: RefData, previousRequestId: string, category: Category)
    ensures var v := Obj(AmendFields(m, order, refData, previousRequestId, category));
            && GetText(v, "category") == Some(CategoryText(category))
            && GetText(v, "symbol") == Some(order.symbol)
            && Get(v, "price") == (if m.price.NaN? then None else Some(Str(AmountText(m.price, refData.pricePrecision))))
            && Get(v, "qty") == (if m.quantity.NaN? then None else Some(Str(AmountText(m.quantity, refData.quantityPrecision))))
            && GetOrderRef(v) == Some(RefOf(order, previousRequestId))
  {
    hide AmountText, CategoryText, AmendFields, Lookup;
    var fields := AmendFields(m, order, refData, previousRequestId, category);
    AmendLayout(m, order, refData, previousRequestId, category);
    LookupAt(fields, 0, "category");
    LookupAt(fields, 1, "symbol");
    if m.price.NaN? {
      LookupMissing(fields, "price");
    } else {
      LookupAt(fields, 2, "price");
    }
    if m.quantity.NaN? {
      LookupMissing(fields, "qty");
    } else {
      LookupAt(fields, |fields| - 2, "qty");
    }
    RefLookup(fields, order, previousRequestId);
  }

  lemma RefLookup(fields: seq<Field>, order: Order, previousRequestId: string)
    requires fields != [] && fields[|fields| - 1] == IdField(order, previousRequestId)
    requires forall i | 0 <= i < |fields| - 1 :: fields[i].key != "orderId" && fields[i].key != "orderLinkId"
    ensures GetOrderRef(Obj(fields)) == Some(RefOf(order, previousRequestId))
  {
    if order.externalOrderId != "" {
      LookupAt(fields, |fields| - 1, "orderId");
    } else {
      LookupMissing(fields, "orderId");
      LookupAt(fields, |fields| - 1, "orderLinkId");
    }
  }

  lemma AmendReads(m: ModifyOrder, order: Order, refData: RefData, previousRequestId: string, category: Category)
    requires CleanText(order.symbol) && CleanText(RefOf(order, previousRequestId).id)
    ensures ReadAmend(Render(Obj(AmendFields(m, order, refData, previousRequestId, category))))
         == Some(AmendRequested(m, order, refData, previousRequestId, category))
  {
    hide AmountText, CategoryText, AmendFields, Lookup, ReadNumber, Read, Render, Clean, ReadCategory, GetOrderRef;
    CleanAmend(m, order, refData, previousRequestId, category);
    ReadOfRender(Obj(AmendFields(m, order, refData, previousRequestId, category)));
    AmendLookups(m, order, refData, previousRequestId, category);
    VocabularyRoundTrip(category, Side.Undefined, OrderType.Undefined, WireTimeInForce.Undefined);
    NumberRoundTrip(m.quantity, refData.quantityPrecision);
    NumberRoundTrip(m.price, refData.pricePrecision);
  }

  lemma AmendRoundTrip(m: ModifyOrder, order: Order, refData: RefData, previousRequestId: string, category: Category)
    ensures ReadAmend(Render(Obj(AmendFields(m, order, refData, previousRequestId, category))))
         == Some(AmendRequested(m, order, refData, previousRequestId, category))
       <==> CleanText(order.symbol) && CleanText(RefOf(order, previousRequestId).id)
  {
    hide Read, Render, Lookup, AmountText, CleanText, ReadCategory, ReadNumber;
    var text := Render(Obj(AmendFields(m, order, refData, previousRequestId, category)));
    if CleanText(order.symbol) && CleanText(RefOf(order, previousRequestId).id) {
      AmendReads(m, order, refData, previousRequestId, category);
    } else {
      ReadTextIsClean(text, "symbol");
      ReadTextIsClean(text, "orderId");
      ReadTextIsClean(text, "orderLinkId");
    }
  }

  lemma AmendInjective(m: ModifyOrder, o: Order, r: RefData, id: string, c: Category,
                       m': ModifyOrder, o': Order, r': RefData, id': string, c': Category)
    requires CleanText(o.symbol) && CleanText(RefOf(o, id).id)
    requires CleanText(o'.symbol) && CleanText(RefOf(o', id').id)
    ensures Render(Obj(AmendFields(m, o, r, id, c))) == Render(Obj(AmendFields(m', o', r', id', c')))
       <==> AmendRequested(m, o, r, id, c) == AmendRequested(m', o', r', id', c')
  {
    hide ReadAmend, Render, AmountText;
    AmendRoundTrip(m, o, r, id, c);
    AmendRoundTrip(m', o', r', id', c');
    SameNumberSameText(m.quantity, r.quantityPrecision, m'.quantity, r'.quantityPrecision);
    SameNumberSameText(m.price, r.pricePrecision, m'.price, r'.pricePrecision);
  }

  // ---- Cancelled orders ----

  lemma CleanCancel(order: Order, previousRequestId: string, category: Category)
    requires CleanText(order.symbol) && CleanText(RefOf(order, previousRequestId).id)
    ensures Clean(Obj(CancelFields(order, previousRequestId, category)))
  {
    hide CategoryText, CleanText;
    CleanKeys();
    CleanVocabulary(category, Side.Undefined, OrderType.Undefined, WireTimeInForce.Undefined, false);
    CleanFieldsAll(CancelFields(order, previousRequestId, category));
  }

  lemma CancelReads(order: Order, previousRequestId: string, category: Category)
    requires CleanText(order.symbol) && CleanText(RefOf(order, previousRequestId).id)
    ensures ReadCancel(Render(Obj(CancelFields(order, previousRequestId, category))))
         == Some(CancelRequested(order, previousRequestId, category))
  {
    hide CategoryText, Lookup, Read, Render, ReadCategory, GetOrderRef, CleanText, Clean;
    var fields := CancelFields(order, previousRequestId, category);
    CleanCancel(order, previousRequestId, category);
    ReadOfRender(Obj(fields));
    LookupAt(fields, 0, "category");
    LookupAt(fields, 1, "symbol");
    RefLookup(fields, order, previousRequestId);
    VocabularyRoundTrip(category, Side.Undefined, OrderType.Undefined, WireTimeInForce.Undefined);
  }

  lemma CancelRoundTrip(order: Order, previousRequestId: string, category: Category)
    ensures ReadCancel(Render(Obj(CancelFields(order, previousRequestId, category))))
         == Some(CancelRequested(order, previousRequestId, category))
       <==> CleanText(order.symbol) && CleanText(RefOf(order, previousRequestId).id)
  {
    hide Read, Render, Lookup, AmountText, CleanText, ReadCategory, ReadNumber;
    var text := Render(Obj(CancelFields(order, previousRequestId, category)));
    if CleanText(order.symbol) && CleanText(RefOf(order, previousRequestId).id) {
      CancelReads(order, previousRequestId, category);
    } else {
      ReadTextIsClean(text, "symbol");
      ReadTextIsClean(text, "orderId");
      ReadTextIsClean(text, "orderLinkId");
    }
  }

  lemma CancelInjective(o: Order, id: string, c: Category, o': Order, id': string, c': Category)
    requires CleanText(o.symbol) && CleanText(RefOf(o, id).id)
    requires CleanText(o'.symbol) && CleanText(RefOf(o', id').id)
    ensures Render(Obj(CancelFields(o, id, c))) == Render(Obj(CancelFields(o', id', c')))
       <==> CancelRequested(o, id, c) == CancelRequested(o', id', c')
  {
    hide ReadCancel, Render;
    CancelRoundTrip(o, id, c);
    CancelRoundTrip(o', id', c');
  }

  // ---- Cancelling all orders of a symbol ----

  lemma CancelAllReads(symbol: string, category: Category)
    requires CleanText(symbol)
    ensures ReadCancelAll(Render(Obj(CancelAllFields(symbol, category)))) == Some(CancelAllRequest(category, symbol))
  {
    hide CategoryText, Lookup, Read, Render, ReadCategory, CleanText;
    var fields := CancelAllFields(symbol, category);
    CleanKeys();
    CleanVocabulary(category, Side.Undefined, OrderType.Undefined, WireTimeInForce.Undefined, false);
    CleanFieldsAll(fields);
    ReadOfRender(Obj(fields));
    LookupAt(fields, 0, "category");
    LookupAt(fields, 1, "symbol");
    VocabularyRoundTrip(category, Side.Undefined, OrderType.Undefined, WireTimeInForce.Undefined);
  }

  /** Category and symbol of a cancel-all are recovered exactly when the symbol needs no escaping. */
  lemma CancelAllRoundTrip(symbol: string, category: Category)
    ensures ReadCancelAll(Render(Obj(CancelAllFields(symbol, category)))) == Some(CancelAllRequest(category, symbol))
       <==> CleanText(symbol)
  {
    hide Read, Render, Lookup, CleanText, ReadCategory;
    if CleanText(symbol) {
      CancelAllReads(symbol, category);
    } else {
      ReadTextIsClean(Render(Obj(CancelAllFields(symbol, category))), "symbol");
    }
  }

  lemma CancelAllInjective(symbol: string, c: Category, symbol': string, c': Category)
    requires CleanText(symbol) && CleanText(symbol')
    ensures Render(Obj(CancelAllFields(symbol, c))) == Render(Obj(CancelAllFields(symbol', c')))
       <==> symbol == symbol' && c == c'
  {
    hide ReadCancelAll, Render;
    CancelAllRoundTrip(symbol, c);
    CancelAllRoundTrip(symbol', c');
  }

  // ---- WebSocket messages ----

  lemma CleanEnvelope(op: string, nowUtc: int, recvWindow: int, body: Json, requestId: string)
    requires CleanText(op) && CleanText(requestId) && Clean(body)
    ensures Clean(EnvelopeTree(op, nowUtc, recvWindow, body, requestId))
  {
    hide CleanText;
    var header := HeaderTree(nowUtc, recvWindow);
    EnvelopeKeys();
    CleanAmount(Units(nowUtc), 0);
    CleanAmount(Units(recvWindow), 0);
    CleanFieldsAll(header.fields);
    assert CleanItems([body]);
    CleanFieldsAll(EnvelopeTree(op, nowUtc, recvWindow, body, requestId).fields);
  }

  lemma EnvelopeKeys()
    ensures CleanText("op") && CleanText("header") && CleanText("args") && CleanText("reqId")
    ensures CleanText("X-BAPI-TIMESTAMP") && CleanText("X-BAPI-RECV-WINDOW")
  {
  }

  // A number without fraction digits.
  function GetWhole(v: Json, key: string): Option<int> {
    var text :- GetText(v, key);
    match Text.ReadDecimal(text)
    case Some((units, precision)) => if precision == 0 then Some(units) else None
    case None => None
  }

  lemma HeaderReads(nowUtc: int, recvWindow: int)
    ensures GetWhole(HeaderTree(nowUtc, recvWindow), "X-BAPI-TIMESTAMP") == Some(nowUtc)
    ensures GetWhole(HeaderTree(nowUtc, recvWindow), "X-BAPI-RECV-WINDOW") == Some(recvWindow)
  {
    hide Text.ReadDecimal, Text.PrintDecimal, Lookup;
    var fields := HeaderTree(nowUtc, recvWindow).fields;
    assert |"X-BAPI-TIMESTAMP"| != |"X-BAPI-RECV-WINDOW"|;
    LookupAt(fields, 0, "X-BAPI-TIMESTAMP");
    LookupAt(fields, 1, "X-BAPI-RECV-WINDOW");
    Text.ReadPrintDecimal(nowUtc, 0);
    Text.ReadPrintDecimal(recvWindow, 0);
  }

  /** A WebSocket message reads as its operation, its times, its request id and one argument: the tree the REST body reads as. */
  lemma EnvelopeReads(op: string, nowUtc: int, recvWindow: int, body: Json, requestId: string)
    requires CleanText(op) && CleanText(requestId) && Clean(body)
    ensures var text := EnvelopePrefix(op, nowUtc, recvWindow) + Render(body) + EnvelopeSuffix(requestId);
            && Read(text).Some?
            && GetText(Read(text).value, "op") == Some(op)
            && Get(Read(text).value, "args") == Some(Arr([body]))
            && Read(Render(body)) == Some(body)
            && GetText(Read(text).value, "reqId") == Some(requestId)
            && Get(Read(text).value, "header").Some?
            && var header := Get(Read(text).value, "header").value;
               && GetWhole(header, "X-BAPI-TIMESTAMP") == Some(nowUtc)
               && GetWhole(header, "X-BAPI-RECV-WINDOW") == Some(recvWindow)
  {
    HeaderReads(nowUtc, recvWindow);
    hide Lookup, Read, Render, Clean, HeaderTree, EnvelopePrefix, EnvelopeSuffix, GetWhole;
    var v := EnvelopeTree(op, nowUtc, recvWindow, body, requestId);
    EnvelopeText(op, nowUtc, recvWindow, body, requestId);
    CleanEnvelope(op, nowUtc, recvWindow, body, requestId);
    ReadOfRender(v);
    ReadOfRender(body);
    LookupAt(v.fields, 0, "op");
    LookupAt(v.fields, 1, "header");
    LookupAt(v.fields, 2, "args");
    LookupAt(v.fields, 3, "reqId");
  }
}
