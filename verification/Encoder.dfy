// The order encoders of src/roq/bybit/protocol/json/encoder.cpp: each clears the caller's buffer and appends
// one message to it.  The REST body and the WebSocket message are specified as the text of a JSON tree.

module Encoder {
  import opened Json
  import opened Orders
  import Text

  /** The caller's string, reused from call to call. */
  class Buffer {
    var text: string

    constructor ()
      ensures text == ""
    {
      text := "";
    }

    method Clear()
      modifies this
      ensures text == ""
    {
      text := "";
    }

    method Append(s: string)
      modifies this
      ensures text == old(text) + s
    {
      text := text + s;
    }
  }

  // ---- What is written: trees ----

  function StrField(key: string, text: string): Field {
    Field(key, Str(text))
  }

  function AmountField(key: string, a: Amount, precision: nat): seq<Field> {
    if a.NaN? then [] else [StrField(key, AmountText(a, precision))]
  }

  function BoolText(b: bool): string {
    if b then "true" else "false"
  }

  // The fields in the order they are written.
  function PlaceFields(o: CreateOrder, refData: RefData, requestId: string, category: Category): seq<Field> {
    [StrField("category", CategoryText(category))]
    + [StrField("symbol", o.symbol)]
    + [StrField("side", SideText(o.side))]
    + [StrField("orderType", OrderTypeText(o.orderType))]
    + [StrField("qty", AmountText(o.quantity, refData.quantityPrecision))]
    + [StrField("timeInForce", TimeInForceText(MapTimeInForce(o.timeInForce, o.instructions)))]
    + [Field("reduceOnly", Bare(BoolText(DoNotIncrease in o.instructions)))]
    + AmountField("price", o.price, refData.pricePrecision)
    + [StrField("orderLinkId", requestId)]
  }

  function IdField(order: Order, previousRequestId: string): Field {
    if order.externalOrderId != "" then StrField("orderId", order.externalOrderId)
    else StrField("orderLinkId", previousRequestId)
  }

  function AmendFields(m: ModifyOrder, order: Order, refData: RefData, previousRequestId: string, category: Category): seq<Field> {
    [StrField("category", CategoryText(category))]
    + [StrField("symbol", order.symbol)]
    + AmountField("price", m.price, refData.pricePrecision)
    + AmountField("qty", m.quantity, refData.quantityPrecision)
    + [IdField(order, previousRequestId)]
  }

  function CancelFields(order: Order, previousRequestId: string, category: Category): seq<Field> {
    [StrField("category", CategoryText(category))]
    + [StrField("symbol", order.symbol)]
    + [IdField(order, previousRequestId)]
  }

  function CancelAllFields(symbol: string, category: Category): seq<Field> {
    [StrField("category", CategoryText(category))] + [StrField("symbol", symbol)]
  }

  // ---- The WebSocket envelope ----

  function HeaderTree(nowUtc: int, recvWindow: int): Json {
    Obj([StrField("X-BAPI-TIMESTAMP", Text.PrintDecimal(nowUtc, 0)), StrField("X-BAPI-RECV-WINDOW", Text.PrintDecimal(recvWindow, 0))])
  }

  // The envelope with `body` as the single element of args.
  function EnvelopeTree(op: string, nowUtc: int, recvWindow: int, body: Json, requestId: string): Json {
    Obj([StrField("op", op), Field("header", HeaderTree(nowUtc, recvWindow)), Field("args", Arr([body])), StrField("reqId", requestId)])
  }

  function Member(key: string, value: string): string {
    Quote(key) + ":" + value
  }

  function HeaderText(nowUtc: int, recvWindow: int): string {
    "{" + Member("X-BAPI-TIMESTAMP", Quote(Text.PrintDecimal(nowUtc, 0)))
    + ("," + Member("X-BAPI-RECV-WINDOW", Quote(Text.PrintDecimal(recvWindow, 0)))) + "}"
  }

  function EnvelopePrefix(op: string, nowUtc: int, recvWindow: int): string {
    "{" + Member("op", Quote(op))
    + ("," + Member("header", HeaderText(nowUtc, recvWindow)))
    + ("," + Member("args", "["))
  }

  function EnvelopeSuffix(requestId: string): string {
    "]" + ("," + Member("reqId", Quote(requestId))) + "}"
  }

  // ---- Building the text of an object field by field ----

  lemma Begins(prefix: string, key: string, value: Json)
    ensures prefix + "{" + Member(key, Render(value)) == prefix + "{" + RenderFields([Field(key, value)])
  {
  }

  lemma Grows(text: string, prefix: string, fields: seq<Field>, f: Field)
    requires fields != []
    requires text == prefix + "{" + RenderFields(fields)
    ensures text + ("," + Member(f.key, Render(f.value))) == prefix + "{" + RenderFields(fields + [f])
  {
    RenderFieldsSnoc(fields, f);
  }

  lemma ArrayOfOne(key: string, body: Json)
    ensures Member(key, Render(Arr([body]))) == Member(key, "[") + Render(body) + "]"
  {
    assert RenderItems([body]) == Render(body);
  }

  lemma HeaderTextIsTree(nowUtc: int, recvWindow: int)
    ensures HeaderText(nowUtc, recvWindow) == Render(HeaderTree(nowUtc, recvWindow))
  {
    hide RenderFields, Text.PrintDecimal, Quote, Member;
    var a := StrField("X-BAPI-TIMESTAMP", Text.PrintDecimal(nowUtc, 0));
    var b := StrField("X-BAPI-RECV-WINDOW", Text.PrintDecimal(recvWindow, 0));
    Begins("", a.key, a.value);
    Grows("{" + Member(a.key, Render(a.value)), "", [a], b);
    assert [a, b] == [a] + [b];
  }

  /** A WebSocket message is the text of one JSON tree, whose args array holds the body and nothing else. */
  lemma EnvelopeText(op: string, nowUtc: int, recvWindow: int, body: Json, requestId: string)
    ensures EnvelopePrefix(op, nowUtc, recvWindow) + Render(body) + EnvelopeSuffix(requestId)
         == Render(EnvelopeTree(op, nowUtc, recvWindow, body, requestId))
  {
    hide RenderFields, HeaderText, HeaderTree, Quote, Member;
    var a, b, c, d := StrField("op", op), Field("header", HeaderTree(nowUtc, recvWindow)),
      Field("args", Arr([body])), StrField("reqId", requestId);
    HeaderTextIsTree(nowUtc, recvWindow);
    var t1 := "{" + Member(a.key, Render(a.value));
    var t2 := t1 + ("," + Member(b.key, Render(b.value)));
    var t3 := t2 + ("," + Member(c.key, Render(c.value)));
    ArrayOfOne(c.key, body);
    assert Render(a.value) == Quote(op) && Render(d.value) == Quote(requestId);
    Begins("", a.key, a.value);
    Grows(t1, "", [a], b);
    Grows(t2, "", [a] + [b], c);
    Grows(t3, "", [a] + [b] + [c], d);
    var head := EnvelopePrefix(op, nowUtc, recvWindow) + Render(body);
    var last := "," + Member(d.key, Render(d.value));
    assert head + "]" == t3;
    assert head + EnvelopeSuffix(requestId) == (head + "]") + last + "}";
    assert [a, b, c, d] == [a] + [b] + [c] + [d];
  }

  // ---- The encoders ----

  // The fields every order message starts with, and the optional ones, are appended by these three.
  method AppendFirst(buffer: Buffer, ghost prefix: string, key: string, value: string) returns (ghost fields: seq<Field>)
    requires buffer.text == prefix
    modifies buffer
    ensures fields == [StrField(key, value)]
    ensures buffer.text == prefix + "{" + RenderFields(fields)
  {
    fields := [StrField(key, value)];
    Begins(prefix, key, Str(value));
    buffer.Append("{");
    buffer.Append(Member(key, Quote(value)));
  }

  method AppendField(buffer: Buffer, ghost prefix: string, ghost fields: seq<Field>, key: string, value: string)
    returns (ghost fields': seq<Field>)
    requires fields != [] && buffer.text == prefix + "{" + RenderFields(fields)
    modifies buffer
    ensures fields' == fields + [StrField(key, value)]
    ensures buffer.text == prefix + "{" + RenderFields(fields')
  {
    fields' := fields + [StrField(key, value)];
    Grows(buffer.text, prefix, fields, StrField(key, value));
    buffer.Append("," + Member(key, Quote(value)));
  }

  method AppendFlag(buffer: Buffer, ghost prefix: string, ghost fields: seq<Field>, key: string, flag: bool)
    returns (ghost fields': seq<Field>)
    requires fields != [] && buffer.text == prefix + "{" + RenderFields(fields)
    modifies buffer
    ensures fields' == fields + [Field(key, Bare(BoolText(flag)))]
    ensures buffer.text == prefix + "{" + RenderFields(fields')
  {
    fields' := fields + [Field(key, Bare(BoolText(flag)))];
    Grows(buffer.text, prefix, fields, Field(key, Bare(BoolText(flag))));
    buffer.Append("," + Member(key, BoolText(flag)));
  }

  method AppendAmount(buffer: Buffer, ghost prefix: string, ghost fields: seq<Field>, key: string, a: Amount, precision: nat)
    returns (ghost fields': seq<Field>)
    requires fields != [] && buffer.text == prefix + "{" + RenderFields(fields)
    modifies buffer
    ensures fields' == fields + AmountField(key, a, precision)
    ensures buffer.text == prefix + "{" + RenderFields(fields')
  {
    fields' := fields;
    if !a.NaN? {
      fields' := AppendField(buffer, prefix, fields, key, AmountText(a, precision));
    }
  }

  // ---- REST ----

  method PlaceOrder(buffer: Buffer, o: CreateOrder, refData: RefData, requestId: string, category: Category)
    modifies buffer
    ensures buffer.text == Render(Obj(PlaceFields(o, refData, requestId, category)))
  {
    hide RenderFields, AmountText, CategoryText, SideText, OrderTypeText, TimeInForceText, BoolText, AmountField;
    buffer.Clear();
    var timeInForce := MapTimeInForce(o.timeInForce, o.instructions);
    var reduceOnly := DoNotIncrease in o.instructions;
    ghost var fields := AppendFirst(buffer, "", "category", CategoryText(category));
    fields := AppendField(buffer, "", fields, "symbol", o.symbol);
    fields := AppendField(buffer, "", fields, "side", SideText(o.side));
    fields := AppendField(buffer, "", fields, "orderType", OrderTypeText(o.orderType));
    fields := AppendField(buffer, "", fields, "qty", AmountText(o.quantity, refData.quantityPrecision));
    fields := AppendField(buffer, "", fields, "timeInForce", TimeInForceText(timeInForce));
    fields := AppendFlag(buffer, "", fields, "reduceOnly", reduceOnly);
    fields := AppendAmount(buffer, "", fields, "price", o.price, refData.pricePrecision);
    fields := AppendField(buffer, "", fields, "orderLinkId", requestId);
    buffer.Append("}");
    assert fields == PlaceFields(o, refData, requestId, category);
  }

  method AmendOrder(buffer: Buffer, m: ModifyOrder, order: Order, refData: RefData, previousRequestId: string, category: Category)
    modifies buffer
    ensures buffer.text == Render(Obj(AmendFields(m, order, refData, previousRequestId, category)))
  {
    hide RenderFields;
    buffer.Clear();
    ghost var fields := AppendFirst(buffer, "", "category", CategoryText(category));
    fields := AppendField(buffer, "", fields, "symbol", order.symbol);
    fields := AppendAmount(buffer, "", fields, "price", m.price, refData.pricePrecision);
    fields := AppendAmount(buffer, "", fields, "qty", m.quantity, refData.quantityPrecision);
    if order.externalOrderId != "" {
      fields := AppendField(buffer, "", fields, "orderId", order.externalOrderId);
    } else {
      fields := AppendField(buffer, "", fields, "orderLinkId", previousRequestId);
    }
    buffer.Append("}");
    assert fields == AmendFields(m, order, refData, previousRequestId, category);
  }

  method CancelOrder(buffer: Buffer, order: Order, previousRequestId: string, category: Category)
    modifies buffer
    ensures buffer.text == Render(Obj(CancelFields(order, previousRequestId, category)))
  {
    hide RenderFields;
    buffer.Clear();
    ghost var fields := AppendFirst(buffer, "", "category", CategoryText(category));
    fields := AppendField(buffer, "", fields, "symbol", order.symbol);
    if order.externalOrderId != "" {
      fields := AppendField(buffer, "", fields, "orderId", order.externalOrderId);
    } else {
      fields := AppendField(buffer, "", fields, "orderLinkId", previousRequestId);
    }
    buffer.Append("}");
    assert fields == CancelFields(order, previousRequestId, category);
  }

  method CancelAllOrders(buffer: Buffer, symbol: string, category: Category)
    modifies buffer
    ensures buffer.text == Render(Obj(CancelAllFields(symbol, category)))
  {
    hide RenderFields;
    buffer.Clear();
    ghost var fields := AppendFirst(buffer, "", "category", CategoryText(category));
    fields := AppendField(buffer, "", fields, "symbol", symbol);
    buffer.Append("}");
    assert fields == CancelAllFields(symbol, category);
  }

  // ---- WebSocket ----

  method AppendEnvelope(buffer: Buffer, op: string, nowUtc: int, recvWindow: int)
    requires buffer.text == ""
    modifies buffer
    ensures buffer.text == EnvelopePrefix(op, nowUtc, recvWindow)
  {
    hide Text.PrintDecimal, HeaderText;
    buffer.Append("{" + Member("op", Quote(op)));
    buffer.Append("," + Member("header", HeaderText(nowUtc, recvWindow)));
    buffer.Append("," + Member("args", "["));
  }

  method PlaceOrderWs(buffer: Buffer, o: CreateOrder, refData: RefData, requestId: string, category: Category,
                      nowUtc: int, recvWindow: int)
    modifies buffer
    ensures buffer.text == EnvelopePrefix("order.create", nowUtc, recvWindow)
                           + Render(Obj(PlaceFields(o, refData, requestId, category)))
                           + EnvelopeSuffix(requestId)
  {
    hide RenderFields, AmountText, CategoryText, SideText, OrderTypeText, TimeInForceText, BoolText, AmountField;
    buffer.Clear();
    var timeInForce := MapTimeInForce(o.timeInForce, o.instructions);
    var reduceOnly := DoNotIncrease in o.instructions;
    AppendEnvelope(buffer, "order.create", nowUtc, recvWindow);
    ghost var prefix := EnvelopePrefix("order.create", nowUtc, recvWindow);
    ghost var fields := AppendFirst(buffer, prefix, "category", CategoryText(category));
    fields := AppendField(buffer, prefix, fields, "symbol", o.symbol);
    fields := AppendField(buffer, prefix, fields, "side", SideText(o.side));
    fields := AppendField(buffer, prefix, fields, "orderType", OrderTypeText(o.orderType));
    fields := AppendField(buffer, prefix, fields, "qty", AmountText(o.quantity, refData.quantityPrecision));
    fields := AppendField(buffer, prefix, fields, "timeInForce", TimeInForceText(timeInForce));
    fields := AppendFlag(buffer, prefix, fields, "reduceOnly", reduceOnly);
    fields := AppendAmount(buffer, prefix, fields, "price", o.price, refData.pricePrecision);
    fields := AppendField(buffer, prefix, fields, "orderLinkId", requestId);
    assert fields == PlaceFields(o, refData, requestId, category);
    CloseBody(buffer, prefix, fields, requestId);
  }

  method AmendOrderWs(buffer: Buffer, m: ModifyOrder, order: Order, refData: RefData, requestId: string,
                      previousRequestId: string, category: Category, nowUtc: int, recvWindow: int)
    modifies buffer
    ensures buffer.text == EnvelopePrefix("order.amend", nowUtc, recvWindow)
                           + Render(Obj(AmendFields(m, order, refData, previousRequestId, category)))
                           + EnvelopeSuffix(requestId)
  {
    hide RenderFields;
    buffer.Clear();
    AppendEnvelope(buffer, "order.amend", nowUtc, recvWindow);
    ghost var prefix := EnvelopePrefix("order.amend", nowUtc, recvWindow);
    ghost var fields := AppendFirst(buffer, prefix, "category", CategoryText(category));
    fields := AppendField(buffer, prefix, fields, "symbol", order.symbol);
    fields := AppendAmount(buffer, prefix, fields, "price", m.price, refData.pricePrecision);
    fields := AppendAmount(buffer, prefix, fields, "qty", m.quantity, refData.quantityPrecision);
    if order.externalOrderId != "" {
      fields := AppendField(buffer, prefix, fields, "orderId", order.externalOrderId);
    } else {
      fields := AppendField(buffer, prefix, fields, "orderLinkId", previousRequestId);
    }
    assert fields == AmendFields(m, order, refData, previousRequestId, category);
    CloseBody(buffer, prefix, fields, requestId);
  }

  method CancelOrderWs(buffer: Buffer, order: Order, requestId: string, previousRequestId: string, category: Category,
                       nowUtc: int, recvWindow: int)
    modifies buffer
    ensures buffer.text == EnvelopePrefix("order.cancel", nowUtc, recvWindow)
                           + Render(Obj(CancelFields(order, previousRequestId, category)))
                           + EnvelopeSuffix(requestId)
  {
    hide RenderFields;
    buffer.Clear();
    AppendEnvelope(buffer, "order.cancel", nowUtc, recvWindow);
    ghost var prefix := EnvelopePrefix("order.cancel", nowUtc, recvWindow);
    ghost var fields := AppendFirst(buffer, prefix, "category", CategoryText(category));
    fields := AppendField(buffer, prefix, fields, "symbol", order.symbol);
    if order.externalOrderId != "" {
      fields := AppendField(buffer, prefix, fields, "orderId", order.externalOrderId);
    } else {
      fields := AppendField(buffer, prefix, fields, "orderLinkId", previousRequestId);
    }
    assert fields == CancelFields(order, previousRequestId, category);
    CloseBody(buffer, prefix, fields, requestId);
  }

  // The closing brace of the body, then the end of the message.
  method CloseBody(buffer: Buffer, ghost prefix: string, ghost fields: seq<Field>, requestId: string)
    requires buffer.text == prefix + "{" + RenderFields(fields)
    modifies buffer
    ensures buffer.text == prefix + Render(Obj(fields)) + EnvelopeSuffix(requestId)
  {
    hide RenderFields, Quote;
    buffer.Append("}");
    assert buffer.text == prefix + Render(Obj(fields));
    buffer.Append("]");
    buffer.Append("," + Member("reqId", Quote(requestId)));
    buffer.Append("}");
  }
}
