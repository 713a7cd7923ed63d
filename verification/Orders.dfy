// Order actions as the gateway receives them, and their wire vocabulary
// (src/roq/bybit/protocol/json/map.cpp and the enumerations beside it).

module Orders {
  import opened Options
  import Text

  datatype Side = Undefined | Buy | Sell

  datatype OrderType = Undefined | Market | Limit

  datatype TimeInForce =
    | Undefined | Gfd | Gtc | Opg | Ioc | Fok | Gtx | Gtd | AtTheClose
    | GoodThroughCrossing | AtCrossing | GoodForTime | Gfa | Gfm

  datatype ExecutionInstruction = ParticipateDoNotInitiate | DoNotIncrease | Other(code: nat)

  datatype Category = Spot | Linear | Inverse | Option

  // A double that stands for a price or a quantity: no value, or an integer number of units of the precision.
  datatype Amount = NaN | Units(units: int)

  datatype CreateOrder = CreateOrder(
    symbol: string,
    side: Side,
    orderType: OrderType,
    timeInForce: TimeInForce,
    instructions: set<ExecutionInstruction>,
    quantity: Amount,
    price: Amount)

  datatype ModifyOrder = ModifyOrder(quantity: Amount, price: Amount)

  datatype Order = Order(symbol: string, externalOrderId: string)

  datatype RefData = RefData(quantityPrecision: nat, pricePrecision: nat)

  // ---- Wire vocabulary ----

  datatype WireTimeInForce = Undefined | GTC | IOC | FOK | PostOnly

  function MapTimeInForce(t: TimeInForce, instructions: set<ExecutionInstruction>): WireTimeInForce {
    match t
    case Gtc => if ParticipateDoNotInitiate in instructions then PostOnly else GTC
    case Ioc => IOC
    case Fok => FOK
    case _ => WireTimeInForce.Undefined
  }

  // The opposite direction, for updates from the exchange.
  function UnmapTimeInForce(t: WireTimeInForce): TimeInForce {
    match t
    case Undefined => TimeInForce.Undefined
    case GTC => Gtc
    case IOC => Ioc
    case FOK => Fok
    case PostOnly => Gtc
  }

  /** A requested time in force comes back from the wire exactly when it is one of the three the exchange knows (or
      none); any other is sent as no time in force.  Post-only is asked for by an instruction, on GTC orders only. */
  lemma TimeInForceSurvives(t: TimeInForce, instructions: set<ExecutionInstruction>)
    ensures UnmapTimeInForce(MapTimeInForce(t, instructions)) == t <==> t.Undefined? || t.Gtc? || t.Ioc? || t.Fok?
    ensures MapTimeInForce(t, instructions).Undefined? <==> !t.Gtc? && !t.Ioc? && !t.Fok?
    ensures MapTimeInForce(t, instructions).PostOnly? <==> t.Gtc? && ParticipateDoNotInitiate in instructions
  {
  }

  function CategoryText(c: Category): string {
    match c
    case Spot => "spot"
    case Linear => "linear"
    case Inverse => "inverse"
    case Option => "option"
  }

  function SideText(s: Side): string {
    match s
    case Undefined => ""
    case Buy => "Buy"
    case Sell => "Sell"
  }

  function OrderTypeText(t: OrderType): string {
    match t
    case Undefined => ""
    case Market => "Market"
    case Limit => "Limit"
  }

  function TimeInForceText(t: WireTimeInForce): string {
    match t
    case Undefined => ""
    case GTC => "GTC"
    case IOC => "IOC"
    case FOK => "FOK"
    case PostOnly => "PostOnly"
  }

  function AmountText(a: Amount, precision: nat): string {
    match a
    case NaN => "nan"
    case Units(units) => Text.PrintDecimal(units, precision)
  }

  // ---- Reading the vocabulary back ----

  function ReadCategory(t: string): Option<Category> {
    if t == "spot" then Some(Spot)
    else if t == "linear" then Some(Linear)
    else if t == "inverse" then Some(Inverse)
    else if t == "option" then Some(Category.Option)
    else None
  }

  function ReadSide(t: string): Option<Side> {
    if t == "" then Some(Side.Undefined)
    else if t == "Buy" then Some(Buy)
    else if t == "Sell" then Some(Sell)
    else None
  }

  function ReadOrderType(t: string): Option<OrderType> {
    if t == "" then Some(OrderType.Undefined)
    else if t == "Market" then Some(Market)
    else if t == "Limit" then Some(Limit)
    else None
  }

  function ReadTimeInForce(t: string): Option<WireTimeInForce> {
    if t == "" then Some(WireTimeInForce.Undefined)
    else if t == "GTC" then Some(GTC)
    else if t == "IOC" then Some(IOC)
    else if t == "FOK" then Some(FOK)
    else if t == "PostOnly" then Some(PostOnly)
    else None
  }

  // What a number on the wire says: its value and how many fraction digits it was given.
  datatype Number = NotANumber | Fixed(units: int, precision: nat)

  function ReadNumber(t: string): Option<Number> {
    if t == "nan" then Some(NotANumber)
    else match Text.ReadDecimal(t)
         case None => None
         case Some((units, precision)) => Some(Fixed(units, precision))
  }

  function ToNumber(a: Amount, precision: nat): Number {
    match a
    case NaN => NotANumber
    case Units(units) => Fixed(units, precision)
  }

  lemma VocabularyRoundTrip(c: Category, s: Side, o: OrderType, t: WireTimeInForce)
    ensures ReadCategory(CategoryText(c)) == Some(c)
    ensures ReadSide(SideText(s)) == Some(s)
    ensures ReadOrderType(OrderTypeText(o)) == Some(o)
    ensures ReadTimeInForce(TimeInForceText(t)) == Some(t)
  {
  }

  lemma NumberRoundTrip(a: Amount, precision: nat)
    ensures ReadNumber(AmountText(a, precision)) == Some(ToNumber(a, precision))
  {
    if a.Units? {
      var t := AmountText(a, precision);
      Text.ReadPrintDecimal(a.units, precision);
      Text.DecimalCharacters(a.units, precision);
      assert t == "" || t[0] != 'n';
      assert "nan"[0] == 'n';
    }
  }
}
