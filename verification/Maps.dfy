/**
 Enumerations of the exchange, their texts on the wire, and the maps between them and the client
 side enumerations.
 */
module Maps {
  import Enums

  datatype Side = UNDEFINED_INTERNAL | BUY | SELL
  datatype MarginMode = UNDEFINED_INTERNAL | CROSS | ISOLATED
  datatype OrderType = UNDEFINED_INTERNAL | MARKET | LIMIT
  datatype TimeInForce = UNDEFINED_INTERNAL | GTC | IOC | FOK | GTT
  datatype OrderStatus = UNDEFINED_INTERNAL | OPEN | MATCH | DONE

  // --- from the client side ---

  function SideOut(x: Enums.Side): Side {
    match x
    case UNDEFINED => Side.UNDEFINED_INTERNAL
    case BUY => Side.BUY
    case SELL => Side.SELL
  }

  function MarginModeOut(x: Enums.MarginMode): MarginMode {
    match x
    case UNDEFINED => MarginMode.ISOLATED
    case ISOLATED => MarginMode.ISOLATED
    case CROSS => MarginMode.CROSS
    case PORTFOLIO => MarginMode.ISOLATED
  }

  function OrderTypeOut(x: Enums.OrderType): OrderType {
    match x
    case UNDEFINED => OrderType.UNDEFINED_INTERNAL
    case MARKET => OrderType.MARKET
    case LIMIT => OrderType.LIMIT
  }

  function TimeInForceOut(x: Enums.TimeInForce): TimeInForce {
    match x
    case GTC => TimeInForce.GTC
    case IOC => TimeInForce.IOC
    case FOK => TimeInForce.FOK
    case _ => TimeInForce.UNDEFINED_INTERNAL
  }

  // --- to the client side ---

  function SideIn(x: Side): Enums.Side {
    match x
    case UNDEFINED_INTERNAL => Enums.Side.UNDEFINED
    case BUY => Enums.Side.BUY
    case SELL => Enums.Side.SELL
  }

  function MarginModeIn(x: MarginMode): Enums.MarginMode {
    match x
    case UNDEFINED_INTERNAL => Enums.MarginMode.UNDEFINED
    case CROSS => Enums.MarginMode.CROSS
    case ISOLATED => Enums.MarginMode.ISOLATED
  }

  function OrderTypeIn(x: OrderType): Enums.OrderType {
    match x
    case UNDEFINED_INTERNAL => Enums.OrderType.UNDEFINED
    case MARKET => Enums.OrderType.MARKET
    case LIMIT => Enums.OrderType.LIMIT
  }

  function TimeInForceIn(x: TimeInForce): Enums.TimeInForce {
    match x
    case GTC => Enums.TimeInForce.GTC
    case IOC => Enums.TimeInForce.IOC
    case FOK => Enums.TimeInForce.FOK
    case _ => Enums.TimeInForce.UNDEFINED
  }

  function OrderStatusIn(x: OrderStatus): Enums.OrderStatus {
    match x
    case UNDEFINED_INTERNAL => Enums.OrderStatus.UNDEFINED
    case OPEN => Enums.OrderStatus.WORKING
    case MATCH => Enums.OrderStatus.WORKING
    case DONE => Enums.OrderStatus.COMPLETED
  }

  // --- texts (`undefined`: the text of an undefined value, which comes from generated code) ---

  function SideText(x: Side, undefined: string): string {
    match x
    case UNDEFINED_INTERNAL => undefined
    case BUY => "buy"
    case SELL => "sell"
  }

  function MarginModeText(x: MarginMode, undefined: string): string {
    match x
    case UNDEFINED_INTERNAL => undefined
    case CROSS => "CROSS"
    case ISOLATED => "ISOLATED"
  }

  function OrderTypeText(x: OrderType, undefined: string): string {
    match x
    case UNDEFINED_INTERNAL => undefined
    case MARKET => "market"
    case LIMIT => "limit"
  }

  function TimeInForceText(x: TimeInForce, undefined: string): string {
    match x
    case UNDEFINED_INTERNAL => undefined
    case GTC => "GTC"
    case IOC => "IOC"
    case FOK => "FOK"
    case GTT => "GTT"
  }

  function ReadSide(text: string): Side {
    if text == "buy" then Side.BUY else if text == "sell" then Side.SELL else Side.UNDEFINED_INTERNAL
  }

  function ReadMarginMode(text: string): MarginMode {
    if text == "CROSS" then MarginMode.CROSS
    else if text == "ISOLATED" then MarginMode.ISOLATED
    else MarginMode.UNDEFINED_INTERNAL
  }

  function ReadOrderType(text: string): OrderType {
    if text == "market" then OrderType.MARKET else if text == "limit" then OrderType.LIMIT else OrderType.UNDEFINED_INTERNAL
  }

  function ReadTimeInForce(text: string): TimeInForce {
    if text == "GTC" then TimeInForce.GTC
    else if text == "IOC" then TimeInForce.IOC
    else if text == "FOK" then TimeInForce.FOK
    else if text == "GTT" then TimeInForce.GTT
    else TimeInForce.UNDEFINED_INTERNAL
  }

  /** The text of an undefined value is none of the texts of the enumerations. */
  predicate Unused(undefined: string) {
    && ReadSide(undefined).UNDEFINED_INTERNAL? && ReadMarginMode(undefined).UNDEFINED_INTERNAL?
    && ReadOrderType(undefined).UNDEFINED_INTERNAL? && ReadTimeInForce(undefined).UNDEFINED_INTERNAL?
  }

  /** Sides and order types survive the wire. */
  lemma SideSurvives(x: Enums.Side, undefined: string)
    requires Unused(undefined)
    ensures SideIn(ReadSide(SideText(SideOut(x), undefined))) == x
  {
  }

  lemma OrderTypeSurvives(x: Enums.OrderType, undefined: string)
    requires Unused(undefined)
    ensures OrderTypeIn(ReadOrderType(OrderTypeText(OrderTypeOut(x), undefined))) == x
  {
  }

  /** Only GTC, IOC and FOK survive; everything else arrives as undefined. */
  lemma TimeInForceSurvives(x: Enums.TimeInForce, undefined: string)
    requires Unused(undefined)
    ensures TimeInForceIn(ReadTimeInForce(TimeInForceText(TimeInForceOut(x), undefined))) ==
            if x.GTC? || x.IOC? || x.FOK? then x else Enums.TimeInForce.UNDEFINED
  {
  }

  /** Every margin mode but CROSS arrives as ISOLATED. */
  lemma MarginModeSurvives(x: Enums.MarginMode, undefined: string)
    ensures MarginModeIn(ReadMarginMode(MarginModeText(MarginModeOut(x), undefined))) ==
            if x.CROSS? then x else Enums.MarginMode.ISOLATED
  {
  }
}
