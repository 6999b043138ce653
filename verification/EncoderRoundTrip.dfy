/** The texts of the encoder read back as the requests they were written for. */
module EncoderRoundTrip {
  import opened Wrappers
  import opened Enums
  import opened Json
  import opened Encoder
  import Decimal
  import Maps

  // --- how the other side reads a request: members by name ---

  function Lookup(ms: Members, name: string): Option<Value> {
    match ms
    case End => None
    case Member(n, v, next) => if n == name then Some(v) else Lookup(next, name)
  }

  function TextOf(ms: Members, name: string): Option<string> {
    match Lookup(ms, name)
    case Some(Text(x)) => Some(x)
    case _ => None
  }

  function FlagOf(ms: Members, name: string): Option<bool> {
    match Lookup(ms, name)
    case Some(Bool(flag)) => Some(flag)
    case _ => None
  }

  function NumberOf(ms: Members, name: string): Option<Decimal.Number> {
    match TextOf(ms, name)
    case Some(x) => Decimal.Parse(x)
    case None => None
  }

  /** A request as the client side sees its fields; None and UNDEFINED: missing or not understood. */
  datatype Fields = Fields(
    clientOid: Option<string>,
    symbol: Option<string>,
    side: Side,
    marginMode: MarginMode,
    orderType: OrderType,
    postOnly: Option<bool>,
    timeInForce: Option<TimeInForce>,
    reduceOnly: Option<bool>,
    size: Option<Decimal.Number>,
    price: Option<Decimal.Number>)

  function SideOf(x: Option<string>): Side {
    if x.Some? then Maps.SideIn(Maps.ReadSide(x.value)) else Side.UNDEFINED
  }

  function MarginModeOf(x: Option<string>): MarginMode {
    if x.Some? then Maps.MarginModeIn(Maps.ReadMarginMode(x.value)) else MarginMode.UNDEFINED
  }

  function OrderTypeOf(x: Option<string>): OrderType {
    if x.Some? then Maps.OrderTypeIn(Maps.ReadOrderType(x.value)) else OrderType.UNDEFINED
  }

  function TimeInForceOf(x: Option<string>): Option<TimeInForce> {
    if x.Some? then Some(Maps.TimeInForceIn(Maps.ReadTimeInForce(x.value))) else None
  }

  function Decode(ms: Members): Fields {
    Fields(
      TextOf(ms, "clientOid"),
      TextOf(ms, "symbol"),
      SideOf(TextOf(ms, "side")),
      MarginModeOf(TextOf(ms, "marginMode")),
      OrderTypeOf(TextOf(ms, "type")),
      FlagOf(ms, "postOnly"),
      TimeInForceOf(TextOf(ms, "timeInForce")),
      FlagOf(ms, "reduceOnly"),
      NumberOf(ms, "size"),
      NumberOf(ms, "price"))
  }

  function DecodeObject(v: Option<Value>): Option<Fields> {
    match v
    case Some(Object(ms)) => Some(Decode(ms))
    case _ => None
  }

  // --- what the request asked for ---

  predicate Supported(t: TimeInForce) {
    t.GTC? || t.IOC? || t.FOK?
  }

  /**
   Side and type as ordered; the default margin mode if and only if the order has none, and
   ISOLATED for anything but CROSS; post-only if and only if asked for; price and time in force if
   and only if it is a limit order, the time in force UNDEFINED where the exchange has no such.
   */
  function Requested(o: CreateOrder, ref: RefData, requestId: string, defaultMode: MarginMode): Fields {
    var mode := if o.marginMode == MarginMode.UNDEFINED then defaultMode else o.marginMode;
    var limit := o.orderType == OrderType.LIMIT;
    Fields(
      Some(requestId),
      Some(o.symbol),
      o.side,
      if mode == MarginMode.CROSS then MarginMode.CROSS else MarginMode.ISOLATED,
      o.orderType,
      if PARTICIPATE_DO_NOT_INITIATE in o.executionInstructions then Some(true) else None,
      if limit then Some(if Supported(o.timeInForce) then o.timeInForce else TimeInForce.UNDEFINED) else None,
      Some(DO_NOT_INCREASE in o.executionInstructions),
      Some(Decimal.Number(o.quantity, ref.quantityPrecision)),
      if limit then Some(Decimal.Number(o.price, ref.pricePrecision)) else None)
  }

  lemma LookupUnfolds()
    ensures forall n: string, v: Value, next: Members, name: string ::
              Lookup(Member(n, v, next), name) == if n == name then Some(v) else Lookup(next, name)
    ensures forall name: string :: Lookup(End, name) == None
  {
  }

  lemma DetailsDecode(o: CreateOrder, ref: RefData, undefined: string)
    requires o.orderType != OrderType.UNDEFINED && Maps.Unused(undefined)
    ensures var ms := Details(o, ref, undefined);
            var r := Requested(o, ref, "", MarginMode.UNDEFINED);
            && FlagOf(ms, "postOnly") == None
            && TimeInForceOf(TextOf(ms, "timeInForce")) == r.timeInForce
            && FlagOf(ms, "reduceOnly") == r.reduceOnly
            && NumberOf(ms, "size") == r.size
            && NumberOf(ms, "price") == r.price
  {
    LookupUnfolds();
    hide Lookup;
    hide Decimal.Parse;
    hide Decimal.Format;
    Decimal.FormatReads(Size(o, ref));
    Decimal.FormatReads(Price(o, ref));
    if o.orderType == OrderType.LIMIT {
      Maps.TimeInForceSurvives(o.timeInForce, undefined);
    }
  }

  /** The names of the options are not those of the five members before them. */
  lemma OptionsFollow(o: CreateOrder, ref: RefData, requestId: string, defaultMode: MarginMode, undefined: string,
        name: string)
    requires o.orderType != OrderType.UNDEFINED
    requires name in {"postOnly", "timeInForce", "reduceOnly", "size", "price"}
    ensures Lookup(OrderMembers(o, ref, requestId, defaultMode, undefined), name) == Lookup(Options(o, ref, undefined), name)
    ensures name != "postOnly" ==> Lookup(Options(o, ref, undefined), name) == Lookup(Details(o, ref, undefined), name)
  {
    LookupUnfolds();
    hide Lookup;
    hide Details;
    assert |name| != 9 && |name| != 6 && (|name| == 4 ==> name == "size");
  }

  lemma HeaderDecodes(o: CreateOrder, ref: RefData, requestId: string, defaultMode: MarginMode, undefined: string)
    requires o.orderType != OrderType.UNDEFINED && Maps.Unused(undefined)
    ensures var d := Decode(OrderMembers(o, ref, requestId, defaultMode, undefined));
            var r := Requested(o, ref, requestId, defaultMode);
            && d.clientOid == r.clientOid && d.symbol == r.symbol && d.side == r.side
            && d.marginMode == r.marginMode && d.orderType == r.orderType
  {
    LookupUnfolds();
    hide Lookup;
    hide Options;
    hide FlagOf;
    hide NumberOf;
    Maps.SideSurvives(o.side, undefined);
    Maps.OrderTypeSurvives(o.orderType, undefined);
    Maps.MarginModeSurvives(Margin(o, defaultMode), undefined);
  }

  /** For every order with a type, the members say what was requested. */
  lemma MembersDecode(o: CreateOrder, ref: RefData, requestId: string, defaultMode: MarginMode, undefined: string)
    requires o.orderType != OrderType.UNDEFINED && Maps.Unused(undefined)
    ensures Decode(OrderMembers(o, ref, requestId, defaultMode, undefined)) == Requested(o, ref, requestId, defaultMode)
  {
    HeaderDecodes(o, ref, requestId, defaultMode, undefined);
    DetailsDecode(o, ref, undefined);
    OptionsDecode(o, ref, requestId, defaultMode, undefined);
    hide OrderMembers;
    hide Details;
    hide SideOf;
    hide MarginModeOf;
    hide OrderTypeOf;
    hide TimeInForceOf;
    hide TextOf;
    hide FlagOf;
    hide NumberOf;
  }

  lemma OptionsDecode(o: CreateOrder, ref: RefData, requestId: string, defaultMode: MarginMode, undefined: string)
    requires o.orderType != OrderType.UNDEFINED
    ensures var ms, details := OrderMembers(o, ref, requestId, defaultMode, undefined), Details(o, ref, undefined);
            && FlagOf(ms, "postOnly") ==
               (if PARTICIPATE_DO_NOT_INITIATE in o.executionInstructions then Some(true) else FlagOf(details, "postOnly"))
            && TextOf(ms, "timeInForce") == TextOf(details, "timeInForce")
            && FlagOf(ms, "reduceOnly") == FlagOf(details, "reduceOnly")
            && NumberOf(ms, "size") == NumberOf(details, "size")
            && NumberOf(ms, "price") == NumberOf(details, "price")
  {
    OptionsFollow(o, ref, requestId, defaultMode, undefined, "postOnly");
    OptionsFollow(o, ref, requestId, defaultMode, undefined, "timeInForce");
    OptionsFollow(o, ref, requestId, defaultMode, undefined, "reduceOnly");
    OptionsFollow(o, ref, requestId, defaultMode, undefined, "size");
    OptionsFollow(o, ref, requestId, defaultMode, undefined, "price");
    hide OrderMembers;
    hide Details;
    hide Decimal.Parse;
  }

  // --- main results ---

  lemma TextsAreClean(undefined: string, o: CreateOrder, ref: RefData)
    requires Clean(undefined)
    ensures Clean(Maps.SideText(Maps.SideOut(o.side), undefined))
    ensures Clean(Maps.OrderTypeText(Maps.OrderTypeOut(o.orderType), undefined))
    ensures Clean(Maps.TimeInForceText(Maps.TimeInForceOut(o.timeInForce), undefined))
    ensures forall m :: Clean(Maps.MarginModeText(Maps.MarginModeOut(m), undefined))
    ensures Clean(Decimal.Format(Size(o, ref))) && Clean(Decimal.Format(Price(o, ref)))
  {
    hide Decimal.Format;
    Decimal.FormatIsPlain(Size(o, ref));
    Decimal.FormatIsPlain(Price(o, ref));
  }

  lemma CleanUnfolds()
    ensures forall n: string, v: Value, next: Members ::
              CleanMembers(Member(n, v, next)) <==> Clean(n) && CleanValue(v) && CleanMembers(next)
    ensures CleanMembers(End)
    ensures forall x: string :: CleanValue(Text(x)) <==> Clean(x)
    ensures forall flag: bool :: CleanValue(Bool(flag))
    ensures forall ms: Members :: CleanValue(Object(ms)) <==> CleanMembers(ms)
  {
  }

  lemma NamesAreClean()
    ensures Clean("clientOid") && Clean("symbol") && Clean("side") && Clean("marginMode") && Clean("type")
    ensures Clean("postOnly") && Clean("timeInForce") && Clean("reduceOnly") && Clean("size") && Clean("price")
    ensures Clean("id") && Clean("op") && Clean("args") && Clean("futures.order") && Clean("futures.cancel")
  {
  }

  lemma CleanDetails(o: CreateOrder, ref: RefData, undefined: string)
    requires o.orderType != OrderType.UNDEFINED && Clean(undefined)
    ensures CleanMembers(Options(o, ref, undefined))
  {
    NamesAreClean();
    TextsAreClean(undefined, o, ref);
    CleanUnfolds();
    hide CleanMembers;
    hide CleanValue;
    hide Clean;
  }

  lemma CleanOrder(o: CreateOrder, ref: RefData, requestId: string, defaultMode: MarginMode, undefined: string)
    requires o.orderType != OrderType.UNDEFINED && Clean(undefined)
    ensures CleanMembers(OrderMembers(o, ref, requestId, defaultMode, undefined)) <==> Clean(requestId) && Clean(o.symbol)
  {
    NamesAreClean();
    TextsAreClean(undefined, o, ref);
    CleanDetails(o, ref, undefined);
    CleanUnfolds();
    hide CleanMembers;
    hide CleanValue;
    hide Clean;
    hide Options;
  }

  /**
   The text of an order is a JSON object that reads back as the members written, exactly when
   request id and symbol hold no quote, backslash or control character; and then the fields that
   the other side finds in it are those requested.
   */
  lemma OrderRoundTrip(o: CreateOrder, ref: RefData, requestId: string, defaultMode: MarginMode, undefined: string)
    requires o.orderType != OrderType.UNDEFINED && Maps.Unused(undefined) && Clean(undefined)
    ensures var ms := OrderMembers(o, ref, requestId, defaultMode, undefined);
            && (Parse(Print(Object(ms))) == Some(Object(ms)) <==> Clean(requestId) && Clean(o.symbol))
            && (Clean(requestId) && Clean(o.symbol) ==>
                  DecodeObject(Parse(Print(Object(ms)))) == Some(Requested(o, ref, requestId, defaultMode)))
  {
    var ms := OrderMembers(o, ref, requestId, defaultMode, undefined);
    CleanOrder(o, ref, requestId, defaultMode, undefined);
    ReadsBackIffClean(Object(ms));
    MembersDecode(o, ref, requestId, defaultMode, undefined);
    hide Decode;
    hide Requested;
    hide Clean;
  }

  /** The arguments of an operation. */
  function Arguments(v: Option<Value>): Option<Value> {
    match v
    case Some(Object(ms)) => Lookup(ms, "args")
    case _ => None
  }

  function Identifier(v: Option<Value>): Option<string> {
    match v
    case Some(Object(ms)) => TextOf(ms, "id")
    case _ => None
  }

  /** An operation reads back exactly when its id, name and arguments are clean. */
  lemma OperationReadsBack(id: string, op: string, args: Members)
    requires Clean(op)
    ensures var text := Print(Operation(id, op, args));
            && (Parse(text) == Some(Operation(id, op, args)) <==> Clean(id) && CleanMembers(args))
            && (Clean(id) && CleanMembers(args) ==>
                  Identifier(Parse(text)) == Some(id) && Arguments(Parse(text)) == Some(Object(args)))
  {
    ReadsBackIffClean(Operation(id, op, args));
    NamesAreClean();
    LookupUnfolds();
    CleanUnfolds();
    hide Clean;
    hide CleanMembers;
    hide CleanValue;
    hide Lookup;
  }

  /**
   The websocket form carries the same order: under the same condition its arguments are the
   requested fields, and its id is their client order id.
   */
  lemma OperationRoundTrip(o: CreateOrder, ref: RefData, requestId: string, defaultMode: MarginMode, undefined: string)
    requires o.orderType != OrderType.UNDEFINED && Maps.Unused(undefined) && Clean(undefined)
    ensures var v := Operation(requestId, "futures.order", OrderMembers(o, ref, requestId, defaultMode, undefined));
            && (Parse(Print(v)) == Some(v) <==> Clean(requestId) && Clean(o.symbol))
            && (Clean(requestId) && Clean(o.symbol) ==>
                  && DecodeObject(Arguments(Parse(Print(v)))) == Some(Requested(o, ref, requestId, defaultMode))
                  && Identifier(Parse(Print(v))) == Requested(o, ref, requestId, defaultMode).clientOid)
  {
    var ms := OrderMembers(o, ref, requestId, defaultMode, undefined);
    NamesAreClean();
    CleanOrder(o, ref, requestId, defaultMode, undefined);
    OperationReadsBack(requestId, "futures.order", ms);
    MembersDecode(o, ref, requestId, defaultMode, undefined);
    hide Decode;
    hide Clean;
    hide OrderMembers;
  }

  /** A cancel request names the order by symbol and client order id. */
  lemma CancelRoundTrip(symbol: string, clientOrderId: string, requestId: string)
    ensures var v := Operation(requestId, "futures.cancel", CancelMembers(symbol, clientOrderId));
            && (Parse(Print(v)) == Some(v) <==> Clean(requestId) && Clean(symbol) && Clean(clientOrderId))
            && (Clean(requestId) && Clean(symbol) && Clean(clientOrderId) ==>
                  var d := DecodeObject(Arguments(Parse(Print(v))));
                  d.Some? && d.value.symbol == Some(symbol) && d.value.clientOid == Some(clientOrderId))
  {
    NamesAreClean();
    OperationReadsBack(requestId, "futures.cancel", CancelMembers(symbol, clientOrderId));
    LookupUnfolds();
    CleanUnfolds();
    hide Clean;
    hide CleanMembers;
    hide CleanValue;
    hide Lookup;
  }
}
