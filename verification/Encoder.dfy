/** The order encoder: requests as JSON text, appended piece by piece to a caller-owned buffer. */
module Encoder {
  import opened Enums
  import opened Json
  import Decimal
  import Maps

  /** Prices and quantities are fixed-point, in units of the precision of the reference data. */
  datatype CreateOrder = CreateOrder(
    symbol: string,
    side: Side,
    marginMode: MarginMode,
    orderType: OrderType,
    timeInForce: TimeInForce,
    executionInstructions: set<ExecutionInstruction>,
    quantity: int,
    price: int)

  datatype RefData = RefData(quantityPrecision: nat, pricePrecision: nat)

  // --- what the texts mean ---

  function Size(o: CreateOrder, ref: RefData): Decimal.Number {
    Decimal.Number(o.quantity, ref.quantityPrecision)
  }

  function Price(o: CreateOrder, ref: RefData): Decimal.Number {
    Decimal.Number(o.price, ref.pricePrecision)
  }

  /** The order's own margin mode, or the default if it has none. */
  function Margin(o: CreateOrder, defaultMode: MarginMode): MarginMode {
    if o.marginMode != MarginMode.UNDEFINED then o.marginMode else defaultMode
  }

  function Details(o: CreateOrder, ref: RefData, undefined: string): Members
    requires o.orderType != OrderType.UNDEFINED
  {
    var reduceOnly := Bool(DO_NOT_INCREASE in o.executionInstructions);
    var size := Text(Decimal.Format(Size(o, ref)));
    if o.orderType == OrderType.MARKET then
      Member("reduceOnly", reduceOnly, Member("size", size, End))
    else
      Member("timeInForce", Text(Maps.TimeInForceText(Maps.TimeInForceOut(o.timeInForce), undefined)),
        Member("reduceOnly", reduceOnly,
          Member("size", size,
            Member("price", Text(Decimal.Format(Price(o, ref))), End))))
  }

  function Options(o: CreateOrder, ref: RefData, undefined: string): Members
    requires o.orderType != OrderType.UNDEFINED
  {
    if PARTICIPATE_DO_NOT_INITIATE in o.executionInstructions then
      Member("postOnly", Bool(true), Details(o, ref, undefined))
    else Details(o, ref, undefined)
  }

  /** The members of `add_order`, in the order in which they are written. */
  function OrderMembers(o: CreateOrder, ref: RefData, requestId: string, defaultMode: MarginMode, undefined: string): Members
    requires o.orderType != OrderType.UNDEFINED
  {
    Member("clientOid", Text(requestId),
      Member("symbol", Text(o.symbol),
        Member("side", Text(Maps.SideText(Maps.SideOut(o.side), undefined)),
          Member("marginMode", Text(Maps.MarginModeText(Maps.MarginModeOut(Margin(o, defaultMode)), undefined)),
            Member("type", Text(Maps.OrderTypeText(Maps.OrderTypeOut(o.orderType), undefined)),
              Options(o, ref, undefined))))))
  }

  function Operation(id: string, op: string, args: Members): Value {
    Object(Member("id", Text(id), Member("op", Text(op), Member("args", Object(args), End))))
  }

  function CancelMembers(symbol: string, clientOrderId: string): Members {
    Member("symbol", Text(symbol), Member("clientOid", Text(clientOrderId), End))
  }

  // --- the encoder ---

  /** A text member, piece by piece. */
  lemma {:induction false} TextMember(name: string, x: string, next: Members)
    ensures PrintedMembers(Member(name, Text(x), next), "") ==
            "\"" + (name + ("\":" + ("\"" + (x + ("\"" + PrintedNext(next, ""))))))
  {
    assert Printed(Text(x), PrintedNext(next, "")) == "\"" + (x + ("\"" + PrintedNext(next, "")));
  }

  lemma {:induction false} FlagMember(name: string, flag: bool, next: Members)
    ensures PrintedMembers(Member(name, Bool(flag), next), "") ==
            "\"" + (name + ("\":" + ((if flag then "true" else "false") + PrintedNext(next, ""))))
  {
    assert Printed(Bool(flag), PrintedNext(next, "")) == (if flag then "true" else "false") + PrintedNext(next, "");
  }

  lemma {:induction false} LastMember(name: string, members: Members)
    ensures PrintedMembers(Member(name, Object(members), End), "") ==
            "\"" + (name + ("\":" + (Print(Object(members)) + "}")))
  {
    PrintedAppends(Object(members), "}");
    assert PrintedNext(End, "") == "}";
  }

  function Label(name: string): string {
    ",\"" + name + "\":"
  }

  /** An object written after its name, and the brace that closes the object around it. */
  lemma LastArgument(before: string, name: string, members: Members)
    ensures before + Label(name) + Print(Object(members)) + PrintedNext(End, "") ==
            before + PrintedNext(Member(name, Object(members), End), "")
  {
    LastMember(name, members);
    assert PrintedNext(End, "") == "}";
    hide PrintedMembers;
    hide Print;
    var argument := Print(Object(members));
    assert before + Label(name) + argument + "}" == before + ("," + ("\"" + (name + ("\":" + (argument + "}")))));
  }

  /** A string that the caller owns. */
  class Buffer {
    var text: string

    constructor ()
      ensures text == ""
    {
      text := "";
    }

    /** `{"name":"x"` */
    method OpenObject(name: string, x: string, ghost next: Members)
      modifies this
      ensures text + PrintedNext(next, "") == old(text) + Print(Object(Member(name, Text(x), next)))
    {
      TextMember(name, x, next);
      ghost var after := PrintedNext(next, "");
      text := text + "{\"" + name + "\":\"" + x + "\"";
      assert text + after == old(text) + ("{" + ("\"" + (name + ("\":" + ("\"" + (x + ("\"" + after)))))));
    }

    /** `,"name":"x"` */
    method AppendText(name: string, x: string, ghost next: Members)
      modifies this
      ensures text + PrintedNext(next, "") == old(text) + PrintedNext(Member(name, Text(x), next), "")
    {
      TextMember(name, x, next);
      ghost var after := PrintedNext(next, "");
      text := text + ",\"" + name + "\":\"" + x + "\"";
      assert text + after == old(text) + ("," + ("\"" + (name + ("\":" + ("\"" + (x + ("\"" + after)))))));
    }

    /** `,"name":flag` */
    method AppendFlag(name: string, flag: bool, ghost next: Members)
      modifies this
      ensures text + PrintedNext(next, "") == old(text) + PrintedNext(Member(name, Bool(flag), next), "")
    {
      FlagMember(name, flag, next);
      ghost var after := PrintedNext(next, "");
      var word := if flag then "true" else "false";
      text := text + ",\"" + name + "\":" + word;
      assert text + after == old(text) + ("," + ("\"" + (name + ("\":" + (word + after)))));
    }

    /** `,"name":` */
    method AppendName(name: string)
      modifies this
      ensures text == old(text) + Label(name)
    {
      text := text + ",\"" + name + "\":";
    }

    /** `}` */
    method CloseObject()
      modifies this
      ensures text == old(text) + PrintedNext(End, "")
    {
      text := text + "}";
    }
  }

  /** `add_order`; the encoder asserts that the order type is set. */
  method AddOrder(buffer: Buffer, o: CreateOrder, ref: RefData, requestId: string, defaultMode: MarginMode,
        undefined: string)
    returns (r: string)
    requires o.orderType != OrderType.UNDEFINED
    modifies buffer
    ensures r == buffer.text == Print(Object(OrderMembers(o, ref, requestId, defaultMode, undefined)))
  {
    hide PrintedNext;
    hide Print;
    buffer.text := "";
    var side := Maps.SideText(Maps.SideOut(o.side), undefined);
    var orderType := Maps.OrderTypeText(Maps.OrderTypeOut(o.orderType), undefined);
    var mode := if o.marginMode != MarginMode.UNDEFINED then o.marginMode else defaultMode;
    var marginMode := Maps.MarginModeText(Maps.MarginModeOut(mode), undefined);
    ghost var rest := Options(o, ref, undefined);
    ghost var m4 := Member("type", Text(orderType), rest);
    ghost var m3 := Member("marginMode", Text(marginMode), m4);
    ghost var m2 := Member("side", Text(side), m3);
    ghost var m1 := Member("symbol", Text(o.symbol), m2);
    buffer.OpenObject("clientOid", requestId, m1);
    buffer.AppendText("symbol", o.symbol, m2);
    buffer.AppendText("side", side, m3);
    buffer.AppendText("marginMode", marginMode, m4);
    buffer.AppendText("type", orderType, rest);
    if PARTICIPATE_DO_NOT_INITIATE in o.executionInstructions {
      buffer.AppendFlag("postOnly", true, Details(o, ref, undefined));
    }
    AppendDetails(buffer, o, ref, undefined);
    return buffer.text;
  }

  /** The part that depends on the order type, and the end of the object. */
  method AppendDetails(buffer: Buffer, o: CreateOrder, ref: RefData, undefined: string)
    requires o.orderType != OrderType.UNDEFINED
    modifies buffer
    ensures buffer.text == old(buffer.text) + PrintedNext(Details(o, ref, undefined), "")
  {
    hide PrintedNext;
    var reduceOnly := DO_NOT_INCREASE in o.executionInstructions;
    var size := Decimal.Format(Size(o, ref));
    if o.orderType == OrderType.MARKET {
      buffer.AppendFlag("reduceOnly", reduceOnly, Member("size", Text(size), End));
      buffer.AppendText("size", size, End);
    } else {
      var timeInForce := Maps.TimeInForceText(Maps.TimeInForceOut(o.timeInForce), undefined);
      var price := Decimal.Format(Price(o, ref));
      ghost var m2 := Member("price", Text(price), End);
      ghost var m1 := Member("size", Text(size), m2);
      buffer.AppendText("timeInForce", timeInForce, Member("reduceOnly", Bool(reduceOnly), m1));
      buffer.AppendFlag("reduceOnly", reduceOnly, m1);
      buffer.AppendText("size", size, m2);
      buffer.AppendText("price", price, End);
    }
    buffer.CloseObject();
  }

  /** `ws_add_order`: the same object as the arguments of an operation, written over the buffer. */
  method WsAddOrder(buffer: Buffer, o: CreateOrder, ref: RefData, requestId: string, defaultMode: MarginMode,
        undefined: string)
    returns (r: string)
    requires o.orderType != OrderType.UNDEFINED
    modifies buffer
    ensures r == buffer.text ==
            Print(Operation(requestId, "futures.order", OrderMembers(o, ref, requestId, defaultMode, undefined)))
  {
    hide PrintedNext;
    hide Print;
    hide Label;
    var args := AddOrder(buffer, o, ref, requestId, defaultMode, undefined);
    ghost var members := OrderMembers(o, ref, requestId, defaultMode, undefined);
    ghost var last := Member("args", Object(members), End);
    buffer.text := "";
    buffer.OpenObject("id", requestId, Member("op", Text("futures.order"), last));
    buffer.AppendText("op", "futures.order", last);
    LastArgument(buffer.text, "args", members);
    buffer.AppendName("args");
    buffer.text := buffer.text + args;
    buffer.CloseObject();
    return buffer.text;
  }

  /** `ws_cancel_order` */
  method WsCancelOrder(buffer: Buffer, symbol: string, clientOrderId: string, requestId: string)
    returns (r: string)
    modifies buffer
    ensures r == buffer.text == Print(Operation(requestId, "futures.cancel", CancelMembers(symbol, clientOrderId)))
  {
    hide PrintedNext;
    hide Print;
    hide Label;
    ghost var members := CancelMembers(symbol, clientOrderId);
    ghost var last := Member("args", Object(members), End);
    buffer.text := "";
    buffer.OpenObject("id", requestId, Member("op", Text("futures.cancel"), last));
    buffer.AppendText("op", "futures.cancel", last);
    LastArgument(buffer.text, "args", members);
    buffer.AppendName("args");
    buffer.OpenObject("symbol", symbol, Member("clientOid", Text(clientOrderId), End));
    buffer.AppendText("clientOid", clientOrderId, End);
    buffer.CloseObject();
    buffer.CloseObject();
    return buffer.text;
  }
}
