/** The texts of the encoder, field by field as they go over the wire. */
module WireText {
  import opened Enums
  import opened Json
  import opened Encoder
  import Decimal
  import Maps

  // --- reference definitions ---

  /** `"name":"x"` */
  function Quoted(name: string, x: string): string {
    "\"" + name + "\":\"" + x + "\""
  }

  /** `"name":flag` */
  function Flag(name: string, flag: bool): string {
    "\"" + name + "\":" + if flag then "true" else "false"
  }

  /** The fields with commas between them. */
  function Joined(fields: seq<string>): string {
    if |fields| == 0 then ""
    else if |fields| == 1 then fields[0]
    else fields[0] + "," + Joined(fields[1..])
  }

  function Braced(fields: seq<string>): string {
    "{" + Joined(fields) + "}"
  }

  /** The fields of every order. */
  function HeaderFields(o: CreateOrder, requestId: string, defaultMode: MarginMode, undefined: string): seq<string> {
    var mode := if o.marginMode == MarginMode.UNDEFINED then defaultMode else o.marginMode;
    [Quoted("clientOid", requestId),
     Quoted("symbol", o.symbol),
     Quoted("side", match o.side case BUY => "buy" case SELL => "sell" case UNDEFINED => undefined),
     Quoted("marginMode", if mode == MarginMode.CROSS then "CROSS" else "ISOLATED"),
     Quoted("type", if o.orderType == OrderType.MARKET then "market" else "limit")]
  }

  /** The fields that depend on the type of the order. */
  function DetailFields(o: CreateOrder, ref: RefData, undefined: string): seq<string> {
    var reduceOnly := Flag("reduceOnly", DO_NOT_INCREASE in o.executionInstructions);
    var size := Quoted("size", Decimal.Format(Size(o, ref)));
    if o.orderType == OrderType.MARKET then [reduceOnly, size]
    else
      var timeInForce := match o.timeInForce case GTC => "GTC" case IOC => "IOC" case FOK => "FOK" case _ => undefined;
      [Quoted("timeInForce", timeInForce), reduceOnly, size, Quoted("price", Decimal.Format(Price(o, ref)))]
  }

  function OrderFields(o: CreateOrder, ref: RefData, requestId: string, defaultMode: MarginMode, undefined: string)
    : seq<string>
  {
    HeaderFields(o, requestId, defaultMode, undefined) +
    (if PARTICIPATE_DO_NOT_INITIATE in o.executionInstructions then [Flag("postOnly", true)] else []) +
    DetailFields(o, ref, undefined)
  }

  // --- any object ---

  function FieldText(name: string, v: Value): string {
    "\"" + name + "\":" + Print(v)
  }

  function FieldTexts(ms: Members): seq<string> {
    match ms
    case End => []
    case Member(name, v, next) => [FieldText(name, v)] + FieldTexts(next)
  }

  lemma {:induction false} MembersJoin(ms: Members)
    requires ms != End
    ensures PrintedMembers(ms, "") == Joined(FieldTexts(ms)) + "}"
    decreases ms
  {
    var field, fields := FieldText(ms.name, ms.value), FieldTexts(ms.next);
    MemberText(ms.name, ms.value, ms.next);
    if ms.next != End {
      MembersJoin(ms.next);
      NextText(ms.next);
      hide PrintedMembers;
      hide PrintedNext;
      assert FieldTexts(ms) == [field] + fields && fields != [];
      hide FieldTexts;
      assert ([field] + fields)[1..] == fields;
      assert field + ("," + (Joined(fields) + "}")) == field + "," + Joined(fields) + "}";
    } else {
      assert FieldTexts(ms) == [field];
    }
  }

  lemma MemberText(name: string, v: Value, next: Members)
    ensures PrintedMembers(Member(name, v, next), "") == FieldText(name, v) + PrintedNext(next, "")
  {
    var after := PrintedNext(next, "");
    PrintedAppends(v, after);
    assert PrintedMembers(Member(name, v, next), "") == "\"" + (name + ("\":" + Printed(v, after)));
    hide PrintedMembers;
    hide PrintedNext;
    hide Printed;
    hide Print;
    assert "\"" + (name + ("\":" + (Print(v) + after))) == "\"" + name + "\":" + Print(v) + after;
  }

  lemma NextText(next: Members)
    requires next != End
    ensures PrintedNext(next, "") == "," + PrintedMembers(next, "")
  {
  }

  /** The text of an object is its fields, with commas between them and braces around them. */
  lemma ObjectText(ms: Members)
    requires ms != End
    ensures Print(Object(ms)) == Braced(FieldTexts(ms))
  {
    MembersJoin(ms);
    hide PrintedMembers;
    assert Print(Object(ms)) == "{" + PrintedMembers(ms, "");
  }

  lemma FieldsUnfold()
    ensures forall n: string, v: Value, next: Members ::
              FieldTexts(Member(n, v, next)) == [FieldText(n, v)] + FieldTexts(next)
    ensures FieldTexts(End) == []
    ensures forall n: string, x: string :: FieldText(n, Text(x)) == Quoted(n, x)
    ensures forall n: string, flag: bool :: FieldText(n, Bool(flag)) == Flag(n, flag)
  {
    forall n: string, x: string
      ensures FieldText(n, Text(x)) == Quoted(n, x)
    {
      assert "\"" + n + "\":" + ("\"" + (x + ("\"" + ""))) == "\"" + n + "\":\"" + x + "\"";
    }
    forall n: string, flag: bool
      ensures FieldText(n, Bool(flag)) == Flag(n, flag)
    {
      assert "true" + "" == "true" && "false" + "" == "false";
    }
  }

  // --- main results ---

  lemma DetailTexts(o: CreateOrder, ref: RefData, undefined: string)
    requires o.orderType != OrderType.UNDEFINED
    ensures FieldTexts(Details(o, ref, undefined)) == DetailFields(o, ref, undefined)
  {
    FieldsUnfold();
    hide Quoted;
    hide Flag;
    hide FieldText;
    hide FieldTexts;
  }

  lemma HeaderTexts(a: string, b: string, c: string, d: string, e: string, next: Members)
    ensures FieldTexts(Member("clientOid", Text(a), Member("symbol", Text(b), Member("side", Text(c),
                       Member("marginMode", Text(d), Member("type", Text(e), next)))))) ==
            [Quoted("clientOid", a), Quoted("symbol", b), Quoted("side", c), Quoted("marginMode", d), Quoted("type", e)]
            + FieldTexts(next)
  {
    FieldsUnfold();
    hide Quoted;
    hide FieldText;
    hide FieldTexts;
  }

  lemma OptionTexts(o: CreateOrder, ref: RefData, undefined: string)
    requires o.orderType != OrderType.UNDEFINED
    ensures FieldTexts(Options(o, ref, undefined)) ==
            (if PARTICIPATE_DO_NOT_INITIATE in o.executionInstructions then [Flag("postOnly", true)] else []) +
            DetailFields(o, ref, undefined)
  {
    FieldsUnfold();
    DetailTexts(o, ref, undefined);
    hide Flag;
    hide FieldText;
    hide FieldTexts;
    hide Details;
    hide DetailFields;
  }

  lemma OrderTexts(o: CreateOrder, ref: RefData, requestId: string, defaultMode: MarginMode, undefined: string)
    requires o.orderType != OrderType.UNDEFINED
    ensures FieldTexts(OrderMembers(o, ref, requestId, defaultMode, undefined)) ==
            OrderFields(o, ref, requestId, defaultMode, undefined)
  {
    OptionTexts(o, ref, undefined);
    HeaderTexts(
      requestId, o.symbol, Maps.SideText(Maps.SideOut(o.side), undefined),
      Maps.MarginModeText(Maps.MarginModeOut(Margin(o, defaultMode)), undefined),
      Maps.OrderTypeText(Maps.OrderTypeOut(o.orderType), undefined), Options(o, ref, undefined));
    hide Quoted;
    hide Flag;
    hide FieldTexts;
    hide Options;
    hide DetailFields;
  }

  /** The text of an order, whatever its strings. */
  lemma OrderText(o: CreateOrder, ref: RefData, requestId: string, defaultMode: MarginMode, undefined: string)
    requires o.orderType != OrderType.UNDEFINED
    ensures Print(Object(OrderMembers(o, ref, requestId, defaultMode, undefined))) ==
            Braced(OrderFields(o, ref, requestId, defaultMode, undefined))
  {
    ObjectText(OrderMembers(o, ref, requestId, defaultMode, undefined));
    OrderTexts(o, ref, requestId, defaultMode, undefined);
    hide Print;
    hide Braced;
    hide OrderFields;
    hide FieldTexts;
  }

  /** The text of a websocket operation: its id, its name and the text of its arguments. */
  lemma OperationText(id: string, op: string, args: Members)
    ensures Print(Operation(id, op, args)) ==
            Braced([Quoted("id", id), Quoted("op", op), "\"args\":" + Print(Object(args))])
  {
    var ms := Member("id", Text(id), Member("op", Text(op), Member("args", Object(args), End)));
    ObjectText(ms);
    FieldsUnfold();
    assert FieldText("args", Object(args)) == "\"args\":" + Print(Object(args));
    hide Joined;
    hide Quoted;
    hide FieldText;
    hide FieldTexts;
    hide Print;
    assert FieldTexts(ms) == [Quoted("id", id), Quoted("op", op), FieldText("args", Object(args))];
  }

  lemma CancelText(symbol: string, clientOrderId: string)
    ensures Print(Object(CancelMembers(symbol, clientOrderId))) ==
            Braced([Quoted("symbol", symbol), Quoted("clientOid", clientOrderId)])
  {
    ObjectText(CancelMembers(symbol, clientOrderId));
    FieldsUnfold();
    hide Joined;
    hide Quoted;
    hide FieldText;
    hide FieldTexts;
    assert FieldTexts(CancelMembers(symbol, clientOrderId)) ==
           [Quoted("symbol", symbol), Quoted("clientOid", clientOrderId)];
  }
}
