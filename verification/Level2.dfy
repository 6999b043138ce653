/**
 The text of market data messages: a level 2 change "price,side,quantity", and the symbol at the
 end of a topic.
 */
module Level2 {
  import opened Wrappers
  import opened Enums
  import opened Search
  import Decimal

  function ToSide(text: string): Side {
    if text == "buy" then Side.BUY else if text == "sell" then Side.SELL else Side.UNDEFINED
  }

  /** The three texts that `split` cuts a change into, if it has two commas. */
  datatype Parts = Parts(price: string, side: string, quantity: string)

  /** What is before and after the first comma. */
  function CutOnce(s: string): Option<(string, string)> {
    var sep := FindFirst(s, ',');
    if sep == |s| then None else Some((s[..sep], s[sep + 1..]))
  }

  function Cut(change: string): Option<Parts> {
    match CutOnce(change)
    case None => None
    case Some((price, rest)) =>
      match CutOnce(rest)
      case None => None
      case Some((side, quantity)) => Some(Parts(price, side, quantity))
  }

  /** A side and the two numbers, where they are numbers; without two commas all are default. */
  datatype Change = Change(side: Side, price: Option<Decimal.Number>, quantity: Option<Decimal.Number>)

  function Split(change: string): Change {
    match Cut(change)
    case None => Change(Side.UNDEFINED, Some(Decimal.Number(0, 0)), Some(Decimal.Number(0, 0)))
    case Some(Parts(price, side, quantity)) =>
      Change(ToSide(side), Decimal.Parse(price), Decimal.Parse(quantity))
  }

  /** `bids` and `asks` of the update that one change makes. */
  function Bids(change: string): seq<Change> {
    if Split(change).side == Side.BUY then [Split(change)] else []
  }

  function Asks(change: string): seq<Change> {
    if Split(change).side == Side.SELL then [Split(change)] else []
  }

  function Joined(p: Parts): string {
    p.price + ("," + (p.side + ("," + p.quantity)))
  }

  function Commas(s: string): nat {
    if s == "" then 0 else Commas(s[..|s| - 1]) + if s[|s| - 1] == ',' then 1 else 0
  }

  // --- cutting ---

  lemma CutOnceIff(s: string, a: string, b: string)
    ensures CutOnce(s) == Some((a, b)) <==> s == a + ("," + b) && Without(a, ',')
  {
    if s == a + ("," + b) && Without(a, ',') {
      assert s[..|a|] == a && s[|a| + 1..] == b;
      FirstIs(s, ',', |a|);
    }
    if CutOnce(s) == Some((a, b)) {
      assert s == s[..|a|] + ([s[|a|]] + s[|a| + 1..]);
    }
  }

  /** Cutting undoes joining, exactly for prices and sides without commas. */
  lemma CutIff(change: string, p: Parts)
    ensures Cut(change) == Some(p) <==> change == Joined(p) && Without(p.price, ',') && Without(p.side, ',')
  {
    var rest := p.side + ("," + p.quantity);
    CutOnceIff(change, p.price, rest);
    CutOnceIff(rest, p.side, p.quantity);
    if Cut(change) == Some(p) {
      CutOnceIff(CutOnce(change).value.1, p.side, p.quantity);
    }
    hide CutOnce;
  }

  lemma {:induction false} CommasAppend(a: string, b: string)
    ensures Commas(a + b) == Commas(a) + Commas(b)
  {
    if b == "" {
      assert a + b == a;
    } else {
      CommasAppend(a, b[..|b| - 1]);
      assert (a + b)[..|a + b| - 1] == a + b[..|b| - 1];
    }
  }

  lemma {:induction false} NoCommas(s: string)
    requires Without(s, ',')
    ensures Commas(s) == 0
  {
    if s != "" {
      NoCommas(s[..|s| - 1]);
    }
  }

  lemma CommasOfCut(s: string)
    ensures match CutOnce(s) case None => Commas(s) == 0 case Some((_, rest)) => Commas(s) == 1 + Commas(rest)
  {
    match CutOnce(s)
    case None =>
      NoCommas(s);
    case Some((a, rest)) =>
      CutOnceIff(s, a, rest);
      NoCommas(a);
      OneComma(a, rest);
  }

  /** A change is default exactly when it has fewer than two commas. */
  lemma CutFailsIff(change: string)
    ensures Cut(change) == None <==> Commas(change) < 2
  {
    hide CutOnce;
    CommasOfCut(change);
    if CutOnce(change).Some? {
      CommasOfCut(CutOnce(change).value.1);
    }
  }

  lemma OneComma(a: string, b: string)
    ensures Commas(a + ("," + b)) == Commas(a) + 1 + Commas(b)
  {
    CommasAppend(a, "," + b);
    CommasAppend(",", b);
    assert Commas(",") == 1 by {
      assert ","[..0] == "";
    }
  }

  /** A change of two numbers comes back as those numbers, on the side that it names. */
  lemma ChangeRoundTrip(price: Decimal.Number, side: Side, quantity: Decimal.Number)
    requires side != Side.UNDEFINED
    ensures var name := if side == Side.BUY then "buy" else "sell";
            var change := Joined(Parts(Decimal.Format(price), name, Decimal.Format(quantity)));
            var update := Change(side, Some(price), Some(quantity));
            && Split(change) == update
            && Bids(change) == (if side == Side.BUY then [update] else [])
            && Asks(change) == (if side == Side.SELL then [update] else [])
  {
    hide Decimal.Parse;
    hide Decimal.Format;
    hide Cut;
    hide Joined;
    var name := if side == Side.BUY then "buy" else "sell";
    var p := Parts(Decimal.Format(price), name, Decimal.Format(quantity));
    Decimal.FormatIsPlain(price);
    Decimal.FormatReads(price);
    Decimal.FormatReads(quantity);
    CutIff(Joined(p), p);
  }

  /**
   Any change updates the bids if and only if it is cut and its side says buy, the asks if and only
   if it says sell, and each with what `split` returns.
   */
  lemma SidesIff(change: string, p: Parts)
    requires Without(p.price, ',') && Without(p.side, ',')
    ensures Bids(Joined(p)) == if p.side == "buy" then [Split(Joined(p))] else []
    ensures Asks(Joined(p)) == if p.side == "sell" then [Split(Joined(p))] else []
    ensures Commas(change) < 2 ==> Bids(change) == Asks(change) == []
  {
    hide Cut;
    hide Joined;
    CutIff(Joined(p), p);
    CutFailsIff(change);
  }

  // --- topics ---

  /** `strip_symbol_from_topic` */
  function StripSymbol(topic: string): string {
    var pos := FindLast(topic, ':');
    if pos == |topic| then topic else topic[pos + 1..]
  }

  /** What is subscribed. */
  function Topic(topic: string, symbol: string): string {
    topic + ":" + symbol
  }

  lemma StripLeavesNoColon(topic: string)
    ensures Without(StripSymbol(topic), ':')
  {
  }

  /** The symbol comes back exactly if it holds no colon. */
  lemma TopicRoundTrip(topic: string, symbol: string)
    ensures StripSymbol(Topic(topic, symbol)) == symbol <==> Without(symbol, ':')
  {
    var t := Topic(topic, symbol);
    StripLeavesNoColon(t);
    if Without(symbol, ':') {
      assert t[|topic| + 1..] == symbol;
      LastIs(t, ':', |topic|);
    }
  }

  lemma StripIsIdempotent(topic: string)
    ensures StripSymbol(StripSymbol(topic)) == StripSymbol(topic)
  {
    StripLeavesNoColon(topic);
  }
}
