/**
 The two normalisations of the state of an order: from the message that the exchange pushes when
 it changes, and from the record that it returns when polled. Quantities are integer lots.
 */
module OrderState {
  import opened Wrappers
  import opened Enums
  import Maps

  datatype UpdateType = UNDEFINED_INTERNAL | OPEN | MATCH | UPDATE | FILLED | CANCELED

  /** The pushed message. */
  datatype OrderChange = OrderChange(
    updateType: UpdateType,
    status: Maps.OrderStatus,
    size: nat,
    remainSize: nat,
    filledSize: nat,
    canceledSize: nat,
    matchSize: nat)

  /** The polled record. */
  datatype OrderRecord = OrderRecord(status: Maps.OrderStatus, size: nat, filledSize: nat)

  /** What is published about an order. */
  datatype Published = Published(status: OrderStatus, remaining: int, traded: int)

  predicate Terminal(status: OrderStatus) {
    status == OrderStatus.COMPLETED || status == OrderStatus.CANCELED
  }

  // --- the gateway ---

  function FromPush(data: OrderChange): Published {
    var status :=
      if data.updateType.MATCH? && data.remainSize == 0 then OrderStatus.COMPLETED
      else if data.updateType.CANCELED? then OrderStatus.CANCELED
      else Maps.OrderStatusIn(data.status);
    Published(status, if status == OrderStatus.CANCELED then 0 else data.remainSize, data.filledSize)
  }

  /** The fill that is published with the push, when the order is known. */
  function FillOf(data: OrderChange): Option<nat> {
    if data.updateType.MATCH? then Some(data.matchSize) else None
  }

  function FromPoll(item: OrderRecord): Published {
    var mapped := Maps.OrderStatusIn(item.status);
    var status := if mapped == OrderStatus.COMPLETED && item.size != item.filledSize then OrderStatus.CANCELED else mapped;
    Published(status, if status == OrderStatus.CANCELED then 0 else item.size - item.filledSize, item.filledSize)
  }

  // --- the exchange: an order is opened, matched any number of times, and filled or canceled ---

  /** `shown`: the status with a match; `remain`: the part of a canceled order shown as remaining. */
  datatype Event =
    | Opened(size: nat)
    | Matched(quantity: nat, shown: Maps.OrderStatus)
    | Filled
    | Canceled(remain: nat)

  type History = seq<Event>

  function Size(h: History): nat {
    if h != [] && h[0].Opened? then h[0].size else 0
  }

  function Traded(h: History): nat {
    if h == [] then 0
    else Traded(h[..|h| - 1]) + match h[|h| - 1] case Matched(quantity, _) => quantity case _ => 0
  }

  predicate Legal(h: History) {
    h != [] &&
    var last := h[|h| - 1];
    if |h| == 1 then last.Opened? && last.size > 0
    else
      var init := h[..|h| - 1];
      && Legal(init) && !init[|init| - 1].Filled? && !init[|init| - 1].Canceled?
      && match last
         case Opened(_) => false
         case Matched(quantity, shown) =>
           0 < quantity <= Size(init) - Traded(init) && (shown.OPEN? || shown.MATCH?)
         case Filled => Traded(init) == Size(init)
         case Canceled(remain) => remain <= Size(init) - Traded(init)
  }

  /** The message pushed with the last event: size == filled + remain + canceled. */
  function Message(h: History): OrderChange
    requires Legal(h)
  {
    LegalTrades(h);
    var size, traded := Size(h), Traded(h);
    match h[|h| - 1]
    case Opened(_) => OrderChange(UpdateType.OPEN, Maps.OrderStatus.OPEN, size, size, 0, 0, 0)
    case Matched(quantity, shown) => OrderChange(UpdateType.MATCH, shown, size, size - traded, traded, 0, quantity)
    case Filled => OrderChange(UpdateType.FILLED, Maps.OrderStatus.DONE, size, 0, traded, 0, 0)
    case Canceled(remain) =>
      OrderChange(UpdateType.CANCELED, Maps.OrderStatus.DONE, size, remain, traded, size - traded - remain, 0)
  }

  /** The record when polled: done when nothing remains to be traded. */
  function Record(h: History): OrderRecord
    requires Legal(h)
  {
    var done := Traded(h) == Size(h) || h[|h| - 1].Canceled?;
    OrderRecord(if done then Maps.OrderStatus.DONE else Maps.OrderStatus.OPEN, Size(h), Traded(h))
  }

  /** The exchange never trades more than the size. */
  lemma {:induction false} LegalTrades(h: History)
    requires Legal(h)
    ensures Traded(h) <= Size(h) && Size(h) > 0
    ensures h[|h| - 1].Opened? ==> Traded(h) == 0
    ensures h[|h| - 1].Canceled? ==> h[|h| - 1].remain <= Size(h) - Traded(h)
    ensures h[|h| - 1].Filled? ==> Traded(h) == Size(h)
  {
    if |h| > 1 {
      LegalTrades(h[..|h| - 1]);
    } else {
      assert Traded(h[..0]) == 0;
    }
  }

  /** A cancel that finds everything traded. */
  predicate CanceledWhenFilled(h: History) {
    h != [] && h[|h| - 1].Canceled? && Traded(h) == Size(h)
  }

  // --- main results ---

  /**
   What is published about every history: WORKING exactly while something remains and there is no
   cancel, with the part that is not traded as the rest; afterwards nothing remains, and the order
   is COMPLETED if everything was traded and CANCELED otherwise, but for a cancel that finds
   everything traded, which the push calls CANCELED.
   */
  lemma StatusOfHistory(h: History)
    requires Legal(h)
    ensures var push, poll := FromPush(Message(h)), FromPoll(Record(h));
            var canceled, full := h[|h| - 1].Canceled?, Traded(h) == Size(h);
            && push.status == (if canceled then OrderStatus.CANCELED
                               else if full then OrderStatus.COMPLETED
                               else OrderStatus.WORKING)
            && poll.status == (if full then OrderStatus.COMPLETED
                               else if canceled then OrderStatus.CANCELED
                               else OrderStatus.WORKING)
            && push.remaining == poll.remaining == (if canceled || full then 0 else Size(h) - Traded(h))
            && push.traded == poll.traded == Traded(h)
  {
    LegalTrades(h);
  }

  /**
   For every history, what is published from the latest push is what is published from the record
   of the same state, except exactly for a cancel that finds everything traded: the push says
   CANCELED, the record COMPLETED.
   */
  lemma PushAndPollAgreeIff(h: History)
    requires Legal(h)
    ensures FromPush(Message(h)) == FromPoll(Record(h)) <==> !CanceledWhenFilled(h)
  {
    LegalTrades(h);
  }

  /** If the exchange lets a cancel follow the last match, the two disagree. */
  lemma DisagreementHappens()
    ensures exists h: History ::
              Legal(h) && CanceledWhenFilled(h) && FromPush(Message(h)).status == OrderStatus.CANCELED
              && FromPoll(Record(h)).status == OrderStatus.COMPLETED
  {
    var h1 := [Opened(1)];
    var h2 := h1 + [Matched(1, Maps.OrderStatus.MATCH)];
    var h3 := h2 + [Canceled(0)];
    assert h1[..0] == [] && h2[..1] == h1 && h3[..2] == h2;
    assert Traded(h1) == 0 && Traded(h2) == 1;
    assert Legal(h1) && Legal(h2);
    assert Legal(h3) && CanceledWhenFilled(h3);
  }

  /** Either way nothing remains of an order once its status is terminal, and something before. */
  lemma TerminalIffNothingRemains(h: History)
    requires Legal(h)
    ensures Terminal(FromPush(Message(h)).status) <==> FromPush(Message(h)).remaining == 0
    ensures Terminal(FromPoll(Record(h)).status) <==> FromPoll(Record(h)).remaining == 0
  {
    LegalTrades(h);
  }

  lemma {:induction false} PrefixIsLegal(h: History, n: nat)
    requires Legal(h) && 0 < n <= |h|
    ensures Legal(h[..n]) && Size(h[..n]) == Size(h)
    decreases |h|
  {
    if n < |h| {
      PrefixIsLegal(h[..|h| - 1], n);
      assert h[..|h| - 1][..n] == h[..n];
    } else {
      assert h[..n] == h;
    }
  }

  /** The fills published over a history. */
  function Fills(h: History): seq<nat>
    requires Legal(h)
  {
    var fill := FillOf(Message(h));
    (if |h| == 1 then [] else Fills(h[..|h| - 1])) + if fill.Some? then [fill.value] else []
  }

  function Sum(xs: seq<nat>): nat {
    if xs == [] then 0 else Sum(xs[..|xs| - 1]) + xs[|xs| - 1]
  }

  function Matches(h: History): nat {
    if h == [] then 0 else Matches(h[..|h| - 1]) + if h[|h| - 1].Matched? then 1 else 0
  }

  /** There is one fill per match, and the fills add up to the traded quantity last published. */
  lemma {:induction false} FillsAddUp(h: History)
    requires Legal(h)
    ensures Sum(Fills(h)) == FromPush(Message(h)).traded && |Fills(h)| == Matches(h)
  {
    LegalTrades(h);
    var init := h[..|h| - 1];
    if |h| == 1 {
      assert init == [];
    } else {
      FillsAddUp(init);
      LegalTrades(init);
      if h[|h| - 1].Matched? {
        assert Fills(h)[..|Fills(h)| - 1] == Fills(init);
      } else {
        assert Fills(h) == Fills(init);
      }
    }
  }

  /**
   Once a published status is terminal, all later ones are, and it is the same status except
   exactly after a cancel that found everything traded.
   */
  lemma {:induction false} TerminalStatusStays(h: History, n: nat)
    requires Legal(h) && 0 < n <= |h| && Legal(h[..n]) && Terminal(FromPush(Message(h[..n])).status)
    ensures Terminal(FromPush(Message(h)).status)
    ensures n < |h| ==>
              (FromPush(Message(h)).status == FromPush(Message(h[..n])).status <==> !CanceledWhenFilled(h))
    decreases |h|
  {
    if n < |h| {
      var init := h[..|h| - 1];
      assert init[..n] == h[..n];
      PrefixIsLegal(h, |h| - 1);
      TerminalStatusStays(init, n);
      LegalTrades(init);
      LegalTrades(h);
      TerminalIffNothingRemains(init);
    } else {
      assert h[..n] == h;
    }
  }
}
