/**
 What the REST client does with every response and at every tick, by the category of the response,
 and that a response which arrives lets the session that waits for it go on.
 */
module RecoveryReplies {
  import opened Wrappers
  import opened LimitRequest
  import opened Recovery
  import opened RecoveryEarlyCommit
  import opened RecoveryEffects
  import opened RecoveryLostReply
  import opened RecoveryShape

  // --- responses ---

  /**
   A token response ends the process if and only if it is a redirection, or its body is refused,
   has no servers or no ping interval. Every other response commits the slot. A good token is
   delivered: it creates the drop copy, or becomes its query; and it ends the initial download.
   Without one, drop copy and download are as before.
   */
  lemma TokenReplyEffect(w: World, cfg: Settings, reply: Reply<Token>)
    requires Enabled(w, TokenReply(reply))
    ensures var v := Step(w, cfg, TokenReply(reply));
            && (v.fault == Some(REDIRECTED) <==> reply.Redirection?)
            && (v.fault == Some(BAD_TOKEN) <==> HasBody(reply) && !Usable(reply.body.value))
            && (v.fault.Some? ==> v.fault == Some(REDIRECTED) || v.fault == Some(BAD_TOKEN))
            && (v.fault.None? ==> v.req.privateToken.response)
            && v.req.privateToken.wanted == w.req.privateToken.wanted
            && v.rest.replies == w.rest.replies - multiset{PRIVATE_TOKEN}
  {
    AnyToken(reply);
    DeliverLeaves(w, Delivered(reply));
    hide Deliver;
    hide Delivered;
    hide TokenFault;
  }

  lemma DeliverLeaves(w: World, t: Option<Token>)
    requires w.fault.None?
    ensures var v := Deliver(w, t);
            && v.rest == w.rest && v.fault == w.fault && v.req == w.req.(session := v.req.session)
  {
  }

  /** The three cases of a token response, by its body. */
  lemma AnyToken(reply: Reply<Token>)
    ensures TokenFault(reply) == Some(REDIRECTED) <==> reply.Redirection?
    ensures TokenFault(reply) == Some(BAD_TOKEN) <==> HasBody(reply) && !Usable(reply.body.value)
    ensures TokenFault(reply).Some? ==> TokenFault(reply) == Some(REDIRECTED) || TokenFault(reply) == Some(BAD_TOKEN)
    ensures Delivered(reply) == if HasBody(reply) && Usable(reply.body.value) then reply.body else None
  {
  }

  lemma GoodTokenEffect(w: World, cfg: Settings, reply: Reply<Token>)
    requires Enabled(w, TokenReply(reply)) && HasBody(reply) && Usable(reply.body.value)
    ensures var v, t := Step(w, cfg, TokenReply(reply)), reply.body.value;
            && v.fault.None? && v.created && v.rest.hasToken && v.dc.query == "?token=" + t.token
            && (if !w.created then
                  && v.dc.pingFrequency == t.pingInterval && v.dc.tokens == [] && !v.dc.welcome && v.dc.stage == UNDEFINED
                else
                  && v.dc == w.dc.(query := v.dc.query, tokens := v.dc.tokens)
                  && v.dc.tokens == w.dc.tokens +
                     (if w.dc.query != v.dc.query then [Accepted(v.dc.query), Continued] else []))
            && (w.rest.stage == REST_PRIVATE_TOKEN ==> v.rest.stage == REST_DONE && v.rest.status == READY)
            && (w.rest.stage != REST_PRIVATE_TOKEN ==> v.rest.stage == w.rest.stage && v.rest.status == w.rest.status)
  {
    assert w.dc.tokens + [] == w.dc.tokens;
    hide Requests.Commit;
  }

  lemma NoTokenEffect(w: World, cfg: Settings, reply: Reply<Token>)
    requires Enabled(w, TokenReply(reply)) && !(HasBody(reply) && Usable(reply.body.value))
    ensures var v := Step(w, cfg, TokenReply(reply));
            && v.dc == w.dc && v.created == w.created && v.rest == w.rest.(replies := v.rest.replies)
            && (v.fault.None? ==> v.req == w.req.(privateToken := v.req.privateToken, session := v.req.session))
  {
    AnyToken(reply);
    assert Delivered(reply).None?;
    hide Delivered;
    hide TokenFault;
  }

  /**
   Every response to a request for balances, positions, open orders or trades commits its slot,
   errors and network failures included, except a redirection, which ends the process.
   */
  lemma SlotReplyEffect(w: World, cfg: Settings, n: Name, reply: Reply<()>)
    requires Enabled(w, SlotReply(n, reply))
    ensures var v := Step(w, cfg, SlotReply(n, reply));
            && v.fault == (if reply.Redirection? then Some(REDIRECTED) else None)
            && v.dc == w.dc && v.created == w.created && v.link == w.link
            && v.rest == w.rest.(replies := w.rest.replies - multiset{n})
            && (!reply.Redirection? ==> v.req.Get(n) == Slot(w.req.Get(n).wanted, true))
            && (forall m: Name :: m != n ==> v.req.Get(m) == w.req.Get(m))
            && v.req.stale == w.req.stale
  {
    PutKeeps(w.req, n, w.req.Get(n).Commit());
  }

  /**
   A redirection in answer to an order query ends the process; any other answer is counted, and the
   one that brings the counter to zero commits the stale orders.
   */
  lemma OrderReplyEffect(w: World, cfg: Settings, k: Key, reply: Reply<OrderBody>)
    requires Enabled(w, OrderReply(k, reply)) && w.rest.counter > 0
    ensures var v := Step(w, cfg, OrderReply(k, reply));
            && v.fault == (if reply.Redirection? then Some(REDIRECTED) else None)
            && (!reply.Redirection? ==> v.rest.counter == w.rest.counter - 1)
            && (v.req.staleOrders.response <==>
                w.req.staleOrders.response || (!reply.Redirection? && w.rest.counter == 1))
            && v.req == w.req.(staleOrders := v.req.staleOrders, session := v.req.session)
            && v.req.staleOrders.wanted == w.req.staleOrders.wanted
  {
  }

  // --- the session that waits ---

  /** Whatever happens short of a disconnect and of a tick that the connection takes. */
  predicate BeforeTick(es: seq<Event>) {
    forall e: Event :: e in es ==> !e.DropDisconnected? && !(e.DropTimer? && e.tick.refreshed)
  }

  predicate HasAnswer(w: World, s: Stage)
    requires Downloads(s)
  {
    w.dc.stage == s && w.created && w.req.Get(SlotOf(s)).response
  }

  lemma DropKeepsAnswer(w: World, cfg: Settings, e: Event, s: Stage)
    requires Downloads(s) && Shape(w) && HasAnswer(w, s) && Enabled(w, e) && OfDrop(e)
    requires !e.DropDisconnected? && !(e.DropTimer? && e.tick.refreshed)
    ensures HasAnswer(Step(w, cfg, e), s)
  {
    match e
    case DropAck(id) =>
      hide Enter;
    case _ =>
  }

  lemma RestKeepsAnswer(w: World, cfg: Settings, e: Event, s: Stage)
    requires Downloads(s) && HasAnswer(w, s) && Enabled(w, e) && !OfDrop(e)
    ensures HasAnswer(Step(w, cfg, e), s)
  {
    hide RestOnTimer;
    hide OnOrderReply;
    match e
    case RestTimer(refreshed, allowed, known) => RestTimerServes(RestSide(w), refreshed, allowed, known);
    case TokenReply(reply) =>
      hide Delivered;
      hide TokenFault;
    case SlotReply(n, reply) => SlotReplyEffect(w, cfg, n, reply);
    case OrderReply(k, reply) => OrderKeepsAnswer(w, k, reply, s);
    case _ =>
  }

  lemma OrderKeepsAnswer(w: World, k: Key, reply: Reply<OrderBody>, s: Stage)
    requires Downloads(s)
    ensures OnOrderReply(RestSide(w), k, reply).req.Get(SlotOf(s)) == w.req.Get(SlotOf(s))
  {
    CommitKeeps(w.req, STALE_ORDERS, SlotOf(s));
    hide Requests.Commit;
  }

  lemma {:induction false} AnswerStays(w: World, cfg: Settings, s: Stage, es: seq<Event>)
    requires Downloads(s) && Shape(w) && HasAnswer(w, s) && Admissible(w, cfg, es) && BeforeTick(es)
    ensures HasAnswer(Exec(w, cfg, es), s) && Shape(Exec(w, cfg, es))
    decreases |es|
  {
    hide HasAnswer;
    hide Shape;
    hide Step;
    if es != [] {
      var e := es[0];
      assert e in es;
      ShapeStep(w, cfg, e);
      if OfDrop(e) {
        DropKeepsAnswer(w, cfg, e, s);
      } else {
        RestKeepsAnswer(w, cfg, e, s);
      }
      AnswerStays(Step(w, cfg, e), cfg, s, es[1..]);
    }
  }

  /**
   In every run: when a session waits for a slot, any response but a redirection makes it go on at
   its next tick, whatever happens in between.
   */
  lemma ReplyEndsStage(cfg: Settings, es: seq<Event>, n: Name, reply: Reply<()>, more: seq<Event>, t: Tick)
    requires Admissible(INIT, cfg, es)
    requires var w := Exec(INIT, cfg, es);
             && Enabled(w, SlotReply(n, reply)) && !reply.Redirection?
             && IsGet(w.dc.stage) && SlotOf(w.dc.stage) == n
             && Admissible(Step(w, cfg, SlotReply(n, reply)), cfg, more) && BeforeTick(more)
             && OpenTick(Exec(Step(w, cfg, SlotReply(n, reply)), cfg, more), t)
    ensures var w := Exec(INIT, cfg, es);
            var u := Exec(Step(w, cfg, SlotReply(n, reply)), cfg, more);
            var v := Step(u, cfg, DropTimer(t));
            u.dc.stage == w.dc.stage && v.fault.None? && v.dc.stage != w.dc.stage
  {
    hide Exec;
    hide Admissible;
    hide OnSlotReply;
    hide OnTimer;
    hide Shape;
    var w := Exec(INIT, cfg, es);
    ShapeRunFrom(INIT, cfg, es) by { InitShape(); }
    SlotReplyEffect(w, cfg, n, reply);
    ShapeStep(w, cfg, SlotReply(n, reply));
    InStageIsOpen(w);
    var v := Step(w, cfg, SlotReply(n, reply));
    hide Step;
    AnswerStays(v, cfg, w.dc.stage, more);
    AnsweredLeaves(Exec(v, cfg, more), cfg, t, w.dc.stage);
  }

  lemma InitShape()
    ensures Shape(INIT)
  {
  }

  lemma InStageIsOpen(w: World)
    requires Shape(w) && w.fault.None? && IsGet(w.dc.stage)
    ensures w.created && w.link == OPEN
  {
  }

  lemma AnsweredLeaves(u: World, cfg: Settings, t: Tick, s: Stage)
    requires Downloads(s) && Shape(u) && HasAnswer(u, s) && OpenTick(u, t)
    ensures var v := Step(u, cfg, DropTimer(t)); v.fault.None? && v.dc.stage != s
  {
    hide OnTimer;
    TickLeaves(DropSide(u), cfg, t, s);
  }

  // --- requests ---

  lemma PendingEffect(r: RestCore, m: Name, allowed: set<Name>, n: Name)
    requires m != STALE_ORDERS
    ensures var q := CheckPending(r, m, allowed);
            var fires := m == n && n in allowed && r.req.Get(n).wanted;
            && q.req.Get(n) == (if fires then Slot(false, r.req.Get(n).response) else r.req.Get(n))
            && q.rest.replies[n] == r.rest.replies[n] + if fires then 1 else 0
  {
    PutKeeps(r.req, m, r.req.Get(m).CheckPending(true));
  }

  lemma PendingStaleKeeps(r: RestCore, allowed: set<Name>, known: set<Key>, n: Name)
    requires n != STALE_ORDERS
    ensures var q := CheckPendingStale(r, allowed, known);
            q.req.Get(n) == r.req.Get(n) && q.rest.replies == r.rest.replies
  {
  }

  lemma TimerServes(r: RestCore, allowed: set<Name>, known: set<Key>, n: Name)
    requires n != STALE_ORDERS && r.rest.status == READY
    ensures var q := RestOnTimer(r, true, allowed, known);
            var fires := n in allowed && r.req.Get(n).wanted;
            && q.req.Get(n) == (if fires then Slot(false, r.req.Get(n).response) else r.req.Get(n))
            && q.rest.replies[n] == r.rest.replies[n] + if fires then 1 else 0
  {
    hide CheckPending;
    hide CheckPendingStale;
    hide Requests.Get;
    var r1 := CheckPending(r, PRIVATE_TOKEN, allowed);
    PendingEffect(r, PRIVATE_TOKEN, allowed, n);
    var r2 := CheckPending(r1, BALANCES, allowed);
    PendingEffect(r1, BALANCES, allowed, n);
    var r3 := CheckPending(r2, POSITIONS, allowed);
    PendingEffect(r2, POSITIONS, allowed, n);
    var r4 := CheckPending(r3, OPEN_ORDERS, allowed);
    PendingEffect(r3, OPEN_ORDERS, allowed, n);
    PendingStaleKeeps(r4, allowed, known, n);
    PendingEffect(CheckPendingStale(r4, allowed, known), TRADES, allowed, n);
  }

  /**
   A tick of the REST client sends one request for each slot that is wanted and admitted, if the
   client is ready, and none for the others; no response is lost.
   */
  lemma RestTickSends(w: World, cfg: Settings, refreshed: bool, allowed: set<Name>, known: set<Key>, n: Name)
    requires Enabled(w, RestTimer(refreshed, allowed, known)) && n != STALE_ORDERS
    ensures var v := Step(w, cfg, RestTimer(refreshed, allowed, known));
            var sends := refreshed && w.rest.status == READY && n in allowed && w.req.Get(n).wanted;
            && v.req.Get(n) == Slot(w.req.Get(n).wanted && !sends, w.req.Get(n).response)
            && v.rest.replies[n] == w.rest.replies[n] + if sends then 1 else 0
  {
    if refreshed && w.rest.status == READY {
      TimerServes(RestSide(w), allowed, known, n);
      hide RestOnTimer;
    }
  }

  /**
   If the stale orders are wanted and admitted, it takes the whole queue: one query for each order
   that the dispatcher knows, which counts, and a report for each other one.
   */
  lemma RestTickQueries(w: World, cfg: Settings, refreshed: bool, allowed: set<Name>, known: set<Key>)
    requires Enabled(w, RestTimer(refreshed, allowed, known))
    ensures var v := Step(w, cfg, RestTimer(refreshed, allowed, known));
            if refreshed && w.rest.status == READY && STALE_ORDERS in allowed && w.req.staleOrders.wanted then
              && v.req.staleOrders == Slot(false, w.req.staleOrders.response) && v.req.stale == {}
              && v.rest.calls == w.rest.calls + multiset(w.req.stale * known)
              && v.rest.counter == w.rest.counter + |w.req.stale * known|
              && v.rest.reported == w.rest.reported + multiset(w.req.stale - known)
            else
              && v.req.staleOrders == w.req.staleOrders && v.req.stale == w.req.stale
              && v.rest.calls == w.rest.calls && v.rest.counter == w.rest.counter && v.rest.reported == w.rest.reported
  {
    RestTimerServes(RestSide(w), refreshed, allowed, known);
    hide RestOnTimer;
  }

  // --- the connection of the REST client ---

  /** Up without a token it downloads one, up with a token it is ready. */
  predicate RestFits(w: World) {
    && (w.rest.status == READY <==> w.restUp && w.rest.hasToken)
    && (w.rest.status == DOWNLOADING <==> w.restUp && !w.rest.hasToken)
    && w.rest.stage == (if !w.restUp then REST_UNDEFINED else if w.rest.hasToken then REST_DONE else REST_PRIVATE_TOKEN)
  }

  lemma DropKeepsRest(w: World, cfg: Settings, e: Event)
    requires Enabled(w, e) && OfDrop(e)
    ensures Step(w, cfg, e).rest == w.rest && Step(w, cfg, e).restUp == w.restUp
  {
    hide OnTimer;
    hide Enter;
    hide Check;
    hide RequestPrivateToken;
  }

  lemma RestFitsStep(w: World, cfg: Settings, e: Event)
    requires RestFits(w) && Enabled(w, e)
    ensures RestFits(Step(w, cfg, e))
  {
    if OfDrop(e) {
      DropKeepsRest(w, cfg, e);
      hide Step;
    } else {
      RestFitsRest(w, cfg, e);
    }
  }

  lemma RestFitsRest(w: World, cfg: Settings, e: Event)
    requires RestFits(w) && Enabled(w, e) && !OfDrop(e)
    ensures RestFits(Step(w, cfg, e))
  {
    hide RestOnTimer;
    hide Requests.Commit;
    match e
    case RestTimer(refreshed, allowed, known) => RestTimerServes(RestSide(w), refreshed, allowed, known);
    case TokenReply(reply) =>
      DeliverLeaves(w, Delivered(reply));
      hide Deliver;
      hide Delivered;
      hide TokenFault;
    case _ =>
  }

  lemma {:induction false} RestFitsRun(w: World, cfg: Settings, es: seq<Event>)
    requires RestFits(w) && Admissible(w, cfg, es)
    ensures RestFits(Exec(w, cfg, es))
    decreases |es|
  {
    hide RestFits;
    hide Step;
    if es != [] {
      RestFitsStep(w, cfg, es[0]);
      RestFitsRun(Step(w, cfg, es[0]), cfg, es[1..]);
    }
  }

  /**
   In every run the REST client is READY exactly while it is connected and has had a token; and a
   connection or a retry without one sends one request for it, with one none.
   */
  lemma RestReadyIff(cfg: Settings, es: seq<Event>, e: Event)
    requires Admissible(INIT, cfg, es) && Enabled(Exec(INIT, cfg, es), e)
    ensures var w := Exec(INIT, cfg, es);
            && (w.rest.status == READY <==> w.restUp && w.rest.hasToken)
            && (w.rest.status == DOWNLOADING <==> w.restUp && !w.rest.hasToken)
            && (e.RestConnected? || e.RestRetry? ==>
                  Step(w, cfg, e).rest.replies ==
                  w.rest.replies + if w.rest.hasToken then multiset{} else multiset{PRIVATE_TOKEN})
  {
    RestFitsRun(INIT, cfg, es);
    var w := Exec(INIT, cfg, es);
    assert w.rest.replies + multiset{} == w.rest.replies;
  }
}
