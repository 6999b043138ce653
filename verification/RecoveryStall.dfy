/**
 Exactly when a session that waits for stale orders can still finish its download. It cannot after
 a batch in which the dispatcher knows none of the queued orders, nor once the callback of a query
 has been lost, in that session or in any earlier one.
 */
module RecoveryStall {
  import opened Recovery
  import opened RecoveryRuns
  import opened RecoveryShape
  import opened RecoveryStale
  import opened RecoveryEmptySet

  /** The download waits for a stale-orders answer that nothing will produce. */
  predicate Stuck(w: World) {
    && w.dc.stage == GET_STALE_ORDERS && w.created
    && !w.req.staleOrders.response
    && (w.rest.lost != multiset{} || (w.rest.calls == multiset{} && w.req.stale == {}))
  }

  lemma OpenStuck(c: Core, cfg: Settings, t: Tick)
    requires c.dc.stage == GET_STALE_ORDERS && DropShape(c.dc, OPEN) && !c.req.staleOrders.response && c.fault.None?
    ensures var d := WhenOpen(c, cfg, t);
            && d.fault.None? && d.dc.stage == GET_STALE_ORDERS
            && d.req.stale == c.req.stale && d.req.staleOrders == c.req.staleOrders
  {
  }

  lemma DropStuck(w: World, cfg: Settings, e: Event)
    requires StaleInv(w) && Stuck(w) && Enabled(w, e) && OfDrop(e) && !e.DropDisconnected?
    ensures var v := Step(w, cfg, e); v.fault.None? ==> Stuck(v)
  {
    hide WhenOpen;
    hide Simulate;
    match e
    case DropTimer(t) =>
      var c := DropSide(w);
      OpenStuck(c, cfg, t);
      SimulateStale(c.(req := c.req.Consume(PRIVATE_TOKEN)), t.now);
      var c2 := WhenOpen(c, cfg, t);
      SimulateStale(c2.(req := c2.req.Consume(PRIVATE_TOKEN)), t.now);
    case _ =>
  }

  lemma BatchStuck(w: World, refreshed: bool, allowed: set<Name>, known: set<Key>)
    requires Stuck(w)
    ensures Stuck(WithRest(w, RestOnTimer(RestSide(w), refreshed, allowed, known)))
  {
    hide RestOnTimer;
    RestTimerServes(RestSide(w), refreshed, allowed, known);
    assert RestOnTimer(RestSide(w), refreshed, allowed, known).req.Get(STALE_ORDERS).response ==
           w.req.Get(STALE_ORDERS).response;
  }

  lemma AnswerStuck(w: World, k: Key, reply: Reply<OrderBody>)
    requires Stuck(w) && Counted(w) && w.fault.None? && k in w.rest.calls
    ensures var v := WithRest(w, OnOrderReply(RestSide(w), k, reply)); v.fault.None? ==> Stuck(v)
  {
    if !reply.Redirection? {
      AnswerCounts(w, k, reply);
    }
  }

  lemma QuietKeepsStuck(w: World, cfg: Settings, e: Event)
    requires Stuck(w) && w.created && Enabled(w, e) && QuietRest(e)
    ensures var v := Step(w, cfg, e); Stuck(v)
  {
    hide Step;
    QuietUnconcerned(w, cfg, e);
    QuietKeepsStage(w, cfg, e);
    QuietKeepsCreated(w, cfg, e);
  }

  lemma QuietKeepsCreated(w: World, cfg: Settings, e: Event)
    requires w.created && Enabled(w, e) && QuietRest(e)
    ensures Step(w, cfg, e).created
  {
  }

  lemma RestStuck(w: World, cfg: Settings, e: Event)
    requires StaleInv(w) && Stuck(w) && Enabled(w, e) && !OfDrop(e)
    ensures var v := Step(w, cfg, e); v.fault.None? ==> Stuck(v)
  {
    hide RestOnTimer;
    hide OnOrderReply;
    if QuietRest(e) {
      QuietKeepsStuck(w, cfg, e);
    } else {
      match e
      case RestTimer(refreshed, allowed, known) => BatchStuck(w, refreshed, allowed, known);
      case OrderReply(k, reply) => AnswerStuck(w, k, reply);
      case LostCall(k) =>
        assert k in Step(w, cfg, e).rest.lost;
    }
  }

  /** A stuck session stays where it is, whatever happens short of a disconnect. */
  lemma {:induction false} StuckRun(w: World, cfg: Settings, es: seq<Event>)
    requires StaleInv(w) && Stuck(w) && w.fault.None? && Admissible(w, cfg, es) && NoDisconnect(es)
    ensures var v := Exec(w, cfg, es); v.fault.None? ==> v.dc.stage == GET_STALE_ORDERS && !v.dc.ready
    decreases |es|
  {
    if es != [] {
      var e := es[0];
      assert e in es;
      StaleStep(w, cfg, e);
      if OfDrop(e) {
        DropStuck(w, cfg, e);
      } else {
        RestStuck(w, cfg, e);
      }
      if Step(w, cfg, e).fault.None? {
        StuckRun(Step(w, cfg, e), cfg, es[1..]);
      }
    }
  }

  // --- otherwise it can go on ---

  ghost predicate Leaves(w: World, cfg: Settings, more: seq<Event>) {
    Admissible(w, cfg, more) && NoDisconnect(more) &&
    var v := Exec(w, cfg, more);
    v.fault.None? && v.dc.stage != GET_STALE_ORDERS
  }

  predicate AnswerCanCome(w: World) {
    w.req.staleOrders.response ||
    (w.rest.lost == multiset{} && (w.rest.calls != multiset{} || w.req.stale != {}))
  }

  /** What the REST client does leaves the session alone. */
  predicate SameSession(w: World, v: World) {
    v.dc == w.dc && v.link == w.link && v.created == w.created && v.fault == w.fault
  }

  /** A batch that knows all orders empties the queue. */
  lemma BatchStep(w: World, cfg: Settings, known: set<Key>)
    requires StaleInv(w) && w.fault.None? && w.rest.status == READY && w.req.staleOrders.wanted
    ensures var v := Step(w, cfg, RestTimer(true, {STALE_ORDERS}, known));
            && StaleInv(v) && SameSession(w, v) && v.req.stale == {}
            && v.req.staleOrders.response == w.req.staleOrders.response
            && v.rest.status == READY && v.rest.lost == w.rest.lost
            && v.rest.calls == w.rest.calls + multiset(w.req.stale * known)
  {
    var e := RestTimer(true, {STALE_ORDERS}, known);
    StaleStep(w, cfg, e);
    RestTimerServes(RestSide(w), true, {STALE_ORDERS}, known);
    hide RestOnTimer;
    var v := Step(w, cfg, e);
    assert v.req.Get(STALE_ORDERS).response == w.req.Get(STALE_ORDERS).response;
  }

  /** Empty the queue, whatever the state of the REST client. */
  lemma Flush(cfg: Settings, w: World) returns (v: World)
    requires StaleInv(w) && w.fault.None? && w.created
    ensures Leads(cfg, w, v) && StaleInv(v) && SameSession(w, v) && v.req.stale == {}
    ensures v.req.staleOrders.response == w.req.staleOrders.response && v.rest.lost == w.rest.lost
    ensures v.rest.calls == w.rest.calls + multiset(w.req.stale)
  {
    Stay(cfg, w);
    if w.req.stale == {} {
      v := w;
    } else {
      var u := MakeReady(cfg, w, w);
      BatchStep(u, cfg, w.req.stale);
      v := Then(cfg, w, u, RestTimer(true, {STALE_ORDERS}, w.req.stale));
      assert w.req.stale * w.req.stale == w.req.stale;
    }
  }

  /** Answers drain the queries in flight, and the last one commits. */
  lemma {:induction false} Drain(cfg: Settings, w: World, v: World) returns (u: World)
    requires Leads(cfg, w, v) && StaleInv(v) && v.fault.None? && v.req.stale == {}
    requires v.req.staleOrders.response || (v.rest.lost == multiset{} && v.rest.calls != multiset{})
    ensures Leads(cfg, w, u) && StaleInv(u) && SameSession(v, u) && u.req.stale == {} && u.req.staleOrders.response
    decreases |v.rest.calls|
  {
    hide Leads;
    if v.req.staleOrders.response {
      u := v;
    } else {
      var k :| k in v.rest.calls;
      AnswerStep(v, cfg, k);
      u := Then(cfg, w, v, OrderReply(k, ServerError));
      hide Step;
      u := Drain(cfg, w, u);
    }
  }

  lemma LeavingTick(c: Core, cfg: Settings, t: Tick)
    requires DropShape(c.dc, OPEN) && c.fault.None? && c.dc.stage == GET_STALE_ORDERS && t.refreshed
    requires c.req.staleOrders.response && c.req.stale == {}
    ensures var d := OnTimer(c, cfg, t, true); d.fault.None? && d.dc.stage != GET_STALE_ORDERS
  {
    var c1 := PingTimer(c, t.now);
    PingTimerFrame(c, t.now);
    hide PingTimer;
    var d := c1.(dc := c1.dc.(waiting := 0), req := c1.req.Consume(STALE_ORDERS));
    EnterLater(d, cfg, GET_TRADES);
    hide Enter;
    var c2 := WhenOpen(c, cfg, t);
    assert c2.fault.None? && c2.dc.stage != GET_STALE_ORDERS;
    SimulateStale(c2.(req := c2.req.Consume(PRIVATE_TOKEN)), t.now);
    hide Simulate;
    hide WhenOpen;
  }

  /** A session waiting for an answer that can come gets it and goes on. */
  lemma GoesOn(cfg: Settings, w: World) returns (more: seq<Event>)
    requires StaleInv(w) && w.fault.None? && w.created && w.dc.stage == GET_STALE_ORDERS
    requires AnswerCanCome(w)
    ensures Leaves(w, cfg, more)
  {
    var v := Flush(cfg, w);
    if w.req.stale != {} {
      var k :| k in w.req.stale;
      assert k in v.rest.calls;
    }
    var u := Drain(cfg, w, v);
    var t := Tick(0, 0, true, [], []);
    LeavingTick(DropSide(u), cfg, t);
    hide OnTimer;
    var x := Then(cfg, w, u, DropTimer(t));
    more :| Admissible(w, cfg, more) && NoDisconnect(more) && Exec(w, cfg, more) == x;
  }

  // --- main results ---

  lemma CanLeaveFrom(cfg: Settings, w: World)
    requires StaleInv(w) && w.fault.None? && w.created && w.dc.stage == GET_STALE_ORDERS
    ensures (exists more :: Leaves(w, cfg, more)) <==> AnswerCanCome(w)
  {
    if AnswerCanCome(w) {
      var more := GoesOn(cfg, w);
      assert Leaves(w, cfg, more);
    } else {
      forall more | Admissible(w, cfg, more) && NoDisconnect(more)
        ensures !Leaves(w, cfg, more)
      {
        StuckRun(w, cfg, more);
      }
    }
  }

  /**
   In every run, a session in GET_STALE_ORDERS has a continuation that goes on without a fault if
   and only if the response is there, or no callback was lost and a query is in flight or an order
   is queued.
   */
  lemma CanLeaveIff(cfg: Settings, es: seq<Event>)
    requires Admissible(INIT, cfg, es)
    ensures var w := Exec(INIT, cfg, es);
            w.fault.None? && w.dc.stage == GET_STALE_ORDERS ==>
              ((exists more :: Leaves(w, cfg, more)) <==> AnswerCanCome(w))
  {
    var w := Exec(INIT, cfg, es);
    StaleRunFrom(INIT, cfg, es);
    if w.fault.None? && w.dc.stage == GET_STALE_ORDERS {
      CanLeaveFrom(cfg, w);
    }
    hide Leaves;
  }

  /**
   When nothing else is in flight or lost, the batch decides: the session can go on if and only if
   the dispatcher knows one of the queued orders.
   */
  lemma NoneFoundStallsIff(cfg: Settings, es: seq<Event>, known: set<Key>)
    requires Admissible(INIT, cfg, es)
    ensures var w := Exec(INIT, cfg, es);
            && w.fault.None? && w.dc.stage == GET_STALE_ORDERS && !w.req.staleOrders.response
            && w.rest.calls == multiset{} && w.rest.lost == multiset{}
            && w.req.stale != {} && w.rest.status == READY ==>
              ((exists more :: Leaves(Step(w, cfg, RestTimer(true, {STALE_ORDERS}, known)), cfg, more)) <==>
               w.req.stale * known != {})
  {
    var w := Exec(INIT, cfg, es);
    StaleRunFrom(INIT, cfg, es);
    hide Step;
    hide Leaves;
    if w.fault.None? && w.dc.stage == GET_STALE_ORDERS && !w.req.staleOrders.response
       && w.rest.calls == multiset{} && w.rest.lost == multiset{} && w.req.stale != {} && w.rest.status == READY {
      BatchDecides(cfg, w, known);
    }
  }

  lemma BatchDecides(cfg: Settings, w: World, known: set<Key>)
    requires StaleInv(w) && w.fault.None? && w.dc.stage == GET_STALE_ORDERS && !w.req.staleOrders.response
    requires w.rest.calls == multiset{} && w.rest.lost == multiset{} && w.req.stale != {} && w.rest.status == READY
    ensures (exists more :: Leaves(Step(w, cfg, RestTimer(true, {STALE_ORDERS}, known)), cfg, more)) <==>
            w.req.stale * known != {}
  {
    hide RestOnTimer;
    hide Leaves;
    BatchStep(w, cfg, known);
    var v := Step(w, cfg, RestTimer(true, {STALE_ORDERS}, known));
    hide Step;
    CanLeaveFrom(cfg, v);
    var found := w.req.stale * known;
    NonEmpty(found);
    assert v.rest.calls == multiset(found);
  }

  lemma NonEmpty(s: set<Key>)
    ensures multiset(s) == multiset{} <==> s == {}
  {
    if s != {} {
      var k :| k in s;
      assert k in multiset(s);
    }
  }

  /**
   A session can go on from where it asks for the stale orders if and only if no callback of a
   query was ever lost, in this session or before it.
   */
  lemma LostCallbackStallsIff(cfg: Settings, es: seq<Event>, e: Event)
    requires Admissible(INIT, cfg, es) && EntersStale(Exec(INIT, cfg, es), cfg, e)
    ensures var w := Exec(INIT, cfg, es);
            (exists more :: Leaves(Step(w, cfg, e), cfg, more)) <==> w.rest.lost == multiset{}
  {
    var w := Exec(INIT, cfg, es);
    StaleRunFrom(INIT, cfg, es);
    StageSetsUp(w, cfg, e);
    StaleStep(w, cfg, e);
    CanLeaveFrom(cfg, Step(w, cfg, e));
    hide Leaves;
  }

  /** A lost callback stays lost, so the counter stays positive, across sessions. */
  lemma {:induction false} LostStaysLost(w: World, cfg: Settings, es: seq<Event>)
    requires StaleInv(w) && Admissible(w, cfg, es)
    ensures var v := Exec(w, cfg, es);
            w.rest.lost <= v.rest.lost && (v.fault.None? && w.rest.lost != multiset{} ==> v.rest.counter > 0)
    decreases |es|
  {
    if es != [] {
      StaleStep(w, cfg, es[0]);
      LostStep(w, cfg, es[0]);
      LostStaysLost(Step(w, cfg, es[0]), cfg, es[1..]);
    }
  }

  lemma LostStep(w: World, cfg: Settings, e: Event)
    requires Enabled(w, e)
    ensures w.rest.lost <= Step(w, cfg, e).rest.lost
  {
    hide RestOnTimer;
    hide OnTimer;
    hide Check;
    hide Enter;
    hide Requests.Commit;
    hide Requests.Log;
    hide ProcessResponse;
    match e
    case RestTimer(refreshed, allowed, known) => RestTimerServes(RestSide(w), refreshed, allowed, known);
    case _ =>
  }
}
