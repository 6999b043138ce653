/**
 The fatal check of the stale-orders response ("the set must be empty"): exactly when a session
 that waits for that response can reach it, and when the response can never come.
 */
module RecoveryEmptySet {
  import opened Wrappers
  import opened Recovery
  import opened RecoveryRuns
  import opened RecoveryShape
  import opened RecoveryStale

  /** This step of the run asks for the stale orders on behalf of the download. */
  predicate EntersStale(w: World, cfg: Settings, e: Event) {
    Enabled(w, e) && w.dc.stage != GET_STALE_ORDERS &&
    Step(w, cfg, e).fault.None? && Step(w, cfg, e).dc.stage == GET_STALE_ORDERS
  }

  ghost predicate LeadsToFatal(w: World, cfg: Settings, es: seq<Event>) {
    Admissible(w, cfg, es) && NoDisconnect(es) && Exec(w, cfg, es).fault == Some(STALE_NOT_EMPTY)
  }

  // --- what entering the stage establishes ---

  lemma EnterSetsUp(c: Core, cfg: Settings, stage: Stage)
    requires stage != UNDEFINED
    ensures var d := Enter(c, cfg, stage);
            d.dc.stage == GET_STALE_ORDERS ==>
              stage == GET_STALE_ORDERS && d.req.stale != {} && !d.req.staleOrders.response
    decreases Rank(DONE) - Rank(stage)
  {
  }

  lemma CheckSetsUp(c: Core, cfg: Settings, s: Stage)
    ensures var d := Check(c, cfg, s);
            d.dc.stage == GET_STALE_ORDERS ==>
              c.dc.stage == GET_STALE_ORDERS ||
              (d.req.stale != {} && !d.req.staleOrders.response && s == GET_OPEN_ORDERS)
  {
    if c.dc.stage == s && s != UNDEFINED && s != DONE {
      EnterSetsUp(c.(dc := c.dc.(waiting := 0)), cfg, Next(s));
    }
  }

  lemma QueueSetsUp(c: Core, cfg: Settings, scan: seq<Key>)
    ensures var d := CheckRequestQueue(c, cfg, scan);
            d.dc.stage == GET_STALE_ORDERS ==>
              c.dc.stage == GET_STALE_ORDERS || (d.req.stale != {} && !d.req.staleOrders.response)
  {
    if IsGet(c.dc.stage) {
      var d := c.(req := c.req.Consume(SlotOf(c.dc.stage)));
      CheckSetsUp(d, cfg, c.dc.stage);
      CheckSetsUp(d.(req := d.req.Queue(Keys(scan))), cfg, c.dc.stage);
    }
  }

  lemma OpenSetsUp(c: Core, cfg: Settings, t: Tick)
    requires DropShape(c.dc, OPEN) && c.fault.None? && c.dc.stage != GET_STALE_ORDERS
    ensures var d := WhenOpen(c, cfg, t);
            d.dc.stage == GET_STALE_ORDERS ==> d.req.stale != {} && !d.req.staleOrders.response
  {
    hide CheckRequestQueue;
    var c1 := PingTimer(c, t.now);
    PingTimerFrame(c, t.now);
    hide PingTimer;
    QueueSetsUp(c1, cfg, t.openScan);
    QueueShape(c1, cfg, t.openScan, OPEN);
  }

  lemma TimerSetsUp(c: Core, cfg: Settings, t: Tick, link: Link)
    requires DropShape(c.dc, link) && c.fault.None? && c.dc.stage != GET_STALE_ORDERS
    ensures var d := OnTimer(c, cfg, t, link == OPEN);
            d.dc.stage == GET_STALE_ORDERS && d.fault.None? ==> d.req.stale != {} && !d.req.staleOrders.response
  {
    hide WhenOpen;
    hide Simulate;
    if link == OPEN {
      OpenSetsUp(c, cfg, t);
      var c2 := WhenOpen(c, cfg, t);
      SimulateStale(c2.(req := c2.req.Consume(PRIVATE_TOKEN)), t.now);
    } else {
      var c2 := c.(req := c.req.Log(Closed));
      SimulateStale(c.(req := c.req.Consume(PRIVATE_TOKEN)), t.now);
      SimulateStale(c2.(req := c2.req.Consume(PRIVATE_TOKEN)), t.now);
    }
  }

  /** The download enters the stage with a fresh request and something to query. */
  lemma StageSetsUp(w: World, cfg: Settings, e: Event)
    requires StaleInv(w) && EntersStale(w, cfg, e)
    ensures var v := Step(w, cfg, e);
            v.rest == w.rest && v.req.stale != {} && !v.req.staleOrders.response && v.link == OPEN
  {
    ShapeStep(w, cfg, e);
    match e
    case DropTimer(t) => TimerSetsUp(DropSide(w), cfg, t, w.link);
    case DropWelcome =>
      var c := DropSide(w);
      EnterSetsUp(c.(dc := c.dc.(welcome := true), req := c.req.Log(Welcomed)), cfg, SUBSCRIBE_BALANCES);
    case DropAck(id) =>
      if id.Some? {
        CheckSetsUp(Core(w.dc, w.req.Log(Acked(id.value)), None), cfg, id.value);
      }
    case _ =>
  }

  // --- not in flight at entry: the check cannot fail ---

  /** No answer can arrive while the set is not empty. */
  predicate Quiet(w: World) {
    && Rank(w.dc.stage) >= Rank(GET_STALE_ORDERS)
    && (w.dc.stage == GET_STALE_ORDERS ==>
          w.req.stale == {} ||
          (!w.req.staleOrders.response && (w.rest.counter == 0 || w.rest.lost != multiset{})))
  }

  lemma EnterLater(c: Core, cfg: Settings, stage: Stage)
    requires Rank(stage) > Rank(GET_STALE_ORDERS)
    ensures Rank(Enter(c, cfg, stage).dc.stage) > Rank(GET_STALE_ORDERS) && Enter(c, cfg, stage).fault == c.fault
    decreases Rank(DONE) - Rank(stage)
  {
  }

  lemma QueueQuiet(c: Core, cfg: Settings, scan: seq<Key>)
    requires Rank(c.dc.stage) >= Rank(GET_STALE_ORDERS) && c.fault.None?
    requires c.dc.stage == GET_STALE_ORDERS && c.req.staleOrders.response ==> c.req.stale == {} && c.dc.waiting == 1
    ensures var d := CheckRequestQueue(c, cfg, scan);
            && d.fault.None? && Rank(d.dc.stage) >= Rank(GET_STALE_ORDERS)
            && (d.dc.stage == GET_STALE_ORDERS ==> d == c)
  {
    if IsGet(c.dc.stage) && c.req.Get(SlotOf(c.dc.stage)).response {
      var d := c.(dc := c.dc.(waiting := 0), req := c.req.Consume(SlotOf(c.dc.stage)));
      EnterLater(d, cfg, Next(c.dc.stage));
    }
  }

  lemma OpenQuiet(c: Core, cfg: Settings, t: Tick)
    requires Rank(c.dc.stage) >= Rank(GET_STALE_ORDERS) && c.fault.None? && DropShape(c.dc, OPEN)
    requires c.dc.stage == GET_STALE_ORDERS && c.req.staleOrders.response ==> c.req.stale == {}
    ensures var d := WhenOpen(c, cfg, t);
            && d.fault.None? && Rank(d.dc.stage) >= Rank(GET_STALE_ORDERS)
            && (d.dc.stage == GET_STALE_ORDERS ==>
                  c.dc.stage == GET_STALE_ORDERS && d.req.stale == c.req.stale && d.req.staleOrders == c.req.staleOrders)
  {
    hide CheckRequestQueue;
    var c1 := PingTimer(c, t.now);
    PingTimerFrame(c, t.now);
    hide PingTimer;
    QueueQuiet(c1, cfg, t.openScan);
    QueueShape(c1, cfg, t.openScan, OPEN);
  }

  lemma DropQuiet(w: World, cfg: Settings, e: Event)
    requires StaleInv(w) && Quiet(w) && Enabled(w, e) && OfDrop(e) && !e.DropDisconnected?
    ensures var v := Step(w, cfg, e);
            v.fault != Some(STALE_NOT_EMPTY) && (v.fault.None? ==> Quiet(v))
  {
    hide WhenOpen;
    hide Simulate;
    match e
    case DropTimer(t) =>
      var c := DropSide(w);
      OpenQuiet(c, cfg, t);
      SimulateStale(c.(req := c.req.Consume(PRIVATE_TOKEN)), t.now);
      var c2 := WhenOpen(c, cfg, t);
      SimulateStale(c2.(req := c2.req.Consume(PRIVATE_TOKEN)), t.now);
    case _ =>
  }

  lemma QuietKeepsStage(w: World, cfg: Settings, e: Event)
    requires w.created && Enabled(w, e) && QuietRest(e)
    ensures Step(w, cfg, e).dc.stage == w.dc.stage && Step(w, cfg, e).fault != Some(STALE_NOT_EMPTY)
  {
  }

  lemma BatchQuiet(w: World, refreshed: bool, allowed: set<Name>, known: set<Key>)
    requires Quiet(w) && w.fault.None?
    ensures var v := WithRest(w, RestOnTimer(RestSide(w), refreshed, allowed, known)); Quiet(v) && v.fault.None?
  {
    hide RestOnTimer;
    RestTimerServes(RestSide(w), refreshed, allowed, known);
    assert RestOnTimer(RestSide(w), refreshed, allowed, known).req.Get(STALE_ORDERS).response ==
           w.req.Get(STALE_ORDERS).response;
  }

  lemma AnswerQuiet(w: World, k: Key, reply: Reply<OrderBody>)
    requires Quiet(w) && Counted(w) && w.fault.None? && k in w.rest.calls
    ensures var v := WithRest(w, OnOrderReply(RestSide(w), k, reply));
            v.fault != Some(STALE_NOT_EMPTY) && (v.fault.None? ==> Quiet(v))
  {
    if !reply.Redirection? {
      AnswerCounts(w, k, reply);
    }
  }

  lemma QuietKeepsQuiet(w: World, cfg: Settings, e: Event)
    requires Quiet(w) && w.created && Enabled(w, e) && QuietRest(e)
    ensures var v := Step(w, cfg, e); v.fault != Some(STALE_NOT_EMPTY) && Quiet(v)
  {
    hide Step;
    QuietUnconcerned(w, cfg, e);
    QuietKeepsStage(w, cfg, e);
  }

  lemma RestQuiet(w: World, cfg: Settings, e: Event)
    requires StaleInv(w) && Quiet(w) && Enabled(w, e) && !OfDrop(e)
    ensures var v := Step(w, cfg, e);
            v.fault != Some(STALE_NOT_EMPTY) && (v.fault.None? ==> Quiet(v))
  {
    hide RestOnTimer;
    hide OnOrderReply;
    if QuietRest(e) {
      QuietKeepsQuiet(w, cfg, e);
    } else {
      match e
      case RestTimer(refreshed, allowed, known) => BatchQuiet(w, refreshed, allowed, known);
      case OrderReply(k, reply) => AnswerQuiet(w, k, reply);
      case LostCall(k) =>
        assert k in Step(w, cfg, e).rest.lost;
    }
  }

  lemma {:induction false} QuietRun(w: World, cfg: Settings, es: seq<Event>)
    requires StaleInv(w) && Quiet(w) && Admissible(w, cfg, es) && NoDisconnect(es)
    requires w.fault.None?
    ensures Exec(w, cfg, es).fault != Some(STALE_NOT_EMPTY)
    decreases |es|
  {
    if es != [] {
      var e := es[0];
      assert e in es;
      StaleStep(w, cfg, e);
      if OfDrop(e) {
        DropQuiet(w, cfg, e);
      } else {
        RestQuiet(w, cfg, e);
      }
      var v := Step(w, cfg, e);
      if v.fault.None? {
        QuietRun(v, cfg, es[1..]);
      } else {
        assert es[1..] == [];
      }
    }
  }

  // --- in flight at entry: the check can fail ---

  lemma Prepend(w: World, cfg: Settings, e: Event, es: seq<Event>)
    requires Enabled(w, e) && LeadsToFatal(Step(w, cfg, e), cfg, es) && !e.DropDisconnected?
    ensures LeadsToFatal(w, cfg, [e] + es)
  {
    assert ([e] + es)[1..] == es;
  }

  lemma FatalOpen(c: Core, cfg: Settings, t: Tick)
    requires c.fault.None? && c.dc.stage == GET_STALE_ORDERS && c.req.stale != {} && c.req.staleOrders.response
    ensures WhenOpen(c, cfg, t).fault == Some(STALE_NOT_EMPTY)
  {
    var c1 := PingTimer(c, t.now);
    PingTimerFrame(c, t.now);
    hide PingTimer;
    hide Check;
    hide CheckStaleOrders;
  }

  lemma FatalTick(w: World, cfg: Settings)
    requires w.fault.None? && w.link == OPEN && w.created
    requires w.dc.stage == GET_STALE_ORDERS && w.req.stale != {} && w.req.staleOrders.response
    ensures LeadsToFatal(w, cfg, [DropTimer(Tick(0, 0, true, [], []))])
  {
    var t := Tick(0, 0, true, [], []);
    FatalOpen(DropSide(w), cfg, t);
    hide WhenOpen;
    hide Simulate;
    var es := [DropTimer(t)];
    assert es[1..] == [];
  }

  lemma AnswerStep(w: World, cfg: Settings, k: Key)
    requires StaleInv(w) && w.fault.None? && k in w.rest.calls && w.rest.lost == multiset{}
    ensures var v := Step(w, cfg, OrderReply(k, ServerError));
            && StaleInv(v) && v.fault.None? && v.link == w.link && v.created == w.created && v.dc == w.dc
            && v.req.stale == w.req.stale && v.rest.lost == w.rest.lost && |v.rest.calls| < |w.rest.calls|
            && (v.rest.calls == multiset{} ==> v.req.staleOrders.response)
  {
    AnswerCounts(w, k, ServerError);
    RemoveOne(w.rest.calls, k);
    StaleStep(w, cfg, OrderReply(k, ServerError));
  }

  /** Answers drain the queries in flight, and the last one commits while the set is not empty. */
  lemma {:induction false} DrainToFatal(w: World, cfg: Settings) returns (es: seq<Event>)
    requires StaleInv(w) && w.fault.None? && w.link == OPEN && w.created
    requires w.dc.stage == GET_STALE_ORDERS && w.req.stale != {} && w.rest.lost == multiset{}
    requires w.rest.calls != multiset{} || w.req.staleOrders.response
    ensures LeadsToFatal(w, cfg, es)
    decreases |w.rest.calls|
  {
    hide LeadsToFatal;
    hide Step;
    if w.rest.calls == multiset{} {
      es := [DropTimer(Tick(0, 0, true, [], []))];
      FatalTick(w, cfg);
    } else {
      var k :| k in w.rest.calls;
      var e := OrderReply(k, ServerError);
      AnswerStep(w, cfg, k);
      var rest := DrainToFatal(Step(w, cfg, e), cfg);
      Prepend(w, cfg, e, rest);
      es := [e] + rest;
    }
  }

  /**
   The check of an empty set can fail later in the session exactly when, at the moment the
   download asks for the stale orders, queries of an earlier batch are still in flight (and no
   callback has been lost, which would leave the counter above zero for good).
   */
  lemma EmptySetCheckCanFailIff(cfg: Settings, es: seq<Event>, e: Event)
    requires Admissible(INIT, cfg, es) && EntersStale(Exec(INIT, cfg, es), cfg, e)
    ensures var w := Exec(INIT, cfg, es);
            (exists more :: LeadsToFatal(Step(w, cfg, e), cfg, more)) <==>
            w.rest.counter > 0 && w.rest.lost == multiset{}
  {
    var w := Exec(INIT, cfg, es);
    StaleRunFrom(INIT, cfg, es);
    StageSetsUp(w, cfg, e);
    StaleStep(w, cfg, e);
    var v := Step(w, cfg, e);
    if w.rest.counter > 0 && w.rest.lost == multiset{} {
      var more := DrainToFatal(v, cfg);
      assert LeadsToFatal(v, cfg, more);
    } else {
      forall more | Admissible(v, cfg, more) && NoDisconnect(more)
        ensures !LeadsToFatal(v, cfg, more)
      {
        QuietRun(v, cfg, more);
      }
    }
  }
}
