/**
 Concrete runs, one family for all settings each, in which the fatal check of the stale-orders
 response fails, a session cannot finish its download, and a token refresh fails.
 */
module RecoveryScenario {
  import opened Wrappers
  import opened LimitRequest
  import opened Recovery
  import opened RecoveryRuns
  import opened RecoveryShape
  import opened RecoveryStale
  import opened RecoveryEmptySet
  import opened RecoveryStall
  import opened RecoveryToken
  import opened RecoveryEarlyCommit
  import opened RecoveryLostReply

  /** A session in `stage`, with a REST client that is ready to serve it. */
  predicate Serving(cfg: Settings, w: World, stage: Stage) {
    && w.fault.None? && w.created && w.link == OPEN && w.dc.welcome && !w.dc.ready
    && w.dc.stage == stage && w.dc.waiting == 1 && w.dc.status == DOWNLOADING
    && w.dc.nextSimulated >= 0 && w.rest.status == READY && w.rest.lost == multiset{}
  }

  predicate SameQueries(v: World, w: World) {
    v.rest.counter == w.rest.counter && v.rest.calls == w.rest.calls && v.req.stale == w.req.stale
  }

  const AT_ZERO := Tick(0, 0, true, [], [])

  /** Acknowledge a subscription, serve the request that follows, and see its commit. */
  lemma Answered(cfg: Settings, w: World, s: Stage) returns (v: World)
    requires Reaches(cfg, w) && Serving(cfg, w, s) && IsSubscribe(s)
    ensures Reaches(cfg, v) && Serving(cfg, v, Next(s)) && SameQueries(v, w)
    ensures v.req.Get(SlotOf(Next(s))).response
  {
    var n := SlotOf(Next(s));
    var w1 := Go(cfg, w, DropAck(Some(s)));
    assert Serving(cfg, w1, Next(s)) && w1.req.Get(n).wanted && SameQueries(w1, w);
    var w2 := Served(cfg, w1, n);
    v := Go(cfg, w2, SlotReply(n, Success(Some(()))));
  }

  lemma Served(cfg: Settings, w: World, n: Name) returns (v: World)
    requires Reaches(cfg, w) && w.fault.None? && w.rest.status == READY && w.req.Get(n).wanted
    requires n == BALANCES || n == POSITIONS || n == OPEN_ORDERS
    ensures Reaches(cfg, v) && n in v.rest.replies && SameQueries(v, w) && v.fault.None? && v.created == w.created
    ensures v.dc == w.dc && v.link == w.link && v.rest.status == READY && v.rest.lost == w.rest.lost
  {
    v := Go(cfg, w, RestTimer(true, {n}, {}));
    OnlyServes(RestSide(w), n);
  }

  /** The timer sees the commit and subscribes to the next channel. */
  lemma Resume(c: Core, cfg: Settings, s: Stage)
    requires c.dc.stage == s && (s == GET_BALANCES || s == GET_POSITIONS) && c.dc.waiting == 1 && c.fault.None?
    requires c.req.Get(SlotOf(s)).response && c.dc.nextSimulated >= 0 && c.dc.status == DOWNLOADING
    ensures var d := OnTimer(c, cfg, AT_ZERO, true);
            && d.fault.None? && d.dc == c.dc.(stage := Next(s), nextPing := d.dc.nextPing, ticks := d.dc.ticks)
            && d.req.stale == c.req.stale
  {
    hide Enter;
    var c1 := PingTimer(c, 0);
    PingTimerFrame(c, 0);
    hide PingTimer;
    EnterSubscribe(c1.(dc := c1.dc.(waiting := 0), req := c1.req.Consume(SlotOf(s))), cfg, Next(s));
  }

  lemma EnterSubscribe(c: Core, cfg: Settings, s: Stage)
    requires IsSubscribe(s)
    ensures var d := Enter(c, cfg, s);
            && d.dc == c.dc.(stage := s, status := DOWNLOADING, waiting := 1) && d.fault == c.fault
            && d.req.stale == c.req.stale
  {
  }

  lemma Advance(cfg: Settings, w: World, s: Stage) returns (v: World)
    requires Reaches(cfg, w) && Serving(cfg, w, s) && (s == SUBSCRIBE_BALANCES || s == SUBSCRIBE_POSITIONS)
    ensures Reaches(cfg, v) && Serving(cfg, v, Next(Next(s))) && SameQueries(v, w)
  {
    hide OnTimer;
    var w1 := Answered(cfg, w, s);
    Resume(DropSide(w1), cfg, Next(s));
    v := Go(cfg, w1, DropTimer(AT_ZERO));
  }

  /** A new session up to the commit of the open orders. */
  lemma Session(cfg: Settings, w: World) returns (v: World)
    requires Reaches(cfg, w) && w.fault.None? && w.created && w.link == DOWN && w.rest.status == READY
    requires !w.dc.welcome && !w.dc.ready && w.dc.stage == UNDEFINED && w.rest.lost == multiset{}
    requires w.dc.nextSimulated >= 0
    ensures Reaches(cfg, v) && Serving(cfg, v, GET_OPEN_ORDERS) && SameQueries(v, w)
    ensures v.req.openOrders.response
  {
    var w1 := Go(cfg, w, DropConnected(0));
    var w2 := Go(cfg, w1, DropReady);
    var w3 := Go(cfg, w2, DropWelcome);
    assert Serving(cfg, w3, SUBSCRIBE_BALANCES) && SameQueries(w3, w);
    var w4 := Advance(cfg, w3, SUBSCRIBE_BALANCES);
    var w5 := Advance(cfg, w4, SUBSCRIBE_POSITIONS);
    v := Answered(cfg, w5, SUBSCRIBE_ORDERS);
  }

  lemma FirstSession(cfg: Settings) returns (v: World)
    ensures Reaches(cfg, v) && Serving(cfg, v, GET_OPEN_ORDERS) && v.req.openOrders.response
    ensures v.rest.calls == multiset{} && v.rest.counter == 0 && v.req.stale == {}
  {
    Start(cfg);
    var w1 := Go(cfg, INIT, RestConnected);
    var w2 := Go(cfg, w1, TokenReply(Success(Some(Token(true, true, "t", 2)))));
    v := Session(cfg, w2);
  }

  lemma EnterWithStale(c: Core, cfg: Settings)
    requires c.req.stale != {}
    ensures Enter(c, cfg, GET_STALE_ORDERS) ==
      c.(dc := c.dc.(stage := GET_STALE_ORDERS, status := DOWNLOADING, waiting := 1),
         req := c.req.Log(StaleTested(true)).Log(Published(DOWNLOADING)).Ask(STALE_ORDERS))
  {
  }

  lemma ScanQueue(c: Core, cfg: Settings, k: Key)
    requires c.dc.stage == GET_OPEN_ORDERS && c.dc.waiting == 1 && c.fault.None?
    requires c.req.openOrders.response && c.req.stale == {}
    ensures var d := CheckRequestQueue(c, cfg, [k]);
            && d.fault.None? && d.dc == c.dc.(stage := GET_STALE_ORDERS, status := DOWNLOADING)
            && d.req.stale == {k} && d.req.staleOrders == Slot(true, false)
  {
    hide Enter;
    hide Callback;
    assert Keys([k]) == {k};
    var q := c.req.Consume(OPEN_ORDERS).Queue(Keys([k]));
    assert CheckRequestQueue(c, cfg, [k]) == Check(c.(req := q), cfg, GET_OPEN_ORDERS);
    assert q.stale == {k};
    var d := c.(dc := c.dc.(waiting := 0), req := q);
    assert Check(c.(req := q), cfg, GET_OPEN_ORDERS) == Enter(d, cfg, GET_STALE_ORDERS);
    hide Check;
    hide CheckRequestQueue;
    EnterWithStale(d, cfg);
  }

  lemma ScanOpen(c: Core, cfg: Settings, k: Key)
    requires c.dc.stage == GET_OPEN_ORDERS && c.dc.waiting == 1 && c.fault.None? && c.dc.nextSimulated >= 0
    requires c.req.openOrders.response && c.req.stale == {}
    ensures var d := OnTimer(c, cfg, Tick(0, 0, true, [k], []), true);
            && d.fault.None?
            && d.dc == c.dc.(stage := GET_STALE_ORDERS, status := DOWNLOADING,
                             nextPing := d.dc.nextPing, ticks := d.dc.ticks)
            && d.req.stale == {k} && d.req.staleOrders == Slot(true, false)
  {
    hide CheckRequestQueue;
    var c1 := PingTimer(c, 0);
    PingTimerFrame(c, 0);
    hide PingTimer;
    ScanQueue(c1, cfg, k);
  }

  /** The scan that follows the open orders finds one stale order, and the session waits for it. */
  lemma Scan(cfg: Settings, w: World, k: Key) returns (v: World)
    requires Reaches(cfg, w) && Serving(cfg, w, GET_OPEN_ORDERS) && w.req.openOrders.response && w.req.stale == {}
    ensures Reaches(cfg, v) && Serving(cfg, v, GET_STALE_ORDERS) && v.rest == w.rest
    ensures v.req.stale == {k} && v.req.staleOrders.wanted && !v.req.staleOrders.response
  {
    hide OnTimer;
    ScanOpen(DropSide(w), cfg, k);
    v := Go(cfg, w, DropTimer(Tick(0, 0, true, [k], [])));
  }

  lemma ReachesStale(cfg: Settings, w: World)
    requires Reaches(cfg, w)
    ensures StaleInv(w)
  {
    var es :| Admissible(INIT, cfg, es) && Exec(INIT, cfg, es) == w;
    StaleRunFrom(INIT, cfg, es);
  }

  lemma LateAnswer(cfg: Settings, w: World, k: Key) returns (v: World)
    requires Reaches(cfg, w) && Serving(cfg, w, GET_STALE_ORDERS) && w.req.stale != {}
    requires w.rest.calls == multiset{k}
    ensures Reaches(cfg, v) && v.fault == Some(STALE_NOT_EMPTY)
  {
    hide Reaches;
    hide OnTimer;
    hide OnOrderReply;
    ReachesStale(cfg, w);
    AnswerStep(w, cfg, k);
    var w1 := Go(cfg, w, OrderReply(k, ServerError));
    assert w1.rest.calls == multiset{};
    FatalTick(w1, cfg);
    v := Go(cfg, w1, DropTimer(AT_ZERO));
    assert [DropTimer(AT_ZERO)][1..] == [];
  }

  /** One batch of the order that waits, which the dispatcher may know or not. */
  lemma Batch(cfg: Settings, w: World, k: Key, known: set<Key>) returns (v: World)
    requires Reaches(cfg, w) && Serving(cfg, w, GET_STALE_ORDERS) && w.req.stale == {k}
    requires w.rest.calls == multiset{} && !w.req.staleOrders.response && (known == {k} || known == {})
    ensures Reaches(cfg, v) && Serving(cfg, v, GET_STALE_ORDERS) && !v.req.staleOrders.response
    ensures v.rest.calls == multiset(known) && v.rest.counter == |v.rest.calls| && v.req.stale == {}
  {
    hide RestOnTimer;
    hide Reaches;
    ReachesStale(cfg, w);
    BatchStep(w, cfg, known);
    v := Go(cfg, w, RestTimer(true, {STALE_ORDERS}, known));
    assert {k} * known == known;
  }

  /**
   For every setting there is a run in which the check fails: the first session queries a stale
   order and disconnects, the second session finds one as well, and the old answer arrives.
   */
  lemma EmptySetCheckFails(cfg: Settings)
    ensures exists es :: Admissible(INIT, cfg, es) && Exec(INIT, cfg, es).fault == Some(STALE_NOT_EMPTY)
  {
    var k := Key(0, 1);
    var w1 := FirstSession(cfg);
    var w2 := Scan(cfg, w1, k);
    var w3 := Batch(cfg, w2, k, {k});
    var w4 := Go(cfg, w3, DropDisconnected);
    var w5 := Session(cfg, w4);
    var w6 := Scan(cfg, w5, k);
    var w7 := LateAnswer(cfg, w6, k);
  }

  /** For every setting there is a session that a batch without a known order leaves stuck. */
  lemma NoneFoundHappens(cfg: Settings)
    ensures exists es :: Admissible(INIT, cfg, es) && var w := Exec(INIT, cfg, es);
              w.fault.None? && w.dc.stage == GET_STALE_ORDERS && w.rest.lost == multiset{} && Stuck(w)
  {
    var k := Key(0, 1);
    var w1 := FirstSession(cfg);
    var w2 := Scan(cfg, w1, k);
    var w3 := Batch(cfg, w2, k, {});
  }

  /** And one that a lost callback leaves stuck. */
  lemma LostCallbackHappens(cfg: Settings)
    ensures exists es :: Admissible(INIT, cfg, es) && var w := Exec(INIT, cfg, es);
              w.fault.None? && w.dc.stage == GET_STALE_ORDERS && w.rest.lost != multiset{} && Stuck(w)
  {
    var k := Key(0, 1);
    var w1 := FirstSession(cfg);
    var w2 := Scan(cfg, w1, k);
    var w3 := Batch(cfg, w2, k, {k});
    var w4 := Go(cfg, w3, LostCall(k));
    assert k in w4.rest.lost;
  }

  /** A world with a drop copy that is connected, in which nothing else has happened. */
  lemma FirstConnection(cfg: Settings) returns (v: World)
    ensures Reaches(cfg, v) && v.fault.None? && v.created && v.link == CONNECTED && v.dc.query != ""
    ensures v.dc.nextSimulated == cfg.simulateExpiredToken && v.rest.status == READY && v.rest.replies == multiset{}
  {
    Start(cfg);
    var w1 := Go(cfg, INIT, RestConnected);
    var w2 := Go(cfg, w1, TokenReply(Success(Some(Token(true, true, "t", 2)))));
    v := Go(cfg, w2, DropConnected(0));
  }

  /** The token expires: the exchange says so, or a simulated expiry is due. */
  lemma Expiry(cfg: Settings, w: World) returns (v: World)
    requires Reaches(cfg, w) && w.fault.None? && w.created && w.link == CONNECTED && w.dc.query != ""
    requires w.dc.nextSimulated == cfg.simulateExpiredToken
    requires !NeverRefreshes(cfg)
    ensures Reaches(cfg, v) && v.fault.None? && v.created && v.dc.query == "" && v.req.privateToken.wanted
    ensures v.rest == w.rest
  {
    if cfg.crashOnExpiredToken {
      v := Go(cfg, w, DropTimer(Tick(cfg.simulateExpiredToken + 1, 0, true, [], [])));
    } else {
      var w1 := Go(cfg, w, DropReady);
      v := Go(cfg, w1, DropError(true));
    }
  }

  ghost predicate FailsToRefresh(cfg: Settings, es: seq<Event>) {
    Admissible(INIT, cfg, es) && var w := Exec(INIT, cfg, es); w.fault.None? && RefreshFailed(w)
  }

  /** There is a run in which a refresh fails for good exactly if one can be requested at all. */
  lemma RefreshFailsIff(cfg: Settings)
    ensures (exists es :: FailsToRefresh(cfg, es)) <==> !NeverRefreshes(cfg)
  {
    if NeverRefreshes(cfg) {
      forall es
        ensures !FailsToRefresh(cfg, es)
      {
        if Admissible(INIT, cfg, es) {
          UnexpiredRun(INIT, cfg, es);
        }
      }
    } else {
      var w := FailedRefresh(cfg);
      var es :| Admissible(INIT, cfg, es) && Exec(INIT, cfg, es) == w;
      assert FailsToRefresh(cfg, es);
    }
  }

  lemma FailedRefresh(cfg: Settings) returns (w: World)
    requires !NeverRefreshes(cfg)
    ensures Reaches(cfg, w) && w.fault.None? && RefreshFailed(w)
  {
    var w1 := FirstConnection(cfg);
    var w2 := Expiry(cfg, w1);
    OnlyServes(RestSide(w2), PRIVATE_TOKEN);
    hide RestOnTimer;
    var w3 := Go(cfg, w2, RestTimer(true, {PRIVATE_TOKEN}, {}));
    w := Go(cfg, w3, TokenReply(ServerError));
  }

  /** A connected drop copy gets as far as asking for the balances. */
  lemma ToBalances(cfg: Settings, w: World) returns (v: World)
    requires Reaches(cfg, w) && Shape(w) && w.fault.None? && w.created && w.link == CONNECTED
    ensures Reaches(cfg, v) && v.fault.None? && v.created && v.link == OPEN && v.rest == w.rest
    ensures v.dc.stage == GET_BALANCES && v.req.balances == Slot(true, false)
  {
    var w1 := Go(cfg, w, DropReady);
    var w2 := Go(cfg, w1, DropWelcome);
    v := Go(cfg, w2, DropAck(Some(SUBSCRIBE_BALANCES)));
  }

  lemma ReachesShape(cfg: Settings, w: World)
    requires Reaches(cfg, w)
    ensures Shape(w)
  {
    var es :| Admissible(INIT, cfg, es) && Exec(INIT, cfg, es) == w;
    ShapeRunFrom(INIT, cfg, es);
  }

  /** A session asks for the balances and disconnects before the reply. */
  lemma LeavesReply(cfg: Settings) returns (v: World)
    ensures Reaches(cfg, v) && v.fault.None? && v.created && v.link == DOWN && BALANCES in v.rest.replies
  {
    var w1 := FirstConnection(cfg);
    ReachesShape(cfg, w1);
    var w2 := ToBalances(cfg, w1);
    OnlyServes(RestSide(w2), BALANCES);
    hide RestOnTimer;
    var w3 := Go(cfg, w2, RestTimer(true, {BALANCES}, {}));
    v := Go(cfg, w3, DropDisconnected);
  }

  /** For every setting there is a session that sees a commit before its own request is sent. */
  lemma EarlyCommitHappens(cfg: Settings)
    ensures exists es :: Admissible(INIT, cfg, es) && var w := Exec(INIT, cfg, es);
              w.fault.None? && Unsent(w, GET_BALANCES) && w.req.balances.response
  {
    var w4 := LeavesReply(cfg);
    var w5 := Go(cfg, w4, DropConnected(0));
    ReachesShape(cfg, w5);
    var w6 := ToBalances(cfg, w5);
    var w7 := Go(cfg, w6, SlotReply(BALANCES, ServerError));
  }

  /** For every setting a lost reply leaves a session stuck in GET_BALANCES. */
  lemma LostReplyHappens(cfg: Settings)
    ensures exists es :: Admissible(INIT, cfg, es) && var w := Exec(INIT, cfg, es);
              w.fault.None? && Forgotten(w, GET_BALANCES)
  {
    var w1 := FirstConnection(cfg);
    ReachesShape(cfg, w1);
    var w2 := ToBalances(cfg, w1);
    OnlyServes(RestSide(w2), BALANCES);
    hide RestOnTimer;
    var w3 := Go(cfg, w2, RestTimer(true, {BALANCES}, {}));
    var w4 := Go(cfg, w3, LostReply(BALANCES));
  }
}
