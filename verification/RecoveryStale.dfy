/**
 Stale orders over whole runs: the in-flight counter, the queue that both actors share, and
 where every queued order goes.
 */
module RecoveryStale {
  import opened Wrappers
  import opened Recovery
  import opened RecoveryShape

  // --- invariants ---

  /** The counter counts the queries whose callback has not run. */
  predicate Counted(w: World) {
    w.rest.counter == |w.rest.calls| + |w.rest.lost|
  }

  /** A queued order always has a request that will pick it up. */
  predicate NoOrphan(q: Requests) {
    q.stale != {} ==> q.staleOrders.wanted
  }

  /** Every order that was ever queued is still queued, or was queried, or was reported missing. */
  predicate Conserved(w: World) {
    && w.req.queued == multiset(w.req.stale) + w.rest.sent + w.rest.reported
    && w.rest.sent == w.rest.calls + w.rest.answered + w.rest.lost
  }

  predicate StaleInv(w: World) {
    && Shape(w)
    && w.fault != Some(COUNTER_ZERO)
    && (w.fault.None? ==> Counted(w) && NoOrphan(w.req) && Conserved(w))
  }

  // --- the drop copy side ---

  /** Queueing adds to the queue exactly what it adds to the history. */
  predicate Balanced(p: Requests, q: Requests) {
    q.queued + multiset(p.stale) == p.queued + multiset(q.stale)
  }

  lemma QueueBalanced(q: Requests, orders: set<Key>)
    ensures Balanced(q, q.Queue(orders))
  {
    assert multiset(q.stale + orders) == multiset(q.stale) + multiset(orders - q.stale);
  }

  lemma EnterStale(c: Core, cfg: Settings, stage: Stage)
    requires stage != UNDEFINED
    requires stage == GET_STALE_ORDERS || NoOrphan(c.req)
    ensures var d := Enter(c, cfg, stage);
            d.req.stale == c.req.stale && d.req.queued == c.req.queued && NoOrphan(d.req)
    decreases Rank(DONE) - Rank(stage)
  {
  }

  lemma CheckStale(c: Core, cfg: Settings, s: Stage)
    requires NoOrphan(c.req) || (s == GET_OPEN_ORDERS && c.dc.stage == s && c.dc.waiting == 1)
    ensures var d := Check(c, cfg, s);
            d.req.stale == c.req.stale && d.req.queued == c.req.queued && NoOrphan(d.req)
  {
    if c.dc.stage == s && s != DONE && c.dc.waiting == 1 {
      EnterStale(c.(dc := c.dc.(waiting := 0)), cfg, Next(s));
    }
  }

  lemma RequestQueueStale(c: Core, cfg: Settings, scan: seq<Key>, link: Link)
    requires DropShape(c.dc, link) && NoOrphan(c.req)
    ensures var d := CheckRequestQueue(c, cfg, scan);
            Balanced(c.req, d.req) && NoOrphan(d.req)
  {
    var s := c.dc.stage;
    if IsGet(s) {
      var d := c.(req := c.req.Consume(SlotOf(s)));
      QueueBalanced(d.req, Keys(scan));
      if s == GET_OPEN_ORDERS {
        CheckStale(d.(req := d.req.Queue(Keys(scan))), cfg, s);
      } else {
        CheckStale(d, cfg, s);
      }
    }
  }

  lemma PeriodicStale(c: Core, cfg: Settings, origin: int, scan: seq<Key>)
    requires NoOrphan(c.req)
    ensures var d := CheckStaleOrders(c, cfg, origin, scan);
            Balanced(c.req, d.req) && NoOrphan(d.req)
  {
    QueueBalanced(c.req, Keys(scan));
    if Keys(scan) <= c.req.stale {
      assert c.req.stale + Keys(scan) == c.req.stale;
    }
  }

  lemma BalancedTransitive(p: Requests, q: Requests, r: Requests)
    requires Balanced(p, q) && Balanced(q, r)
    ensures Balanced(p, r)
  {
    forall k: Key
      ensures (r.queued + multiset(p.stale))[k] == (p.queued + multiset(r.stale))[k]
    {
      assert (q.queued + multiset(p.stale))[k] == (p.queued + multiset(q.stale))[k];
      assert (r.queued + multiset(q.stale))[k] == (q.queued + multiset(r.stale))[k];
    }
  }

  lemma OpenStale(c: Core, cfg: Settings, t: Tick, link: Link)
    requires DropShape(c.dc, link) && NoOrphan(c.req)
    ensures Balanced(c.req, WhenOpen(c, cfg, t).req) && NoOrphan(WhenOpen(c, cfg, t).req)
  {
    var c1 := PingTimer(c, t.now);
    PingTimerFrame(c, t.now);
    hide PingTimer;
    RequestQueueStale(c1, cfg, t.openScan, link);
    var c2 := CheckRequestQueue(c1, cfg, t.openScan);
    PeriodicStale(c2, cfg, t.origin, t.periodicScan);
    BalancedTransitive(c1.req, c2.req, CheckStaleOrders(c2, cfg, t.origin, t.periodicScan).req);
  }

  lemma SimulateStale(c: Core, now: int)
    ensures Simulate(c, now).req.stale == c.req.stale && Simulate(c, now).req.queued == c.req.queued
    ensures Simulate(c, now).req.staleOrders == c.req.staleOrders && Simulate(c, now).fault == c.fault
    ensures Simulate(c, now).dc.stage == c.dc.stage
  {
  }

  lemma TimerStale(c: Core, cfg: Settings, t: Tick, link: Link)
    requires DropShape(c.dc, link) && NoOrphan(c.req)
    ensures var d := OnTimer(c, cfg, t, link == OPEN);
            Balanced(c.req, d.req) && NoOrphan(d.req)
  {
    if link == OPEN {
      OpenStale(c, cfg, t, link);
      var c1 := WhenOpen(c, cfg, t);
      SimulateStale(c1.(req := c1.req.Consume(PRIVATE_TOKEN)), t.now);
    } else {
      var c1 := c.(req := c.req.Log(Closed));
      SimulateStale(c1.(req := c1.req.Consume(PRIVATE_TOKEN)), t.now);
      SimulateStale(c.(req := c.req.Consume(PRIVATE_TOKEN)), t.now);
    }
  }

  lemma DropStale(w: World, cfg: Settings, e: Event)
    requires StaleInv(w) && Enabled(w, e)
    requires OfDrop(e)
    ensures var v := Step(w, cfg, e);
            Balanced(w.req, v.req) && NoOrphan(v.req) && v.rest == w.rest && v.fault != Some(COUNTER_ZERO)
  {
    match e
    case DropTimer(t) =>
      TimerShape(DropSide(w), cfg, t, w.link);
      TimerStale(DropSide(w), cfg, t, w.link);
    case DropWelcome =>
      var c := DropSide(w);
      EnterShape(c.(dc := c.dc.(welcome := true), req := c.req.Log(Welcomed)), cfg, SUBSCRIBE_BALANCES, OPEN);
      EnterStale(c.(dc := c.dc.(welcome := true), req := c.req.Log(Welcomed)), cfg, SUBSCRIBE_BALANCES);
    case DropAck(id) =>
      if id.Some? {
        CheckShape(Core(w.dc, w.req.Log(Acked(id.value)), None), cfg, id.value, w.link);
        CheckStale(Core(w.dc, w.req.Log(Acked(id.value)), None), cfg, id.value);
      }
    case _ =>
  }

  // --- the REST side ---

  lemma SplitByKnown(stale: set<Key>, known: set<Key>)
    ensures multiset(stale) == multiset(stale * known) + multiset(stale - known)
    ensures |multiset(stale * known)| == |stale * known|
  {
  }

  /** One batch moves the whole queue into queries and not-found reports. */
  lemma BatchConserves(w: World, q: Requests, r: Rest, known: set<Key>)
    requires Counted(w) && Conserved(w) && r.answered == w.rest.answered && r.lost == w.rest.lost
    requires r.counter == w.rest.counter + |w.req.stale * known|
    requires r.calls == w.rest.calls + multiset(w.req.stale * known)
    requires r.sent == w.rest.sent + multiset(w.req.stale * known)
    requires r.reported == w.rest.reported + multiset(w.req.stale - known)
    requires q.queued == w.req.queued && q.stale == {}
    ensures Counted(w.(req := q, rest := r)) && Conserved(w.(req := q, rest := r))
  {
    SplitByKnown(w.req.stale, known);
    assert |r.calls| == |w.rest.calls| + |w.req.stale * known|;
  }

  lemma BatchStale(w: World, refreshed: bool, allowed: set<Name>, known: set<Key>)
    requires w.fault.None? && Counted(w) && NoOrphan(w.req) && Conserved(w)
    ensures var v := WithRest(w, RestOnTimer(RestSide(w), refreshed, allowed, known));
            Counted(v) && NoOrphan(v.req) && Conserved(v)
  {
    hide RestOnTimer;
    RestTimerServes(RestSide(w), refreshed, allowed, known);
    var v := WithRest(w, RestOnTimer(RestSide(w), refreshed, allowed, known));
    if refreshed && w.rest.status == READY && w.req.staleOrders.Fires(STALE_ORDERS in allowed) {
      BatchConserves(w, v.req, v.rest, known);
    }
  }

  lemma RemoveOne<T>(m: multiset<T>, x: T)
    requires x in m
    ensures |m - multiset{x}| == |m| - 1
    ensures m - multiset{x} == multiset{} <==> m == multiset{x}
  {
    assert m == (m - multiset{x}) + multiset{x};
  }

  /**
   An answer decrements the counter whatever its outcome. It commits the stale-orders slot
   exactly when it answers the last query in flight and no callback was ever lost.
   */
  lemma AnswerCounts(w: World, k: Key, reply: Reply<OrderBody>)
    requires Counted(w) && k in w.rest.calls && !reply.Redirection?
    ensures var r := OnOrderReply(RestSide(w), k, reply);
            && r.fault.None?
            && r.rest == w.rest.(counter := r.rest.counter, calls := w.rest.calls - multiset{k},
                                 answered := w.rest.answered + multiset{k})
            && r.rest.counter == |r.rest.calls| + |r.rest.lost|
            && r.rest.counter == w.rest.counter - 1
            && r.req == if w.rest.calls == multiset{k} && w.rest.lost == multiset{}
                        then w.req.Commit(STALE_ORDERS) else w.req
  {
    RemoveOne(w.rest.calls, k);
  }

  lemma AnswerStale(w: World, k: Key, reply: Reply<OrderBody>)
    requires Counted(w) && NoOrphan(w.req) && Conserved(w) && k in w.rest.calls && !reply.Redirection?
    ensures var v := WithRest(w, OnOrderReply(RestSide(w), k, reply));
            v.fault.None? && Counted(v) && NoOrphan(v.req) && Conserved(v)
  {
    AnswerCounts(w, k, reply);
    hide OnOrderReply;
    hide Counted;
    var calls, answered := w.rest.calls, w.rest.answered;
    assert calls == (calls - multiset{k}) + multiset{k};
    assert (calls - multiset{k}) + (answered + multiset{k}) == calls + answered;
    var v := WithRest(w, OnOrderReply(RestSide(w), k, reply));
    assert Counted(v) by { CountedIs(v); }
  }

  lemma CountedIs(w: World)
    ensures Counted(w) <==> w.rest.counter == |w.rest.calls| + |w.rest.lost|
  {
  }

  lemma LossStale(w: World, cfg: Settings, k: Key)
    requires w.fault.None? && Counted(w) && NoOrphan(w.req) && Conserved(w) && k in w.rest.calls
    ensures var v := Step(w, cfg, LostCall(k));
            Counted(v) && NoOrphan(v.req) && Conserved(v)
  {
    RemoveOne(w.rest.calls, k);
    assert w.rest.calls == (w.rest.calls - multiset{k}) + multiset{k};
  }

  /** Nothing that concerns stale orders changes. */
  predicate Unconcerned(w: World, v: World) {
    && v.req.stale == w.req.stale && v.req.queued == w.req.queued && v.req.staleOrders == w.req.staleOrders
    && v.rest.counter == w.rest.counter && v.rest.calls == w.rest.calls && v.rest.lost == w.rest.lost
    && v.rest.sent == w.rest.sent && v.rest.answered == w.rest.answered && v.rest.reported == w.rest.reported
    && v.fault != Some(COUNTER_ZERO)
  }

  predicate QuietRest(e: Event) {
    e.RestConnected? || e.RestDisconnected? || e.RestRetry? || e.TokenReply? || e.SlotReply? || e.LostReply?
  }

  lemma TokenUnconcerned(w: World, cfg: Settings, reply: Reply<Token>)
    requires w.fault.None? && PRIVATE_TOKEN in w.rest.replies
    ensures Unconcerned(w, Step(w, cfg, TokenReply(reply)))
  {
    hide Delivered;
    hide ProcessResponse;
  }

  lemma QuietUnconcerned(w: World, cfg: Settings, e: Event)
    requires Enabled(w, e) && QuietRest(e)
    ensures Unconcerned(w, Step(w, cfg, e))
  {
    hide OnSlotReply;
    hide OnTokenReply;
    hide OnOrderReply;
    hide RestOnTimer;
    hide Deliver;
    hide OnTimer;
    hide Check;
    hide Enter;
    match e
    case TokenReply(reply) => TokenUnconcerned(w, cfg, reply);
    case SlotReply(n, reply) => SlotUnconcerned(w, n, reply);
    case _ =>
  }

  lemma SlotUnconcerned(w: World, n: Name, reply: Reply<()>)
    requires n != STALE_ORDERS
    ensures Unconcerned(w, WithRest(w, OnSlotReply(RestSide(w), n, reply)))
  {
    PutKeeps(w.req, n, w.req.Get(n).Commit());
  }

  lemma RestStep(w: World, cfg: Settings, e: Event)
    requires StaleInv(w) && Enabled(w, e) && (e.RestTimer? || e.OrderReply? || e.LostCall?)
    ensures var v := Step(w, cfg, e);
            v.fault != Some(COUNTER_ZERO) && (v.fault.None? ==> Counted(v) && NoOrphan(v.req) && Conserved(v))
  {
    match e
    case RestTimer(refreshed, allowed, known) =>
      BatchStale(w, refreshed, allowed, known);
      RestTimerServes(RestSide(w), refreshed, allowed, known);
    case OrderReply(k, reply) =>
      if !reply.Redirection? {
        AnswerStale(w, k, reply);
      }
    case LostCall(k) => LossStale(w, cfg, k);
  }

  lemma StaleStep(w: World, cfg: Settings, e: Event)
    requires StaleInv(w) && Enabled(w, e)
    ensures StaleInv(Step(w, cfg, e))
  {
    ShapeStep(w, cfg, e);
    if OfDrop(e) {
      DropStale(w, cfg, e);
      DropKeepsLedger(w, Step(w, cfg, e));
    } else if QuietRest(e) {
      QuietUnconcerned(w, cfg, e);
    } else {
      RestStep(w, cfg, e);
    }
  }

  lemma DropKeepsLedger(w: World, v: World)
    requires Conserved(w) && Balanced(w.req, v.req) && v.rest == w.rest
    ensures Conserved(v)
  {
    forall k: Key
      ensures v.req.queued[k] == (multiset(v.req.stale) + v.rest.sent + v.rest.reported)[k]
    {
      assert (v.req.queued + multiset(w.req.stale))[k] == (w.req.queued + multiset(v.req.stale))[k];
    }
  }

  // --- runs ---

  lemma {:induction false} StaleRunFrom(w: World, cfg: Settings, es: seq<Event>)
    requires StaleInv(w) && Admissible(w, cfg, es)
    ensures StaleInv(Exec(w, cfg, es))
    decreases |es|
  {
    if es != [] {
      StaleStep(w, cfg, es[0]);
      StaleRunFrom(Step(w, cfg, es[0]), cfg, es[1..]);
    }
  }

  /**
   In every reachable world: the counter equals the queries in flight plus the callbacks that
   were lost, and the fatal branch of `get_order_ack` is not taken.
   */
  lemma CounterIsInFlight(cfg: Settings, es: seq<Event>)
    requires Admissible(INIT, cfg, es)
    ensures var w := Exec(INIT, cfg, es);
            && w.fault != Some(COUNTER_ZERO)
            && (w.fault.None? ==> w.rest.counter == |w.rest.calls| + |w.rest.lost|)
  {
    StaleRunFrom(INIT, cfg, es);
  }

  /** In every reachable world a non-empty queue of stale orders has a pending request. */
  lemma NoOrphanedStaleOrder(cfg: Settings, es: seq<Event>)
    requires Admissible(INIT, cfg, es)
    ensures var w := Exec(INIT, cfg, es);
            w.fault.None? && w.req.stale != {} ==> w.req.staleOrders.wanted
  {
    StaleRunFrom(INIT, cfg, es);
  }

  /**
   Conservation over a run, by number of insertions of each order: still queued, or left in one
   batch with one query (in flight, answered or lost) or one not-found report.
   */
  lemma StaleOrdersAreConserved(cfg: Settings, es: seq<Event>, k: Key)
    requires Admissible(INIT, cfg, es)
    ensures var w := Exec(INIT, cfg, es);
            w.fault.None? ==>
              && w.req.queued[k] == (if k in w.req.stale then 1 else 0) + w.rest.sent[k] + w.rest.reported[k]
              && w.rest.sent[k] == w.rest.calls[k] + w.rest.answered[k] + w.rest.lost[k]
  {
    StaleRunFrom(INIT, cfg, es);
  }
}
