/**
 Control state of the two actors: what every reachable world keeps, whatever the interleaving,
 and that no `assert` of the handlers can fail.
 */
module RecoveryShape {
  import opened Wrappers
  import opened LimitRequest
  import opened Recovery

  predicate DropShape(d: Drop, link: Link) {
    && (d.welcome <==> d.stage != UNDEFINED)
    && (d.welcome ==> link == OPEN)
    && (d.ready <==> d.stage == DONE)
    && (d.status == READY <==> d.stage == DONE)
    && (d.waiting == if d.stage == UNDEFINED || d.stage == DONE then 0 else 1)
    && (link == DOWN ==> d.logonTimeout == 0)
  }

  /** The drop copy exists only once a token has been downloaded, and one download is enough. */
  predicate RestShape(w: World) {
    && (w.created ==> w.rest.hasToken)
    && (w.rest.hasToken ==> w.rest.stage != REST_PRIVATE_TOKEN)
    && (w.rest.status == READY <==> w.rest.stage == REST_DONE)
    && (!w.created ==> w.link == DOWN)
  }

  predicate Shape(w: World) {
    w.fault.None? ==> DropShape(w.dc, w.link) && RestShape(w)
  }

  lemma EnterShape(c: Core, cfg: Settings, stage: Stage, link: Link)
    requires stage != UNDEFINED && c.dc.welcome && !c.dc.ready && c.dc.status != READY && link == OPEN
    ensures var d := Enter(c, cfg, stage);
            DropShape(d.dc, link) && d.fault == c.fault && d.dc.stage != UNDEFINED
    decreases Rank(DONE) - Rank(stage)
  {
  }

  lemma CheckShape(c: Core, cfg: Settings, s: Stage, link: Link)
    requires DropShape(c.dc, link)
    ensures DropShape(Check(c, cfg, s).dc, link) && Check(c, cfg, s).fault == c.fault
  {
    if c.dc.stage == s && s != UNDEFINED && s != DONE {
      EnterShape(c.(dc := c.dc.(waiting := 0)), cfg, Next(s), OPEN);
    }
  }

  lemma QueueShape(c: Core, cfg: Settings, scan: seq<Key>, link: Link)
    requires DropShape(c.dc, link) && c.fault.None?
    ensures var d := CheckRequestQueue(c, cfg, scan);
            DropShape(d.dc, link) && (d.fault.None? || d.fault == Some(STALE_NOT_EMPTY))
  {
    var s := c.dc.stage;
    if IsGet(s) {
      var d := c.(req := c.req.Consume(SlotOf(s)));
      CheckShape(d.(req := d.req.Queue(Keys(scan))), cfg, s, link);
      CheckShape(d, cfg, s, link);
    }
  }

  /** The ping timer moves the schedule and its history only. */
  lemma PingTimerFrame(c: Core, now: int)
    ensures var d := PingTimer(c, now);
            && d == c.(dc := c.dc.(nextPing := d.dc.nextPing, ticks := d.dc.ticks), req := d.req)
            && d.req == c.req.(session := d.req.session)
            && (d.req == c.req || d.req == c.req.Log(PingSent(now)))
  {
  }

  lemma TimerShape(c: Core, cfg: Settings, t: Tick, link: Link)
    requires DropShape(c.dc, link) && c.fault.None?
    ensures var d := OnTimer(c, cfg, t, link == OPEN);
            DropShape(d.dc, link) && (d.fault.None? || d.fault == Some(STALE_NOT_EMPTY))
  {
    var c1 := PingTimer(c, t.now);
    PingTimerFrame(c, t.now);
    hide PingTimer;
    QueueShape(c1, cfg, t.openScan, link);
  }

  /** What serving requests leaves alone. */
  predicate Serves(r: RestCore, q: RestCore) {
    && q.rest.status == r.rest.status && q.rest.stage == r.rest.stage
    && q.rest.hasToken == r.rest.hasToken && q.fault == r.fault
    && q.rest.answered == r.rest.answered && q.rest.lost == r.rest.lost
    && q.req.session == r.req.session && q.req.queued == r.req.queued
    && (forall n: Name :: q.req.Get(n).response == r.req.Get(n).response)
    && (forall n: Name :: q.req.Get(n).wanted ==> r.req.Get(n).wanted)
  }

  /** The part of the state that only the stale orders concern. */
  predicate SameStale(r: RestCore, q: RestCore) {
    && q.rest.counter == r.rest.counter && q.rest.calls == r.rest.calls
    && q.rest.sent == r.rest.sent && q.rest.reported == r.rest.reported
    && q.req.stale == r.req.stale && q.req.staleOrders == r.req.staleOrders
  }

  lemma CheckPendingServes(r: RestCore, n: Name, allowed: set<Name>)
    requires n != STALE_ORDERS
    ensures Serves(r, CheckPending(r, n, allowed)) && SameStale(r, CheckPending(r, n, allowed))
  {
    PutKeeps(r.req, n, r.req.Get(n).CheckPending(true));
  }

  lemma PutKeeps(q: Requests, n: Name, s: Slot)
    ensures q.Put(n, s).Get(n) == s && forall m: Name :: m != n ==> q.Put(n, s).Get(m) == q.Get(m)
    ensures q.Put(n, s).(privateToken := q.privateToken, balances := q.balances, positions := q.positions,
                         openOrders := q.openOrders, staleOrders := q.staleOrders, trades := q.trades) == q
    ensures n != STALE_ORDERS ==> q.Put(n, s).staleOrders == q.staleOrders
  {
  }

  lemma CheckPendingStaleServes(r: RestCore, q: RestCore, allowed: set<Name>, known: set<Key>)
    requires Serves(r, q) && SameStale(r, q)
    ensures Serves(r, CheckPendingStale(q, allowed, known))
    ensures SameStale(CheckPendingStale(r, allowed, known), CheckPendingStale(q, allowed, known))
  {
  }

  /** The REST timer moves requests out of the slots, and the stale orders out of their queue. */
  lemma RestTimerServes(r: RestCore, refreshed: bool, allowed: set<Name>, known: set<Key>)
    ensures Serves(r, RestOnTimer(r, refreshed, allowed, known))
    ensures SameStale(if refreshed && r.rest.status == READY then CheckPendingStale(r, allowed, known) else r,
                      RestOnTimer(r, refreshed, allowed, known))
  {
    if refreshed && r.rest.status == READY {
      var r1 := CheckPending(r, PRIVATE_TOKEN, allowed);
      CheckPendingServes(r, PRIVATE_TOKEN, allowed);
      var r2 := CheckPending(r1, BALANCES, allowed);
      CheckPendingServes(r1, BALANCES, allowed);
      var r3 := CheckPending(r2, POSITIONS, allowed);
      CheckPendingServes(r2, POSITIONS, allowed);
      var r4 := CheckPending(r3, OPEN_ORDERS, allowed);
      CheckPendingServes(r3, OPEN_ORDERS, allowed);
      var r5 := CheckPendingStale(r4, allowed, known);
      CheckPendingStaleServes(r, r4, allowed, known);
      CheckPendingServes(r5, TRADES, allowed);
    }
  }

  /** Events that the drop copy handles. */
  predicate OfDrop(e: Event) {
    e.DropConnected? || e.DropReady? || e.DropWelcome? || e.DropAck? || e.DropError? ||
    e.DropDisconnected? || e.DropTimer?
  }

  lemma DropShapeStep(w: World, cfg: Settings, e: Event)
    requires Shape(w) && Enabled(w, e) && OfDrop(e)
    ensures Shape(Step(w, cfg, e))
  {
    hide OnTimer;
    hide Enter;
    hide Check;
    hide RequestPrivateToken;
    match e
    case DropTimer(t) => TimerShape(DropSide(w), cfg, t, w.link);
    case DropWelcome =>
      var c := DropSide(w);
      EnterShape(c.(dc := c.dc.(welcome := true), req := c.req.Log(Welcomed)), cfg, SUBSCRIBE_BALANCES, OPEN);
    case DropAck(id) =>
      if id.Some? {
        CheckShape(Core(w.dc, w.req.Log(Acked(id.value)), None), cfg, id.value, w.link);
      }
    case DropError(_) => RefreshShape(DropSide(w));
    case _ =>
  }

  /** Asking for a new token leaves the session alone. */
  lemma RefreshShape(c: Core)
    ensures var d := RequestPrivateToken(c);
            d.dc == c.dc.(query := d.dc.query, tokens := d.dc.tokens) && d.fault == c.fault
  {
  }

  lemma RestShapeStep(w: World, cfg: Settings, e: Event)
    requires Shape(w) && Enabled(w, e) && !OfDrop(e)
    ensures Shape(Step(w, cfg, e))
  {
    hide RestOnTimer;
    hide ProcessResponse;
    hide Requests.Commit;
    hide DropShape;
    match e
    case RestTimer(refreshed, allowed, known) => RestTimerServes(RestSide(w), refreshed, allowed, known);
    case TokenReply(reply) => TokenShapeStep(w, cfg, reply);
    case _ =>
  }

  lemma DeliverShape(w: World, t: Option<Token>)
    requires Shape(w) && w.fault.None?
    ensures var v := Deliver(w, t);
            && DropShape(v.dc, v.link) && v.rest == w.rest && v.fault.None?
            && (!v.created ==> v.link == DOWN) && (v.created ==> w.rest.hasToken || t.Some?)
  {
  }

  lemma TokenShapeStep(w: World, cfg: Settings, reply: Reply<Token>)
    requires Shape(w) && Enabled(w, TokenReply(reply))
    ensures Shape(Step(w, cfg, TokenReply(reply)))
  {
    DeliverShape(w, Delivered(reply));
    hide Deliver;
    hide Delivered;
    hide TokenFault;
    hide DropShape;
    hide Requests.Commit;
  }

  lemma ShapeStep(w: World, cfg: Settings, e: Event)
    requires Shape(w) && Enabled(w, e)
    ensures Shape(Step(w, cfg, e))
  {
    hide Step;
    hide Shape;
    if OfDrop(e) {
      DropShapeStep(w, cfg, e);
    } else {
      RestShapeStep(w, cfg, e);
    }
  }

  lemma {:induction false} ShapeRunFrom(w: World, cfg: Settings, es: seq<Event>)
    requires Shape(w) && Admissible(w, cfg, es)
    ensures Shape(Exec(w, cfg, es))
    decreases |es|
  {
    if es != [] {
      ShapeStep(w, cfg, es[0]);
      ShapeRunFrom(Step(w, cfg, es[0]), cfg, es[1..]);
    }
  }

  /**
   The conditions that the handlers assert, in every reachable world: only a drop copy that exists
   is connected, a connection finds no logon timeout, a socket that is not open has not been
   welcomed, and READY is not entered by a drop copy that is ready.
   */
  lemma AssertionsHold(cfg: Settings, es: seq<Event>)
    requires Admissible(INIT, cfg, es)
    ensures var w := Exec(INIT, cfg, es);
            w.fault.None? ==>
              && (w.link != DOWN ==> w.created)
              && (w.link == DOWN ==> w.dc.logonTimeout == 0)
              && (w.link != OPEN ==> !w.dc.welcome)
              && (w.dc.stage != DONE ==> !w.dc.ready)
              && (w.dc.ready <==> w.dc.status == READY)
  {
    ShapeRunFrom(INIT, cfg, es);
  }
}
