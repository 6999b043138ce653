/** The pings that the drop copy sends, over every run of the two actors. */
module RecoveryPing {
  import opened Wrappers
  import opened Recovery
  import opened RecoveryShape
  import Ping

  /** Times of the pings in a session. */
  function Pings(session: seq<Entry>): seq<int> {
    if session == [] then []
    else
      var last := session[|session| - 1];
      Pings(session[..|session| - 1]) + if last.PingSent? then [last.time] else []
  }

  /** Nothing that concerns pings has changed. */
  predicate Silent(c: Core, d: Core) {
    && Pings(d.req.session) == Pings(c.req.session)
    && d.dc.nextPing == c.dc.nextPing && d.dc.pingFrequency == c.dc.pingFrequency && d.dc.ticks == c.dc.ticks
  }

  lemma PingsOfLog(session: seq<Entry>, e: Entry)
    ensures Pings(session + [e]) == Pings(session) + if e.PingSent? then [e.time] else []
  {
    assert (session + [e])[..|session|] == session;
  }

  lemma SilentLog(q: Requests, e: Entry)
    requires !e.PingSent?
    ensures Pings(q.Log(e).session) == Pings(q.session)
  {
    PingsOfLog(q.session, e);
  }

  lemma SilentAsk(q: Requests, n: Name)
    ensures Pings(q.Ask(n).session) == Pings(q.session)
  {
    SilentLog(q.Put(n, q.Get(n).Request()), Requested(n));
  }

  lemma SilentCallback(c: Core, cfg: Settings, s: Stage)
    requires s != UNDEFINED
    ensures Silent(c, Callback(c, cfg, s).0)
  {
    hide Pings;
    var q := c.req;
    SilentLog(q, Published(DOWNLOADING));
    SilentLog(q, Published(READY));
    SilentLog(q.Log(Published(DOWNLOADING)), Subscribed(s));
    SilentLog(q, StaleTested(false));
    SilentLog(q, StaleTested(true));
    SilentLog(q.Log(StaleTested(true)), Published(DOWNLOADING));
    SilentAsk(q.Log(StaleTested(true)).Log(Published(DOWNLOADING)), STALE_ORDERS);
    if IsGet(s) {
      SilentAsk(q.Log(Published(DOWNLOADING)), SlotOf(s));
    }
  }

  lemma {:induction false} SilentEnter(c: Core, cfg: Settings, s: Stage)
    requires s != UNDEFINED
    ensures Silent(c, Enter(c, cfg, s))
    decreases Rank(DONE) - Rank(s)
  {
    hide Callback;
    var b := c.(dc := c.dc.(stage := s));
    SilentCallback(b, cfg, s);
    var (d, n) := Callback(b, cfg, s);
    if n == 0 && s != DONE {
      SilentEnter(d, cfg, Next(s));
    }
  }

  lemma SilentCheck(c: Core, cfg: Settings, s: Stage)
    ensures Silent(c, Check(c, cfg, s))
  {
    if c.dc.stage == s && c.dc.waiting == 1 && s != DONE {
      SilentEnter(c.(dc := c.dc.(waiting := 0)), cfg, Next(s));
    }
  }

  lemma SilentQueue(c: Core, cfg: Settings, scan: seq<Key>)
    ensures Silent(c, CheckRequestQueue(c, cfg, scan))
  {
    hide Check;
    if IsGet(c.dc.stage) {
      var d := c.(req := c.req.Consume(SlotOf(c.dc.stage)));
      SilentCheck(d.(req := d.req.Queue(Keys(scan))), cfg, c.dc.stage);
      SilentCheck(d, cfg, c.dc.stage);
    }
  }

  lemma SilentStaleOrders(c: Core, cfg: Settings, origin: int, scan: seq<Key>)
    ensures Silent(c, CheckStaleOrders(c, cfg, origin, scan))
  {
    SilentAsk(c.req.Queue(Keys(scan)), STALE_ORDERS);
    hide Pings;
  }

  lemma SilentRefresh(c: Core)
    ensures Silent(c, RequestPrivateToken(c))
  {
    SilentLog(c.req, Suspended);
    SilentAsk(c.req.Log(Suspended), PRIVATE_TOKEN);
    hide Pings;
  }

  /** The pings sent are those that the ready ticks ask for, and the schedule fits them. */
  predicate Paced(d: Drop, session: seq<Entry>) {
    && Pings(session) == Ping.PingsOf(d.ticks, d.pingFrequency)
    && d.nextPing == Ping.Scheduled(Pings(session), d.pingFrequency)
  }

  lemma PingTimerPaces(c: Core, now: int)
    requires Paced(c.dc, c.req.session)
    ensures var d := PingTimer(c, now); Paced(d.dc, d.req.session) && d.dc.pingFrequency == c.dc.pingFrequency
  {
    PingsOfLog(c.req.session, PingSent(now));
    assert (c.dc.ticks + [now])[..|c.dc.ticks|] == c.dc.ticks;
  }

  lemma WhenOpenPaces(c: Core, cfg: Settings, t: Tick)
    requires Paced(c.dc, c.req.session)
    ensures var d := WhenOpen(c, cfg, t); Paced(d.dc, d.req.session) && d.dc.pingFrequency == c.dc.pingFrequency
  {
    var c1 := PingTimer(c, t.now);
    PingTimerPaces(c, t.now);
    hide Pings;
    hide PingTimer;
    hide CheckRequestQueue;
    hide CheckStaleOrders;
    var c2 := CheckRequestQueue(c1, cfg, t.openScan);
    SilentQueue(c1, cfg, t.openScan);
    SilentStaleOrders(c2, cfg, t.origin, t.periodicScan);
  }

  lemma SilentSimulate(c: Core, now: int)
    ensures Silent(c, Simulate(c, now))
  {
    hide Pings;
    SilentRefresh(c.(dc := c.dc.(nextSimulated := 0)));
    hide RequestPrivateToken;
  }

  /** What a refreshed timer does before it looks at the token. */
  function BeforeToken(c: Core, cfg: Settings, t: Tick, open: bool): Core {
    if open then WhenOpen(c, cfg, t)
    else if c.dc.logonTimeout != 0 && c.dc.logonTimeout < t.now then c.(req := c.req.Log(Closed))
    else c
  }

  lemma SilentAfter(c: Core, cfg: Settings, t: Tick, open: bool)
    requires t.refreshed
    ensures Silent(BeforeToken(c, cfg, t, open), OnTimer(c, cfg, t, open))
  {
    hide Pings;
    hide Simulate;
    hide WhenOpen;
    var c1 := BeforeToken(c, cfg, t, open);
    SilentSimulate(c1.(req := c1.req.Consume(PRIVATE_TOKEN)), t.now);
  }

  lemma TimerPaces(c: Core, cfg: Settings, t: Tick, open: bool)
    requires open ==> Paced(c.dc, c.req.session)
    ensures var d := OnTimer(c, cfg, t, open);
            && (if open then Paced(d.dc, d.req.session) else Silent(c, d))
            && d.dc.pingFrequency == c.dc.pingFrequency
  {
    SilentLog(c.req, Closed);
    hide Pings;
    if t.refreshed {
      SilentAfter(c, cfg, t, open);
      if open {
        WhenOpenPaces(c, cfg, t);
      }
      hide OnTimer;
      hide WhenOpen;
    }
  }

  predicate PingInv(w: World) {
    && (!w.created ==> Pings(w.req.session) == [] && w.dc == NewDrop("", 0))
    && (w.created ==> w.dc.pingFrequency > 0)
    && Pings(w.req.session) == Ping.PingsOf(w.dc.ticks, w.dc.pingFrequency)
    && w.dc.nextPing == if w.link == DOWN then 0 else Ping.Scheduled(Pings(w.req.session), w.dc.pingFrequency)
  }

  /** Events that send no ping and neither connect nor disconnect. */
  lemma SilentKeeps(w: World, v: World)
    requires PingInv(w) && Silent(DropSide(w), DropSide(v))
    requires v.created == w.created && (!w.created ==> v.dc == w.dc) && (v.link == DOWN <==> w.link == DOWN)
    ensures PingInv(v)
  {
  }

  lemma ConnectPings(w: World, cfg: Settings, e: Event)
    requires PingInv(w) && Shape(w) && Enabled(w, e) && (e.DropConnected? || e.DropDisconnected? || e.DropReady?)
    ensures PingInv(Step(w, cfg, e))
  {
    match e
    case DropConnected(_) =>
      assert Pings([]) == [];
    case DropReady =>
      SilentLog(w.req, Published(LOGIN_SENT));
      hide Pings;
    case DropDisconnected =>
      SilentLog(w.req, Published(DISCONNECTED));
      hide Pings;
  }

  lemma SessionPings(w: World, cfg: Settings, e: Event)
    requires PingInv(w) && Shape(w) && Enabled(w, e) && (e.DropWelcome? || e.DropAck? || e.DropError?)
    ensures PingInv(Step(w, cfg, e))
  {
    hide Pings;
    hide Enter;
    hide Check;
    hide RequestPrivateToken;
    var c := DropSide(w);
    match e
    case DropWelcome =>
      SilentLog(c.req, Welcomed);
      SilentEnter(c.(dc := c.dc.(welcome := true), req := c.req.Log(Welcomed)), cfg, SUBSCRIBE_BALANCES);
    case DropAck(id) =>
      if id.Some? {
        SilentLog(c.req, Acked(id.value));
        SilentCheck(c.(req := c.req.Log(Acked(id.value))), cfg, id.value);
      }
    case DropError(_) =>
      SilentRefresh(c);
    SilentKeeps(w, Step(w, cfg, e));
  }

  lemma DropPingStep(w: World, cfg: Settings, e: Event)
    requires PingInv(w) && Shape(w) && Enabled(w, e) && OfDrop(e)
    ensures PingInv(Step(w, cfg, e))
  {
    if e.DropTimer? {
      hide OnTimer;
      hide Pings;
      TimerPaces(DropSide(w), cfg, e.tick, w.link == OPEN);
    } else if e.DropConnected? || e.DropDisconnected? || e.DropReady? {
      hide Step;
      ConnectPings(w, cfg, e);
    } else {
      hide Step;
      SessionPings(w, cfg, e);
    }
  }

  lemma SlotSilent(r: RestCore, n: Name, reply: Reply<()>)
    ensures Pings(OnSlotReply(r, n, reply).req.session) == Pings(r.req.session)
  {
    SilentLog(r.req.Put(n, r.req.Get(n).Commit()), Committed(n));
  }

  lemma OrderSilent(r: RestCore, k: Key, reply: Reply<OrderBody>)
    ensures Pings(OnOrderReply(r, k, reply).req.session) == Pings(r.req.session)
  {
    SilentLog(r.req.Put(STALE_ORDERS, r.req.staleOrders.Commit()), Committed(STALE_ORDERS));
  }

  lemma RestPingStep(w: World, cfg: Settings, e: Event)
    requires PingInv(w) && Shape(w) && Enabled(w, e) && !OfDrop(e)
    ensures PingInv(Step(w, cfg, e))
  {
    hide OnSlotReply;
    hide OnOrderReply;
    hide OnTokenReply;
    hide RestOnTimer;
    hide Deliver;
    hide Pings;
    var v := Step(w, cfg, e);
    if e.RestConnected? || e.RestDisconnected? || e.RestRetry? || e.LostReply? || e.LostCall? {
      SilentKeeps(w, v);
    }
    match e
    case RestTimer(refreshed, allowed, known) =>
      RestTimerServes(RestSide(w), refreshed, allowed, known);
      SilentKeeps(w, v);
    case TokenReply(reply) =>
      TokenSilent(w, reply);
    case SlotReply(n, reply) =>
      SlotSilent(RestSide(w), n, reply);
      SilentKeeps(w, v);
    case OrderReply(k, reply) =>
      OrderSilent(RestSide(w), k, reply);
      SilentKeeps(w, v);
    case _ =>
  }

  lemma TokenSilent(w: World, reply: Reply<Token>)
    requires PingInv(w) && Shape(w) && w.fault.None?
    ensures var v := Deliver(w, Delivered(reply));
            PingInv(WithRest(v, OnTokenReply(RestSide(v), reply)))
  {
    var t := Delivered(reply);
    var v := Deliver(w, t);
    DeliverKeeps(w, t);
    SilentLog(v.req.Put(PRIVATE_TOKEN, v.req.privateToken.Commit()), Committed(PRIVATE_TOKEN));
    hide Deliver;
    hide Delivered;
    SilentKeeps(v, WithRest(v, OnTokenReply(RestSide(v), reply)));
  }

  lemma DeliverKeeps(w: World, t: Option<Token>)
    requires t.Some? ==> Usable(t.value)
    requires PingInv(w) && Shape(w) && w.fault.None?
    ensures PingInv(Deliver(w, t))
  {
    SilentLog(w.req, Resumed);
    if w.created {
      SilentKeeps(w, Deliver(w, t));
    }
  }

  lemma {:induction false} PingRunFrom(w: World, cfg: Settings, es: seq<Event>)
    requires PingInv(w) && Shape(w) && Admissible(w, cfg, es)
    ensures PingInv(Exec(w, cfg, es))
    decreases |es|
  {
    hide PingInv;
    hide Shape;
    hide Step;
    hide Enabled;
    if es != [] {
      if OfDrop(es[0]) {
        DropPingStep(w, cfg, es[0]);
      } else {
        RestPingStep(w, cfg, es[0]);
      }
      ShapeStep(w, cfg, es[0]);
      PingRunFrom(Step(w, cfg, es[0]), cfg, es[1..]);
    }
  }

  /** In every run, the drop copy pings in its session as the ticks it has recorded ask for. */
  lemma PingsFollowTicks(cfg: Settings, es: seq<Event>)
    requires Admissible(INIT, cfg, es)
    ensures var w := Exec(INIT, cfg, es);
            && Pings(w.req.session) == Ping.PingsOf(w.dc.ticks, w.dc.pingFrequency)
            && Ping.Punctual(w.dc.ticks, Pings(w.req.session), w.dc.pingFrequency)
            && (w.created ==> w.dc.pingFrequency > 0)
  {
    PingRunFrom(INIT, cfg, es);
    var w := Exec(INIT, cfg, es);
    Ping.PingsArePunctual(w.dc.ticks, w.dc.pingFrequency);
  }
}
