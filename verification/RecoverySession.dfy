/**
 What begins and ends a session of the drop copy, what its errors and timers ask for, and that the
 status it has published last is its status.
 */
module RecoverySession {
  import opened Wrappers
  import opened LimitRequest
  import opened Recovery
  import opened RecoveryEffects
  import opened RecoveryShape

  // --- the events of a session ---

  /** A new connection starts a new history and the logon timeout, and nothing else. */
  lemma ConnectStarts(w: World, cfg: Settings, origin: nat)
    requires Enabled(w, DropConnected(origin))
    ensures var v := Step(w, cfg, DropConnected(origin));
            && v.link == CONNECTED && v.fault.None? && v.rest == w.rest && v.req == w.req.(session := [])
            && v.dc.ticks == [] && v.dc.logonTimeout == origin + cfg.requestTimeout
            && v.dc.nextSimulated ==
               (if cfg.simulateExpiredToken > 0 then origin + cfg.simulateExpiredToken else w.dc.nextSimulated)
            && v.dc == w.dc.(ticks := [], logonTimeout := v.dc.logonTimeout, nextSimulated := v.dc.nextSimulated)
  {
  }

  /** A welcome subscribes to the balances; slots and stale orders are as before. */
  lemma WelcomeSubscribes(w: World, cfg: Settings)
    requires Enabled(w, DropWelcome)
    ensures var v := Step(w, cfg, DropWelcome);
            && v.fault.None? && v.rest == w.rest
            && v.dc == w.dc.(welcome := true, stage := SUBSCRIBE_BALANCES, status := DOWNLOADING, waiting := 1)
            && v.req.session == w.req.session + [Welcomed] + [Published(DOWNLOADING)] + [Subscribed(SUBSCRIBE_BALANCES)]
            && v.req == w.req.(session := v.req.session)
  {
  }

  /** A disconnect resets the session; requests, stale orders and token outlive it. */
  lemma DisconnectResets(w: World, cfg: Settings)
    requires Enabled(w, DropDisconnected)
    ensures var v := Step(w, cfg, DropDisconnected);
            && v.link == DOWN && v.fault.None? && v.rest == w.rest
            && v.req == w.req.(session := w.req.session + [Published(DISCONNECTED)])
            && !v.dc.welcome && !v.dc.ready && v.dc.stage == UNDEFINED && v.dc.status == DISCONNECTED
            && v.dc.logonTimeout == v.dc.nextPing == 0
            && v.dc.query == w.dc.query && v.dc.tokens == w.dc.tokens
            && v.dc.nextStaleCheck == w.dc.nextStaleCheck && v.dc.nextSimulated == w.dc.nextSimulated
  {
  }

  /**
   An error asks for a new token if and only if it is the expired token, the setting does not crash
   and no refresh is outstanding; otherwise it changes nothing.
   */
  lemma ErrorRefreshesIff(w: World, cfg: Settings, expired: bool)
    requires Enabled(w, DropError(expired))
    ensures var v := Step(w, cfg, DropError(expired));
            && (if expired && cfg.crashOnExpiredToken then v.fault == Some(EXPIRED_TOKEN) else v.fault.None?)
            && (if expired && !cfg.crashOnExpiredToken && w.dc.query != "" then
                  && v.dc == w.dc.(query := "", tokens := w.dc.tokens + [Refreshed])
                  && v.req == w.req.(privateToken := Slot(true, false),
                                     session := w.req.session + [Suspended] + [Requested(PRIVATE_TOKEN)])
                else v.dc == w.dc && v.req == w.req)
  {
  }

  // --- the timer ---

  /** The simulated expiry is due. */
  predicate Expires(w: World, t: Tick) {
    t.refreshed && 0 != w.dc.nextSimulated < t.now
  }

  lemma OpenTokenOnly(c: Core, cfg: Settings, t: Tick)
    ensures var d := WhenOpen(c, cfg, t);
            && d.dc.query == c.dc.query && d.dc.tokens == c.dc.tokens && d.req.privateToken == c.req.privateToken
            && d.dc.logonTimeout == c.dc.logonTimeout && d.dc.nextSimulated == c.dc.nextSimulated
            && d.dc.pingFrequency == c.dc.pingFrequency && d.dc.welcome == c.dc.welcome
            && d.dc.ticks == if c.dc.welcome then c.dc.ticks + [t.now] else c.dc.ticks
  {
    var c1 := PingTimer(c, t.now);
    PingTimerFrame(c, t.now);
    assert c1.dc.ticks == if c.dc.welcome then c.dc.ticks + [t.now] else c.dc.ticks;
    hide PingTimer;
    QueueOnly(c1, cfg, t.openScan);
    hide CheckRequestQueue;
    ScanOnly(CheckRequestQueue(c1, cfg, t.openScan), cfg, t.origin, t.periodicScan);
    hide CheckStaleOrders;
  }

  /** What a tick does to the token, the schedules and the history of ready ticks. */
  lemma TickSchedules(w: World, cfg: Settings, t: Tick)
    requires Enabled(w, DropTimer(t))
    ensures var v := Step(w, cfg, DropTimer(t));
            && v.dc.ticks ==
               (if t.refreshed && w.link == OPEN && w.dc.welcome then w.dc.ticks + [t.now] else w.dc.ticks)
            && v.dc.logonTimeout == w.dc.logonTimeout && v.dc.pingFrequency == w.dc.pingFrequency
            && v.dc.welcome == w.dc.welcome && v.link == w.link && v.created == w.created && v.rest == w.rest
  {
    var c := DropSide(w);
    OpenTokenOnly(c, cfg, t);
    hide WhenOpen;
    if t.refreshed {
      AfterOpen(c, cfg, t);
      var closed := c.(req := c.req.Log(Closed));
      SimulateOnly(closed.(req := closed.req.Consume(PRIVATE_TOKEN)), t.now);
      SimulateOnly(c.(req := c.req.Consume(PRIVATE_TOKEN)), t.now);
    }
    hide Simulate;
  }

  lemma TickQuery(w: World, cfg: Settings, t: Tick)
    requires Enabled(w, DropTimer(t))
    ensures var v := Step(w, cfg, DropTimer(t)); v.dc.query == w.dc.query || v.dc.query == ""
  {
    hide WhenOpen;
    OpenTokenOnly(DropSide(w), cfg, t);
  }

  /**
   A tick asks for a new token if and only if a simulated expiry is due and no refresh is
   outstanding; it fires once, and consumes a response for the token.
   */
  lemma TickRefreshesIff(w: World, cfg: Settings, t: Tick)
    requires Enabled(w, DropTimer(t)) && Step(w, cfg, DropTimer(t)).fault.None?
    ensures var v := Step(w, cfg, DropTimer(t));
            && v.dc.nextSimulated == (if Expires(w, t) then 0 else w.dc.nextSimulated)
            && (if Expires(w, t) && w.dc.query != "" then
                  v.dc.query == "" && v.dc.tokens == w.dc.tokens + [Refreshed] && v.req.privateToken == Slot(true, false)
                else
                  && v.dc.query == w.dc.query && v.dc.tokens == w.dc.tokens
                  && v.req.privateToken.wanted == w.req.privateToken.wanted
                  && v.req.privateToken.response == (w.req.privateToken.response && !t.refreshed))
  {
    hide WhenOpen;
    OpenTokenOnly(DropSide(w), cfg, t);
  }

  /** A tick that finds the connection not open closes it exactly after the logon timeout. */
  lemma ClosesIff(w: World, cfg: Settings, t: Tick)
    requires Enabled(w, DropTimer(t)) && w.link != OPEN
    ensures var v := Step(w, cfg, DropTimer(t));
            var closes := t.refreshed && 0 != w.dc.logonTimeout < t.now;
            && v.fault.None? && v.dc.stage == w.dc.stage && v.dc.status == w.dc.status && v.req.stale == w.req.stale
            && v.req.session == w.req.session + (if closes then [Closed] else []) +
               (if Expires(w, t) && w.dc.query != "" then [Suspended, Requested(PRIVATE_TOKEN)] else [])
  {
  }

  /** Refresh requests come from the expired-token error and a due simulated expiry only. */
  lemma OthersDoNotRefresh(w: World, cfg: Settings, e: Event)
    requires Enabled(w, e) && w.created && !e.DropTimer? && !e.DropError? && !e.TokenReply?
    ensures var v := Step(w, cfg, e); v.dc.query == w.dc.query && v.dc.tokens == w.dc.tokens
  {
    hide RestOnTimer;
    match e
    case DropAck(id) =>
      hide Check;
      if id.Some? {
        CheckOnly(Core(w.dc, w.req.Log(Acked(id.value)), None), cfg, id.value);
      }
    case _ =>
  }

  /** The events at which a refresh is requested. */
  predicate Refreshes(w: World, cfg: Settings, e: Event) {
    && w.dc.query != ""
    && match e
       case DropError(expired) => expired && !cfg.crashOnExpiredToken
       case DropTimer(t) => Expires(w, t)
       case _ => false
  }

  /** Whatever the event: it requests a refresh if and only if it is one of these. */
  lemma RefreshesIff(w: World, cfg: Settings, e: Event)
    requires Enabled(w, e) && w.created && Step(w, cfg, e).fault.None?
    ensures Step(w, cfg, e).dc.tokens == w.dc.tokens + [Refreshed] <==> Refreshes(w, cfg, e)
    ensures Refreshes(w, cfg, e) ==> Step(w, cfg, e).dc.query == "" && Step(w, cfg, e).req.privateToken == Slot(true, false)
  {
    hide OnTimer;
    match e
    case DropTimer(t) => TickRefreshesIff(w, cfg, t);
    case DropError(expired) => ErrorRefreshesIff(w, cfg, expired);
    case TokenReply(_) =>
      hide Delivered;
      assert |Step(w, cfg, e).dc.tokens| != |w.dc.tokens| + 1;
    case _ => OthersDoNotRefresh(w, cfg, e);
  }

  // --- what is published ---

  /** The status that a session has published last. */
  function Latest(session: seq<Entry>): Option<Status> {
    if session == [] then None
    else
      var last := session[|session| - 1];
      if last.Published? then Some(last.status) else Latest(session[..|session| - 1])
  }

  /** A change of status is published, and nothing else is. */
  predicate Tells(c: Core, d: Core) {
    if Latest(c.req.session) == Some(c.dc.status) then Latest(d.req.session) == Some(d.dc.status) else true
  }

  lemma LatestOfLog(q: Requests, e: Entry)
    ensures Latest(q.Log(e).session) == if e.Published? then Some(e.status) else Latest(q.session)
  {
    assert (q.session + [e])[..|q.session|] == q.session;
  }

  lemma LatestOfAsk(q: Requests, n: Name)
    ensures Latest(q.Ask(n).session) == Latest(q.session)
  {
    LatestOfLog(q.Put(n, q.Get(n).Request()), Requested(n));
  }

  lemma CallbackTells(c: Core, cfg: Settings, s: Stage)
    requires s != UNDEFINED
    ensures Tells(c, Callback(c, cfg, s).0)
  {
    hide Latest;
    var q := c.req;
    LatestOfLog(q, Published(DOWNLOADING));
    LatestOfLog(q, Published(READY));
    LatestOfLog(q.Log(Published(DOWNLOADING)), Subscribed(s));
    LatestOfLog(q, StaleTested(false));
    LatestOfLog(q, StaleTested(true));
    LatestOfLog(q.Log(StaleTested(true)), Published(DOWNLOADING));
    LatestOfAsk(q.Log(StaleTested(true)).Log(Published(DOWNLOADING)), STALE_ORDERS);
    if IsGet(s) {
      LatestOfAsk(q.Log(Published(DOWNLOADING)), SlotOf(s));
    }
  }

  lemma {:induction false} EnterTells(c: Core, cfg: Settings, s: Stage)
    requires s != UNDEFINED
    ensures Tells(c, Enter(c, cfg, s))
    decreases Rank(DONE) - Rank(s)
  {
    hide Callback;
    hide Latest;
    var b := c.(dc := c.dc.(stage := s));
    CallbackTells(b, cfg, s);
    var (d, n) := Callback(b, cfg, s);
    if n == 0 && s != DONE {
      EnterTells(d, cfg, Next(s));
    }
  }

  lemma CheckTells(c: Core, cfg: Settings, s: Stage)
    ensures Tells(c, Check(c, cfg, s))
  {
    hide Enter;
    hide Latest;
    if c.dc.stage == s && s != DONE {
      EnterTells(c.(dc := c.dc.(waiting := 0)), cfg, Next(s));
    }
  }

  lemma QueueTells(c: Core, cfg: Settings, scan: seq<Key>)
    ensures Tells(c, CheckRequestQueue(c, cfg, scan))
  {
    hide Check;
    hide Latest;
    if IsGet(c.dc.stage) {
      var d := c.(req := c.req.Consume(SlotOf(c.dc.stage)));
      CheckTells(d, cfg, c.dc.stage);
      CheckTells(d.(req := d.req.Queue(Keys(scan))), cfg, c.dc.stage);
    }
  }

  lemma ScanTells(c: Core, cfg: Settings, origin: int, scan: seq<Key>)
    ensures Tells(c, CheckStaleOrders(c, cfg, origin, scan))
  {
    LatestOfAsk(c.req.Queue(Keys(scan)), STALE_ORDERS);
    hide Latest;
  }

  lemma RefreshTells(c: Core)
    ensures Tells(c, RequestPrivateToken(c))
  {
    LatestOfLog(c.req, Suspended);
    LatestOfAsk(c.req.Log(Suspended), PRIVATE_TOKEN);
    hide Latest;
  }

  lemma OpenTells(c: Core, cfg: Settings, t: Tick)
    ensures Tells(c, WhenOpen(c, cfg, t))
  {
    var c1 := PingTimer(c, t.now);
    LatestOfLog(c.req, PingSent(t.now));
    PingTimerFrame(c, t.now);
    hide Latest;
    hide PingTimer;
    hide CheckRequestQueue;
    hide CheckStaleOrders;
    QueueTells(c1, cfg, t.openScan);
    ScanTells(CheckRequestQueue(c1, cfg, t.openScan), cfg, t.origin, t.periodicScan);
  }

  lemma TimerTells(c: Core, cfg: Settings, t: Tick, open: bool)
    ensures Tells(c, OnTimer(c, cfg, t, open))
  {
    OpenTells(c, cfg, t);
    LatestOfLog(c.req, Closed);
    hide Latest;
    hide WhenOpen;
    if t.refreshed {
      var c1 := if open then WhenOpen(c, cfg, t)
                else if c.dc.logonTimeout != 0 && c.dc.logonTimeout < t.now then c.(req := c.req.Log(Closed))
                else c;
      var c2 := c1.(req := c1.req.Consume(PRIVATE_TOKEN));
      RefreshTells(c2.(dc := c2.dc.(nextSimulated := 0)));
      hide RequestPrivateToken;
    }
  }

  /** The status of an open connection is the one that its session has published last. */
  predicate Announced(w: World) {
    w.link == OPEN ==> Latest(w.req.session) == Some(w.dc.status)
  }

  lemma DropAnnounces(w: World, cfg: Settings, e: Event)
    requires Announced(w) && Enabled(w, e) && OfDrop(e)
    ensures Announced(Step(w, cfg, e))
  {
    hide OnTimer;
    hide Enter;
    hide Check;
    var c := DropSide(w);
    match e
    case DropTimer(t) => TimerTells(c, cfg, t, w.link == OPEN);
    case DropReady =>
      LatestOfLog(c.req, Published(LOGIN_SENT));
    case DropWelcome =>
      LatestOfLog(c.req, Welcomed);
      EnterTells(c.(dc := c.dc.(welcome := true), req := c.req.Log(Welcomed)), cfg, SUBSCRIBE_BALANCES);
    case DropAck(id) =>
      if id.Some? {
        LatestOfLog(c.req, Acked(id.value));
        CheckTells(c.(req := c.req.Log(Acked(id.value))), cfg, id.value);
      }
    case DropError(_) => RefreshTells(c);
    case _ =>
  }

  lemma TokenAnnounces(w: World, cfg: Settings, reply: Reply<Token>)
    requires Announced(w) && Shape(w) && Enabled(w, TokenReply(reply))
    ensures Announced(Step(w, cfg, TokenReply(reply)))
  {
    hide Latest;
    hide TokenFault;
    hide Delivered;
    var v := Deliver(w, Delivered(reply));
    LatestOfLog(w.req, Resumed);
    LatestOfLog(v.req.Put(PRIVATE_TOKEN, v.req.privateToken.Commit()), Committed(PRIVATE_TOKEN));
  }

  lemma RestAnnounces(w: World, cfg: Settings, e: Event)
    requires Announced(w) && Shape(w) && Enabled(w, e) && !OfDrop(e)
    ensures Announced(Step(w, cfg, e))
  {
    hide Latest;
    hide RestOnTimer;
    hide OnTokenReply;
    hide Deliver;
    hide ProcessResponse;
    match e
    case RestTimer(refreshed, allowed, known) => RestTimerServes(RestSide(w), refreshed, allowed, known);
    case TokenReply(reply) => TokenAnnounces(w, cfg, reply);
    case SlotReply(n, _) => LatestOfLog(w.req.Put(n, w.req.Get(n).Commit()), Committed(n));
    case OrderReply(_, _) => LatestOfLog(w.req.Put(STALE_ORDERS, w.req.staleOrders.Commit()), Committed(STALE_ORDERS));
    case _ =>
  }

  lemma {:induction false} AnnouncedRun(w: World, cfg: Settings, es: seq<Event>)
    requires Announced(w) && Shape(w) && Admissible(w, cfg, es)
    ensures Announced(Exec(w, cfg, es))
    decreases |es|
  {
    hide Announced;
    hide Shape;
    hide Step;
    if es != [] {
      var e := es[0];
      ShapeStep(w, cfg, e);
      if OfDrop(e) {
        DropAnnounces(w, cfg, e);
      } else {
        RestAnnounces(w, cfg, e);
      }
      AnnouncedRun(Step(w, cfg, e), cfg, es[1..]);
    }
  }

  /** The status of an open session says how far it is. */
  predicate Fits(d: Drop) {
    d.status == if !d.welcome then LOGIN_SENT else if d.stage == DONE then READY else DOWNLOADING
  }

  lemma EnterFits(c: Core, cfg: Settings, stage: Stage)
    requires stage != UNDEFINED && c.dc.welcome
    ensures Fits(Enter(c, cfg, stage).dc)
    decreases Rank(DONE) - Rank(stage)
  {
  }

  lemma CheckFits(c: Core, cfg: Settings, s: Stage)
    requires DropShape(c.dc, OPEN) && Fits(c.dc)
    ensures Fits(Check(c, cfg, s).dc)
  {
    hide Enter;
    if c.dc.stage == s && c.dc.waiting == 1 && s != DONE {
      EnterFits(c.(dc := c.dc.(waiting := 0)), cfg, Next(s));
    }
  }

  lemma TimerFits(c: Core, cfg: Settings, t: Tick)
    requires DropShape(c.dc, OPEN) && Fits(c.dc)
    ensures Fits(OnTimer(c, cfg, t, true).dc)
  {
    if t.refreshed {
      var c1 := PingTimer(c, t.now);
      PingTimerFrame(c, t.now);
      AfterOpen(c, cfg, t);
      hide OnTimer;
      hide PingTimer;
      hide Check;
      if IsGet(c.dc.stage) {
        var d := c1.(req := c1.req.Consume(SlotOf(c1.dc.stage)));
        CheckFits(d, cfg, c1.dc.stage);
        CheckFits(d.(req := d.req.Queue(Keys(t.openScan))), cfg, c1.dc.stage);
      }
      var c2 := CheckRequestQueue(c1, cfg, t.openScan);
      assert Fits(c2.dc);
      hide CheckRequestQueue;
      ScanOnly(c2, cfg, t.origin, t.periodicScan);
      hide CheckStaleOrders;
    }
  }

  lemma FitsStep(w: World, cfg: Settings, e: Event)
    requires Shape(w) && (w.link == OPEN ==> Fits(w.dc)) && Enabled(w, e)
    ensures var v := Step(w, cfg, e); v.link == OPEN ==> Fits(v.dc)
  {
    hide OnTimer;
    hide Enter;
    hide Check;
    hide RestOnTimer;
    hide OnTokenReply;
    var c := DropSide(w);
    match e
    case DropTimer(t) =>
      if w.link == OPEN {
        TimerFits(c, cfg, t);
      }
    case DropWelcome =>
      EnterFits(c.(dc := c.dc.(welcome := true), req := c.req.Log(Welcomed)), cfg, SUBSCRIBE_BALANCES);
    case DropAck(id) =>
      if id.Some? {
        CheckFits(c.(req := c.req.Log(Acked(id.value))), cfg, id.value);
      }
    case _ =>
  }

  lemma {:induction false} FitsRun(w: World, cfg: Settings, es: seq<Event>)
    requires Shape(w) && (w.link == OPEN ==> Fits(w.dc)) && Admissible(w, cfg, es)
    ensures var v := Exec(w, cfg, es); v.link == OPEN ==> Fits(v.dc)
    decreases |es|
  {
    hide Shape;
    hide Step;
    hide Fits;
    if es != [] {
      ShapeStep(w, cfg, es[0]);
      FitsStep(w, cfg, es[0]);
      FitsRun(Step(w, cfg, es[0]), cfg, es[1..]);
    }
  }

  /**
   In every run, what a session has published last is LOGIN_SENT before the welcome, DOWNLOADING
   from then on and READY at the end of the download.
   */
  lemma PublishedStatus(cfg: Settings, es: seq<Event>)
    requires Admissible(INIT, cfg, es)
    ensures var w := Exec(INIT, cfg, es);
            w.link == OPEN ==>
              Latest(w.req.session) ==
              Some(if !w.dc.welcome then LOGIN_SENT else if w.dc.stage == DONE then READY else DOWNLOADING)
  {
    AnnouncedRun(INIT, cfg, es);
    FitsRun(INIT, cfg, es);
  }
}
