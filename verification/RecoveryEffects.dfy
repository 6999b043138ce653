/**
 What each event of the drop copy does, in terms of the worlds before and after it, for every state
 that a run reaches.
 */
module RecoveryEffects {
  import opened Wrappers
  import opened LimitRequest
  import opened Recovery
  import opened RecoveryShape

  /** A tick of the timer that finds the connection open. */
  predicate OpenTick(w: World, t: Tick) {
    w.fault.None? && w.created && w.link == OPEN && t.refreshed
  }

  // --- what the handlers leave alone ---

  /** The download moves its own state only, and asks for other slots than the token. */
  predicate DownloadOnly(c: Core, d: Core) {
    && d.dc == c.dc.(stage := d.dc.stage, status := d.dc.status, waiting := d.dc.waiting, ready := d.dc.ready)
    && d.req.privateToken == c.req.privateToken
  }

  lemma EnterOnly(c: Core, cfg: Settings, stage: Stage)
    requires stage != UNDEFINED
    ensures DownloadOnly(c, Enter(c, cfg, stage)) && Enter(c, cfg, stage).fault == c.fault
    ensures Enter(c, cfg, stage).req.stale == c.req.stale
    decreases Rank(DONE) - Rank(stage)
  {
  }

  lemma CheckOnly(c: Core, cfg: Settings, s: Stage)
    ensures DownloadOnly(c, Check(c, cfg, s)) && Check(c, cfg, s).fault == c.fault
    ensures Check(c, cfg, s).req.stale == c.req.stale
  {
    hide Enter;
    if s != DONE {
      EnterOnly(c.(dc := c.dc.(waiting := 0)), cfg, Next(s));
    }
  }

  lemma QueueOnly(c: Core, cfg: Settings, scan: seq<Key>)
    ensures DownloadOnly(c, CheckRequestQueue(c, cfg, scan))
  {
    hide Check;
    if IsGet(c.dc.stage) {
      var d := c.(req := c.req.Consume(SlotOf(c.dc.stage)));
      CheckOnly(d, cfg, c.dc.stage);
      CheckOnly(d.(req := d.req.Queue(Keys(scan))), cfg, c.dc.stage);
    }
  }

  lemma SimulateOnly(c: Core, now: int)
    ensures var d := Simulate(c, now);
            && d.dc == c.dc.(nextSimulated := d.dc.nextSimulated, query := d.dc.query, tokens := d.dc.tokens)
            && d.req == c.req.(privateToken := d.req.privateToken, session := d.req.session)
            && d.fault == c.fault
  {
  }

  /** What comes after `WhenOpen` in a tick concerns the token only. */
  lemma AfterOpen(c: Core, cfg: Settings, t: Tick)
    requires t.refreshed
    ensures var d, o := OnTimer(c, cfg, t, true), WhenOpen(c, cfg, t);
            && d.fault == o.fault
            && d.dc == o.dc.(nextSimulated := d.dc.nextSimulated, query := d.dc.query, tokens := d.dc.tokens)
            && d.req == o.req.(privateToken := d.req.privateToken, session := d.req.session)
  {
    hide WhenOpen;
    var o := WhenOpen(c, cfg, t);
    SimulateOnly(o.(req := o.req.Consume(PRIVATE_TOKEN)), t.now);
    hide Simulate;
  }

  // --- the request queue, by stage ---

  /** The stage that is entered after these open orders or stale orders. */
  lemma EnterAfterScan(c: Core, cfg: Settings)
    ensures var d := Enter(c, cfg, GET_STALE_ORDERS);
            && d.fault == c.fault && d.req.stale == c.req.stale && d.req.openOrders == c.req.openOrders
            && d.req.balances == c.req.balances && d.req.positions == c.req.positions
            && (if c.req.stale != {} then d.dc.stage == GET_STALE_ORDERS && d.req.staleOrders == Slot(true, false)
                else d.dc.stage == if cfg.tradesLookback != 0 then GET_TRADES else DONE)
            && (d.dc.stage == GET_TRADES ==> d.req.trades == Slot(true, false))
            && d.dc.status == if d.dc.stage == DONE then READY else DOWNLOADING
  {
    assert Next(GET_STALE_ORDERS) == GET_TRADES && Next(GET_TRADES) == DONE;
  }

  lemma EnterAfterStale(c: Core, cfg: Settings)
    ensures var d := Enter(c, cfg, GET_TRADES);
            && d.fault == c.fault && d.req.staleOrders == c.req.staleOrders && d.req.stale == c.req.stale
            && d.req.balances == c.req.balances && d.req.positions == c.req.positions && d.req.openOrders == c.req.openOrders
            && d.dc.stage == (if cfg.tradesLookback != 0 then GET_TRADES else DONE)
            && (d.dc.stage == GET_TRADES ==> d.req.trades == Slot(true, false))
            && d.dc.status == if d.dc.stage == DONE then READY else DOWNLOADING
  {
    assert Next(GET_TRADES) == DONE;
  }

  /** A stage that waits is where the download stops. */
  lemma EnterWaits(c: Core, cfg: Settings, stage: Stage)
    requires IsSubscribe(stage) || stage == DONE ||
             stage == GET_BALANCES || stage == GET_POSITIONS || stage == GET_OPEN_ORDERS
    ensures var d := Enter(c, cfg, stage);
            && d.fault == c.fault && d.dc.stage == stage && d.req.stale == c.req.stale
            && (forall n: Name :: !IsGet(stage) || n != SlotOf(stage) ==> d.req.Get(n) == c.req.Get(n))
            && (IsGet(stage) ==> d.req.Get(SlotOf(stage)) == Slot(true, false))
            && d.dc.status == if stage == DONE then READY else DOWNLOADING
  {
  }

  lemma NoneKnown(stale: set<Key>, scan: seq<Key>)
    ensures stale + (set k | k in scan) == {} <==> stale == {} && scan == []
  {
    if scan != [] {
      assert scan[0] in stale + set k | k in scan;
    }
    if stale != {} {
      var k :| k in stale;
      assert k in stale + set k | k in scan;
    }
  }

  /** Stage `s` has ended, with these stale orders known, and the one that follows is entered. */
  predicate Advanced(s: Stage, stale: set<Key>, cfg: Settings, q: Requests, d: Core)
    requires IsGet(s)
  {
    && (forall n: Name :: n != PRIVATE_TOKEN && n != STALE_ORDERS && n != TRADES && n != SlotOf(s) ==>
          d.req.Get(n) == q.Get(n))
    && d.fault.None?
    && d.dc.stage == (if s == GET_BALANCES then SUBSCRIBE_POSITIONS
                      else if s == GET_POSITIONS then SUBSCRIBE_ORDERS
                      else if s == GET_OPEN_ORDERS && stale != {} then GET_STALE_ORDERS
                      else if s != GET_TRADES && cfg.tradesLookback != 0 then GET_TRADES
                      else DONE)
    && !d.req.Get(SlotOf(s)).response
    && (d.dc.stage != DONE ==> d.req.stale == stale)
    && (d.dc.stage == GET_STALE_ORDERS ==> d.req.staleOrders == Slot(true, false))
    && (d.dc.stage == GET_TRADES ==> d.req.trades == Slot(true, false))
    && d.dc.status == if d.dc.stage == DONE then READY else DOWNLOADING
  }

  /** The stale orders known after the scan that only the open orders have. */
  function Known(c: Core, scan: seq<Key>): set<Key> {
    if c.dc.stage == GET_OPEN_ORDERS then c.req.stale + set k | k in scan else c.req.stale
  }

  lemma QueueAdvances(c: Core, cfg: Settings, scan: seq<Key>)
    requires IsGet(c.dc.stage) && c.dc.waiting == 1 && c.fault.None? && c.req.Get(SlotOf(c.dc.stage)).response
    requires c.dc.stage == GET_STALE_ORDERS ==> c.req.stale == {}
    ensures Advanced(c.dc.stage, Known(c, scan), cfg, c.req, CheckRequestQueue(c, cfg, scan))
  {
    hide Enter;
    var s := c.dc.stage;
    var q := c.req.Consume(SlotOf(s));
    PutKeeps(c.req, SlotOf(s), c.req.Get(SlotOf(s)).Consume());
    if s == GET_OPEN_ORDERS {
      EnterAfterScan(c.(dc := c.dc.(waiting := 0), req := q.Queue(Keys(scan))), cfg);
    } else if s == GET_STALE_ORDERS {
      EnterAfterStale(c.(dc := c.dc.(waiting := 0), req := q), cfg);
    } else {
      EnterWaits(c.(dc := c.dc.(waiting := 0), req := q), cfg, Next(s));
    }
  }

  /** What the request queue finds and what it fails on, in any stage. */
  lemma QueueFinds(c: Core, cfg: Settings, scan: seq<Key>)
    requires c.fault.None?
    ensures var d := CheckRequestQueue(c, cfg, scan);
            var scans := c.dc.stage == GET_OPEN_ORDERS && c.req.openOrders.response;
            && (d.fault.Some? <==> c.dc.stage == GET_STALE_ORDERS && c.req.staleOrders.response && c.req.stale != {})
            && (d.fault.Some? ==> d.fault == Some(STALE_NOT_EMPTY))
            && d.req.stale == c.req.stale + if scans then (set k | k in scan) else {}
  {
    hide Check;
    assert c.req.stale + {} == c.req.stale;
    if IsGet(c.dc.stage) {
      var d := c.(req := c.req.Consume(SlotOf(c.dc.stage)));
      CheckOnly(d, cfg, c.dc.stage);
      CheckOnly(d.(req := d.req.Queue(Keys(scan))), cfg, c.dc.stage);
    }
  }

  // --- ticks ---

  /** Periodic scans come after the request queue, and in READY only. */
  lemma ScanOnly(c: Core, cfg: Settings, origin: int, scan: seq<Key>)
    ensures var d := CheckStaleOrders(c, cfg, origin, scan);
            && d.fault == c.fault && d.dc == c.dc.(nextStaleCheck := d.dc.nextStaleCheck)
            && (d.req.staleOrders == c.req.staleOrders || d.req.staleOrders == Slot(true, false))
            && d.req == c.req.(stale := d.req.stale, queued := d.req.queued,
                               staleOrders := d.req.staleOrders, session := d.req.session)
  {
  }

  /** A periodic scan directly after the end of the download. */
  lemma ScanAdvanced(s: Stage, stale: set<Key>, cfg: Settings, q: Requests, c: Core, origin: int, scan: seq<Key>)
    requires IsGet(s) && Advanced(s, stale, cfg, q, c) && c.dc.stage == DONE
    ensures Advanced(s, stale, cfg, q, CheckStaleOrders(c, cfg, origin, scan))
  {
    ScanOnly(c, cfg, origin, scan);
    hide CheckStaleOrders;
  }

  lemma OpenAdvances(c: Core, cfg: Settings, t: Tick)
    requires IsGet(c.dc.stage) && c.dc.waiting == 1 && c.fault.None? && c.req.Get(SlotOf(c.dc.stage)).response
    requires c.dc.stage == GET_STALE_ORDERS ==> c.req.stale == {}
    ensures Advanced(c.dc.stage, Known(c, t.openScan), cfg, c.req, WhenOpen(c, cfg, t))
  {
    var c1 := PingTimer(c, t.now);
    PingTimerFrame(c, t.now);
    hide PingTimer;
    QueueAdvances(c1, cfg, t.openScan);
    hide CheckRequestQueue;
    hide CheckStaleOrders;
    var c2 := CheckRequestQueue(c1, cfg, t.openScan);
    if c2.dc.status == READY {
      ScanAdvanced(c.dc.stage, Known(c, t.openScan), cfg, c.req, c2, t.origin, t.periodicScan);
    }
  }

  lemma TickAdvanced(c: Core, cfg: Settings, t: Tick)
    requires IsGet(c.dc.stage) && c.dc.waiting == 1 && c.fault.None? && c.req.Get(SlotOf(c.dc.stage)).response
    requires c.dc.stage == GET_STALE_ORDERS ==> c.req.stale == {}
    requires t.refreshed
    ensures Advanced(c.dc.stage, Known(c, t.openScan), cfg, c.req, OnTimer(c, cfg, t, true))
  {
    OpenAdvances(c, cfg, t);
    AfterOpen(c, cfg, t);
    hide OnTimer;
    hide WhenOpen;
    hide Known;
  }

  /** Without a response, and in the stages that wait for an acknowledgement, nothing moves. */
  lemma OpenWaits(c: Core, cfg: Settings, t: Tick)
    requires c.fault.None? && c.dc.status != READY
    requires IsGet(c.dc.stage) ==> !c.req.Get(SlotOf(c.dc.stage)).response
    ensures WhenOpen(c, cfg, t) == PingTimer(c, t.now)
  {
    PingTimerFrame(c, t.now);
    hide PingTimer;
  }

  lemma OpenFails(c: Core, cfg: Settings, t: Tick)
    requires c.fault.None? && c.dc.stage == GET_STALE_ORDERS && c.req.staleOrders.response && c.req.stale != {}
    ensures WhenOpen(c, cfg, t).fault == Some(STALE_NOT_EMPTY)
  {
    PingTimerFrame(c, t.now);
    hide PingTimer;
    hide Check;
    hide CheckStaleOrders;
  }

  // --- main results: the download ---

  /**
   In every run, a tick that sees the response of its stage ends the stage and enters, with a new
   request, the one that follows: positions after balances, orders after positions, the stale
   orders after the open orders if any is known, the trades if there is a lookback, and the end.
   The response is consumed; the other slots up to the open orders are as before. The one exception
   is a stale-orders response that finds stale orders.
   */
  lemma TickAdvances(cfg: Settings, es: seq<Event>, t: Tick)
    requires Admissible(INIT, cfg, es)
    ensures var w := Exec(INIT, cfg, es);
            var s := w.dc.stage;
            OpenTick(w, t) && IsGet(s) && w.req.Get(SlotOf(s)).response ==>
              var v := Step(w, cfg, DropTimer(t));
              if s == GET_STALE_ORDERS && w.req.stale != {} then v.fault == Some(STALE_NOT_EMPTY)
              else
                && v.fault.None? && !v.req.Get(SlotOf(s)).response
                && v.dc.stage == (if s == GET_BALANCES then SUBSCRIBE_POSITIONS
                                  else if s == GET_POSITIONS then SUBSCRIBE_ORDERS
                                  else if s == GET_OPEN_ORDERS && (w.req.stale != {} || t.openScan != [])
                                  then GET_STALE_ORDERS
                                  else if s != GET_TRADES && cfg.tradesLookback != 0 then GET_TRADES
                                  else DONE)
                && (v.dc.stage == GET_TRADES ==> v.req.trades == Slot(true, false))
                && (forall n: Name :: n != PRIVATE_TOKEN && n != STALE_ORDERS && n != TRADES && n != SlotOf(s) ==>
                      v.req.Get(n) == w.req.Get(n))
                && v.dc.status == if v.dc.stage == DONE then READY else DOWNLOADING
  {
    hide OnTimer;
    hide WhenOpen;
    var w := Exec(INIT, cfg, es);
    ShapeRunFrom(INIT, cfg, es);
    var s := w.dc.stage;
    if OpenTick(w, t) && IsGet(s) && w.req.Get(SlotOf(s)).response {
      if s == GET_STALE_ORDERS && w.req.stale != {} {
        AfterOpen(DropSide(w), cfg, t);
        OpenFails(DropSide(w), cfg, t);
      } else {
        TickAdvanced(DropSide(w), cfg, t);
        NoneKnown(w.req.stale, t.openScan);
      }
    }
  }

  /**
   In every run, the tick that sees the response to the open orders queues every order that the
   dispatcher reports as stale, and the session then waits for an answer to a request for all
   queued orders, unless there is none.
   */
  lemma OpenOrdersAreScanned(cfg: Settings, es: seq<Event>, t: Tick)
    requires Admissible(INIT, cfg, es)
    ensures var w := Exec(INIT, cfg, es);
            OpenTick(w, t) && w.dc.stage == GET_OPEN_ORDERS && w.req.openOrders.response ==>
              var v := Step(w, cfg, DropTimer(t));
              var union := w.req.stale + set k | k in t.openScan;
              if union != {} then
                v.dc.stage == GET_STALE_ORDERS && v.req.stale == union && v.req.staleOrders == Slot(true, false)
              else v.dc.stage == GET_TRADES || v.dc.stage == DONE
  {
    hide OnTimer;
    hide WhenOpen;
    var w := Exec(INIT, cfg, es);
    ShapeRunFrom(INIT, cfg, es);
    if OpenTick(w, t) && w.dc.stage == GET_OPEN_ORDERS && w.req.openOrders.response {
      TickAdvanced(DropSide(w), cfg, t);
    }
  }

  /**
   In every run, a tick without the response of its stage, or in a stage that waits for an
   acknowledgement, leaves stage, status, the other five slots and the stale orders alone.
   */
  lemma TickWaits(cfg: Settings, es: seq<Event>, t: Tick)
    requires Admissible(INIT, cfg, es)
    ensures var w := Exec(INIT, cfg, es);
            var s := w.dc.stage;
            OpenTick(w, t) && s != DONE && (IsGet(s) ==> !w.req.Get(SlotOf(s)).response) ==>
              var v := Step(w, cfg, DropTimer(t));
              && v.fault.None? && v.dc.stage == s && v.dc.status == w.dc.status && v.req.stale == w.req.stale
              && forall n: Name :: n != PRIVATE_TOKEN ==> v.req.Get(n) == w.req.Get(n)
  {
    hide OnTimer;
    hide WhenOpen;
    var w := Exec(INIT, cfg, es);
    ShapeRunFrom(INIT, cfg, es);
    var s := w.dc.stage;
    if OpenTick(w, t) && s != DONE && (IsGet(s) ==> !w.req.Get(SlotOf(s)).response) {
      AfterOpen(DropSide(w), cfg, t);
      OpenWaits(DropSide(w), cfg, t);
      PingTimerFrame(DropSide(w), t.now);
      hide PingTimer;
    }
  }

  lemma AckEnters(c: Core, cfg: Settings, s: Stage)
    requires IsSubscribe(s)
    ensures var d := Check(c, cfg, s);
            && d.fault == c.fault && d.req.stale == c.req.stale
            && (if c.dc.stage == s && c.dc.waiting == 1 then
                  var g := if s == SUBSCRIBE_BALANCES then GET_BALANCES
                           else if s == SUBSCRIBE_POSITIONS then GET_POSITIONS
                           else GET_OPEN_ORDERS;
                  && d.dc.stage == g && d.req.Get(SlotOf(g)) == Slot(true, false)
                  && (forall n: Name :: n != SlotOf(g) ==> d.req.Get(n) == c.req.Get(n))
                else if c.dc.stage != s then d == c
                else true)
  {
    hide Enter;
    EnterWaits(c.(dc := c.dc.(waiting := 0)), cfg, Next(s));
  }

  /**
   In every run, the acknowledgement of the subscription that the session waits for makes it ask
   for what it subscribed to; any other acknowledgement changes neither stage nor slots.
   */
  lemma AckAsks(cfg: Settings, es: seq<Event>, id: Option<Stage>)
    requires Admissible(INIT, cfg, es)
    ensures var w := Exec(INIT, cfg, es);
            Enabled(w, DropAck(id)) ==>
              var v := Step(w, cfg, DropAck(id));
              && v.fault.None? && v.req.stale == w.req.stale
              && (if id == Some(w.dc.stage) then
                    var n := if w.dc.stage == SUBSCRIBE_BALANCES then BALANCES
                             else if w.dc.stage == SUBSCRIBE_POSITIONS then POSITIONS
                             else OPEN_ORDERS;
                    && v.dc.stage == (if n == BALANCES then GET_BALANCES
                                      else if n == POSITIONS then GET_POSITIONS
                                      else GET_OPEN_ORDERS)
                    && v.req.Get(n) == Slot(true, false)
                    && (forall m: Name :: m != n ==> v.req.Get(m) == w.req.Get(m))
                  else v.dc == w.dc && forall m: Name :: v.req.Get(m) == w.req.Get(m))
  {
    hide Check;
    var w := Exec(INIT, cfg, es);
    ShapeRunFrom(INIT, cfg, es);
    if Enabled(w, DropAck(id)) && id.Some? {
      AckEnters(Core(w.dc, w.req.Log(Acked(id.value)), None), cfg, id.value);
    }
  }
}
