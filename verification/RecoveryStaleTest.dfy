/**
 The download looks at the queue of stale orders exactly once in a session, when it enters
 GET_STALE_ORDERS.
 */
module RecoveryStaleTest {
  import opened Wrappers
  import opened Recovery
  import opened RecoveryShape

  /** What the looks at the queue found in a session. */
  function Tests(session: seq<Entry>): seq<bool> {
    if session == [] then []
    else
      var last := session[|session| - 1];
      Tests(session[..|session| - 1]) + if last.StaleTested? then [last.nonEmpty] else []
  }

  lemma TestsOfLog(q: Requests, e: Entry)
    ensures Tests(q.Log(e).session) == Tests(q.session) + if e.StaleTested? then [e.nonEmpty] else []
  {
    assert (q.session + [e])[..|q.session|] == q.session;
  }

  /** No look before the stage, one from there on. */
  predicate TestedOnce(stage: Stage, session: seq<Entry>) {
    |Tests(session)| == if Rank(stage) < Rank(GET_STALE_ORDERS) then 0 else 1
  }

  /** Neither stage nor looks have changed. */
  predicate Blind(c: Core, d: Core) {
    d.dc.stage == c.dc.stage && Tests(d.req.session) == Tests(c.req.session)
  }

  lemma BlindLog(q: Requests, e: Entry)
    requires !e.StaleTested?
    ensures Tests(q.Log(e).session) == Tests(q.session)
  {
    TestsOfLog(q, e);
  }

  lemma BlindAsk(q: Requests, n: Name)
    ensures Tests(q.Ask(n).session) == Tests(q.session)
  {
    BlindLog(q.Put(n, q.Get(n).Request()), Requested(n));
  }

  lemma StaleCallbackTests(c: Core, cfg: Settings)
    ensures var d := Callback(c, cfg, GET_STALE_ORDERS).0;
            d.dc.stage == c.dc.stage && |Tests(d.req.session)| == |Tests(c.req.session)| + 1
  {
    hide Tests;
    var q := c.req;
    var found := StaleTested(q.stale != {});
    TestsOfLog(q, found);
    BlindLog(q.Log(found), Published(DOWNLOADING));
    BlindAsk(q.Log(found).Log(Published(DOWNLOADING)), STALE_ORDERS);
    hide Requests.Log;
    hide Requests.Ask;
  }

  lemma CallbackTests(c: Core, cfg: Settings, s: Stage)
    requires s != UNDEFINED && s != GET_STALE_ORDERS
    ensures Blind(c, Callback(c, cfg, s).0)
  {
    hide Tests;
    var q := c.req;
    BlindLog(q, Published(DOWNLOADING));
    BlindLog(q, Published(READY));
    BlindLog(q.Log(Published(DOWNLOADING)), Subscribed(s));
    if IsGet(s) {
      BlindAsk(q.Log(Published(DOWNLOADING)), SlotOf(s));
    }
    hide Requests.Log;
    hide Requests.Ask;
  }

  lemma {:induction false} EnterTests(c: Core, cfg: Settings, s: Stage)
    requires s != UNDEFINED
    requires |Tests(c.req.session)| == if Rank(s) <= Rank(GET_STALE_ORDERS) then 0 else 1
    ensures var d := Enter(c, cfg, s); TestedOnce(d.dc.stage, d.req.session)
    decreases Rank(DONE) - Rank(s)
  {
    hide Callback;
    var b := c.(dc := c.dc.(stage := s));
    if s == GET_STALE_ORDERS {
      StaleCallbackTests(b, cfg);
    } else {
      CallbackTests(b, cfg, s);
    }
    var (d, n) := Callback(b, cfg, s);
    if n == 0 && s != DONE {
      EnterTests(d, cfg, Next(s));
    }
  }

  lemma CheckTests(c: Core, cfg: Settings, s: Stage)
    requires TestedOnce(c.dc.stage, c.req.session)
    ensures var d := Check(c, cfg, s); TestedOnce(d.dc.stage, d.req.session)
  {
    hide Enter;
    if c.dc.stage == s && c.dc.waiting == 1 && s != DONE {
      EnterTests(c.(dc := c.dc.(waiting := 0)), cfg, Next(s));
    }
  }

  lemma QueueTests(c: Core, cfg: Settings, scan: seq<Key>)
    requires TestedOnce(c.dc.stage, c.req.session)
    ensures var d := CheckRequestQueue(c, cfg, scan); TestedOnce(d.dc.stage, d.req.session)
  {
    hide Check;
    if IsGet(c.dc.stage) {
      var d := c.(req := c.req.Consume(SlotOf(c.dc.stage)));
      CheckTests(d.(req := d.req.Queue(Keys(scan))), cfg, c.dc.stage);
      CheckTests(d, cfg, c.dc.stage);
    }
  }

  lemma BlindScan(c: Core, cfg: Settings, origin: int, scan: seq<Key>)
    ensures Blind(c, CheckStaleOrders(c, cfg, origin, scan))
  {
    BlindAsk(c.req.Queue(Keys(scan)), STALE_ORDERS);
    hide Tests;
  }

  lemma BlindRefresh(c: Core)
    ensures Blind(c, RequestPrivateToken(c))
  {
    BlindLog(c.req, Suspended);
    BlindAsk(c.req.Log(Suspended), PRIVATE_TOKEN);
    hide Tests;
  }

  lemma OpenTests(c: Core, cfg: Settings, t: Tick)
    requires TestedOnce(c.dc.stage, c.req.session)
    ensures var d := WhenOpen(c, cfg, t); TestedOnce(d.dc.stage, d.req.session)
  {
    var c1 := PingTimer(c, t.now);
    PingTimerFrame(c, t.now);
    BlindLog(c.req, PingSent(t.now));
    hide PingTimer;
    hide Tests;
    QueueTests(c1, cfg, t.openScan);
    var c2 := CheckRequestQueue(c1, cfg, t.openScan);
    hide CheckRequestQueue;
    BlindScan(c2, cfg, t.origin, t.periodicScan);
    hide CheckStaleOrders;
  }

  lemma BlindSimulate(c: Core, now: int)
    ensures Blind(c, Simulate(c, now))
  {
    hide Tests;
    BlindRefresh(c.(dc := c.dc.(nextSimulated := 0)));
    hide RequestPrivateToken;
  }

  lemma TimerTests(c: Core, cfg: Settings, t: Tick, open: bool)
    requires TestedOnce(c.dc.stage, c.req.session)
    ensures var d := OnTimer(c, cfg, t, open); TestedOnce(d.dc.stage, d.req.session)
  {
    BlindLog(c.req, Closed);
    hide Tests;
    hide WhenOpen;
    hide Simulate;
    OpenTests(c, cfg, t);
    var c1 := if open then WhenOpen(c, cfg, t)
              else if c.dc.logonTimeout != 0 && c.dc.logonTimeout < t.now then c.(req := c.req.Log(Closed))
              else c;
    BlindSimulate(c1.(req := c1.req.Consume(PRIVATE_TOKEN)), t.now);
  }

  predicate TestInv(w: World) {
    w.link != DOWN ==> TestedOnce(w.dc.stage, w.req.session)
  }

  lemma BlindKeeps(w: World, v: World)
    requires TestInv(w) && Blind(DropSide(w), DropSide(v)) && v.link == w.link
    ensures TestInv(v)
  {
  }

  lemma DropTestStep(w: World, cfg: Settings, e: Event)
    requires TestInv(w) && Shape(w) && Enabled(w, e) && OfDrop(e)
    ensures TestInv(Step(w, cfg, e))
  {
    hide OnTimer;
    hide Check;
    hide Enter;
    var c := DropSide(w);
    match e
    case DropConnected(_) =>
      assert Tests([]) == [];
    case DropReady =>
      BlindLog(c.req, Published(LOGIN_SENT));
    case DropWelcome =>
      BlindLog(c.req, Welcomed);
      EnterTests(c.(dc := c.dc.(welcome := true), req := c.req.Log(Welcomed)), cfg, SUBSCRIBE_BALANCES);
    case DropAck(id) =>
      if id.Some? {
        BlindLog(c.req, Acked(id.value));
        CheckTests(c.(req := c.req.Log(Acked(id.value))), cfg, id.value);
      }
    case DropError(_) =>
      BlindRefresh(c);
      hide RequestPrivateToken;
    case DropDisconnected =>
    case DropTimer(t) =>
      if w.link != DOWN {
        TimerTests(c, cfg, t, w.link == OPEN);
      }
  }

  lemma CommitTests(q: Requests, n: Name)
    ensures Tests(q.Commit(n).session) == Tests(q.session)
  {
    BlindLog(q.Put(n, q.Get(n).Commit()), Committed(n));
  }

  lemma DeliverTests(w: World, t: Option<Token>)
    requires TestInv(w) && Shape(w) && w.fault.None?
    ensures TestInv(Deliver(w, t))
  {
    BlindLog(w.req, Resumed);
    hide Tests;
  }

  lemma TokenTests(w: World, cfg: Settings, reply: Reply<Token>)
    requires TestInv(w) && Shape(w) && Enabled(w, TokenReply(reply))
    ensures TestInv(Step(w, cfg, TokenReply(reply)))
  {
    var v := Deliver(w, Delivered(reply));
    DeliverTests(w, Delivered(reply));
    CommitTests(v.req, PRIVATE_TOKEN);
    hide Tests;
    hide Deliver;
    hide Delivered;
    hide TokenFault;
    hide Requests.Commit;
  }

  lemma SlotTests(w: World, n: Name, reply: Reply<()>)
    requires TestInv(w)
    ensures TestInv(WithRest(w, OnSlotReply(RestSide(w), n, reply)))
  {
    CommitTests(w.req, n);
    hide Tests;
    hide ProcessResponse;
    hide Requests.Commit;
  }

  lemma OrderTests(w: World, k: Key, reply: Reply<OrderBody>)
    requires TestInv(w)
    ensures TestInv(WithRest(w, OnOrderReply(RestSide(w), k, reply)))
  {
    CommitTests(w.req, STALE_ORDERS);
    hide Tests;
    hide ProcessResponse;
    hide Requests.Commit;
  }

  lemma RestTestStep(w: World, cfg: Settings, e: Event)
    requires TestInv(w) && Shape(w) && Enabled(w, e) && !OfDrop(e)
    ensures TestInv(Step(w, cfg, e))
  {
    hide TestedOnce;
    hide RestOnTimer;
    hide OnSlotReply;
    hide OnOrderReply;
    hide OnTokenReply;
    hide Deliver;
    match e
    case RestTimer(refreshed, allowed, known) => RestTimerServes(RestSide(w), refreshed, allowed, known);
    case TokenReply(reply) => TokenTests(w, cfg, reply);
    case SlotReply(n, reply) => SlotTests(w, n, reply);
    case OrderReply(k, reply) => OrderTests(w, k, reply);
    case _ =>
  }

  lemma {:induction false} TestRunFrom(w: World, cfg: Settings, es: seq<Event>)
    requires TestInv(w) && Shape(w) && Admissible(w, cfg, es)
    ensures TestInv(Exec(w, cfg, es))
    decreases |es|
  {
    hide TestInv;
    hide Shape;
    hide Step;
    hide Enabled;
    if es != [] {
      if OfDrop(es[0]) {
        DropTestStep(w, cfg, es[0]);
      } else {
        RestTestStep(w, cfg, es[0]);
      }
      ShapeStep(w, cfg, es[0]);
      TestRunFrom(Step(w, cfg, es[0]), cfg, es[1..]);
    }
  }

  lemma {:induction false} TestsAreEntries(session: seq<Entry>, nonEmpty: bool)
    ensures StaleTested(nonEmpty) in session <==> nonEmpty in Tests(session)
  {
    if session != [] {
      var init, last := session[..|session| - 1], session[|session| - 1];
      TestsAreEntries(init, nonEmpty);
      assert session == init + [last];
    }
  }

  /**
   In every run, while connected: the session has looked at the queue of stale orders once if the
   download has reached GET_STALE_ORDERS, and not at all before.
   */
  lemma LooksOnce(cfg: Settings, es: seq<Event>)
    requires Admissible(INIT, cfg, es)
    ensures var w := Exec(INIT, cfg, es);
            w.fault.None? && w.link != DOWN ==>
              if Rank(w.dc.stage) < Rank(GET_STALE_ORDERS) then
                StaleTested(true) !in w.req.session && StaleTested(false) !in w.req.session
              else
                (StaleTested(true) in w.req.session <==> StaleTested(false) !in w.req.session)
  {
    var w := Exec(INIT, cfg, es);
    TestRunFrom(INIT, cfg, es);
    if w.fault.None? && w.link != DOWN {
      OneLook(w.dc.stage, w.req.session);
    }
  }

  lemma OneLook(stage: Stage, session: seq<Entry>)
    requires TestedOnce(stage, session)
    ensures if Rank(stage) < Rank(GET_STALE_ORDERS) then
              StaleTested(true) !in session && StaleTested(false) !in session
            else
              (StaleTested(true) in session <==> StaleTested(false) !in session)
  {
    TestsAreEntries(session, true);
    TestsAreEntries(session, false);
    hide Tests;
    var tests := Tests(session);
    if |tests| == 1 {
      assert tests == [tests[0]] && tests[0] in tests && !tests[0] !in tests;
    } else {
      assert tests == [];
    }
  }
}
