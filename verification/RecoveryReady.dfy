/**
 READY means fully downloaded: the session history of every world in which the drop copy is
 ready contains, in order, everything that the download promises.
 */
module RecoveryReady {
  import opened Wrappers
  import opened Recovery
  import opened RecoveryShape
  import opened RecoveryStaleTest

  // --- reference definitions ---

  /** `a` occurs in `b`, in order, with anything in between. */
  ghost predicate Subsequence(a: seq<Entry>, b: seq<Entry>)
    decreases |b|
  {
    a == [] ||
    (b != [] &&
     (Subsequence(a, b[..|b| - 1]) ||
      (a[|a| - 1] == b[|b| - 1] && Subsequence(a[..|a| - 1], b[..|b| - 1]))))
  }

  /** What must precede READY, for a session with or without stale orders and trades. */
  function ReadyMilestones(stale: bool, trades: bool): seq<Entry> {
    [Welcomed,
     Subscribed(SUBSCRIBE_BALANCES), Acked(SUBSCRIBE_BALANCES), Requested(BALANCES), Committed(BALANCES),
     Subscribed(SUBSCRIBE_POSITIONS), Acked(SUBSCRIBE_POSITIONS), Requested(POSITIONS), Committed(POSITIONS),
     Subscribed(SUBSCRIBE_ORDERS), Acked(SUBSCRIBE_ORDERS), Requested(OPEN_ORDERS), Committed(OPEN_ORDERS),
     StaleTested(stale)] +
    (if stale then [Requested(STALE_ORDERS), Committed(STALE_ORDERS)] else []) +
    (if trades then [Requested(TRADES), Committed(TRADES)] else []) +
    [Published(READY)]
  }

  /** The number of times READY was published. */
  function Readies(s: seq<Entry>): nat {
    if s == [] then 0
    else Readies(s[..|s| - 1]) + if s[|s| - 1] == Published(READY) then 1 else 0
  }

  lemma Extend(a: seq<Entry>, b: seq<Entry>, e: Entry)
    ensures Subsequence(a, b) ==> Subsequence(a, b + [e])
    ensures Subsequence(a, b) ==> Subsequence(a + [e], b + [e])
    ensures Readies(b + [e]) == Readies(b) + if e == Published(READY) then 1 else 0
  {
    assert (b + [e])[..|b|] == b;
    assert (a + [e])[..|a|] == a;
  }

  // --- what each stage has behind it ---

  /** The entry that ends a stage. */
  function Ends(s: Stage): Entry
    requires IsSubscribe(s) || IsGet(s)
  {
    if IsSubscribe(s) then Acked(s) else Committed(SlotOf(s))
  }

  /** The entries that entering a stage adds, besides the status it publishes. */
  function Own(s: Stage): seq<Entry>
    requires s != UNDEFINED
  {
    if IsSubscribe(s) then [Subscribed(s)]
    else if s == GET_STALE_ORDERS then [StaleTested(true), Requested(STALE_ORDERS)]
    else if s == DONE then [Published(READY)]
    else [Requested(SlotOf(s))]
  }

  /** The stage that was finished before `s`, in a session with or without stale orders and trades. */
  function Previous(s: Stage, stale: bool, trades: bool): (p: Stage)
    requires s != UNDEFINED
    ensures Rank(p) < Rank(s) && p != DONE
  {
    match s
    case DONE => if trades then GET_TRADES else if stale then GET_STALE_ORDERS else GET_OPEN_ORDERS
    case GET_TRADES => if stale then GET_STALE_ORDERS else GET_OPEN_ORDERS
    case GET_STALE_ORDERS => GET_OPEN_ORDERS
    case GET_OPEN_ORDERS => SUBSCRIBE_ORDERS
    case SUBSCRIBE_ORDERS => GET_POSITIONS
    case GET_POSITIONS => SUBSCRIBE_POSITIONS
    case SUBSCRIBE_POSITIONS => GET_BALANCES
    case GET_BALANCES => SUBSCRIBE_BALANCES
    case SUBSCRIBE_BALANCES => UNDEFINED
  }

  /** Everything up to and including the entry to `s`. */
  function Trail(s: Stage, stale: bool, trades: bool): seq<Entry>
    decreases Rank(s)
  {
    if s == UNDEFINED then [Welcomed]
    else
      var p := Previous(s, stale, trades);
      Join(p, s, Trail(p, stale, trades))
  }

  /** From the trail of a stage to the trail of the one entered next. */
  function Join(p: Stage, s: Stage, trail: seq<Entry>): seq<Entry>
    requires p != DONE && s != UNDEFINED
  {
    Finished(p, trail) +
    (if p == GET_OPEN_ORDERS && s != GET_STALE_ORDERS then [StaleTested(false)] else []) + Own(s)
  }

  function Finished(s: Stage, trail: seq<Entry>): seq<Entry>
    requires s != DONE
  {
    if s == UNDEFINED then trail else trail + [Ends(s)]
  }

  ghost predicate EvidenceFor(d: Drop, q: Requests, stale: bool, trades: bool) {
    d.stage != UNDEFINED ==> Holds(d, q, Trail(d.stage, stale, trades))
  }

  ghost predicate Holds(d: Drop, q: Requests, trail: seq<Entry>) {
    && Subsequence(trail, q.session)
    && (IsGet(d.stage) && q.Get(SlotOf(d.stage)).response ==> Subsequence(trail + [Ends(d.stage)], q.session))
  }

  // --- steps, for any trail ---

  /** Two more entries in the history, the second of which belongs to the trail. */
  lemma ExtendTwice(a: seq<Entry>, b: seq<Entry>, other: Entry, own: Entry)
    requires Subsequence(a, b) && other != Published(READY) && own != Published(READY)
    ensures Subsequence(a + [own], b + [other] + [own])
    ensures Readies(b + [other] + [own]) == Readies(b)
  {
    Extend(a, b, other);
    Extend(a, b + [other], own);
  }

  /** What entering a stage that waits does to the state. */
  lemma EnterBusyState(c: Core, cfg: Settings, stage: Stage)
    requires (IsSubscribe(stage) || IsGet(stage)) && stage != GET_STALE_ORDERS
    requires stage == GET_TRADES ==> cfg.tradesLookback != 0
    ensures var d := Enter(c, cfg, stage);
            && d.dc.stage == stage && d.dc.ready == c.dc.ready
            && d.req.session == c.req.session + [Published(DOWNLOADING)] + [Own(stage)[0]]
            && (IsGet(stage) ==> !d.req.Get(SlotOf(stage)).response)
  {
  }

  lemma EnterBusy(c: Core, cfg: Settings, stage: Stage, lead: seq<Entry>)
    requires (IsSubscribe(stage) || IsGet(stage)) && stage != GET_STALE_ORDERS
    requires stage == GET_TRADES ==> cfg.tradesLookback != 0
    requires Subsequence(lead, c.req.session)
    ensures var d := Enter(c, cfg, stage);
            && d.dc.stage == stage && d.dc.ready == c.dc.ready
            && Holds(d.dc, d.req, lead + Own(stage)) && Readies(d.req.session) == Readies(c.req.session)
  {
    ExtendTwice(lead, c.req.session, Published(DOWNLOADING), Own(stage)[0]);
    EnterBusyState(c, cfg, stage);
    assert Own(stage) == [Own(stage)[0]];
  }

  lemma EnterStale(c: Core, cfg: Settings, lead: seq<Entry>)
    requires c.req.stale != {} && Subsequence(lead, c.req.session)
    ensures var d := Enter(c, cfg, GET_STALE_ORDERS);
            && d.dc.stage == GET_STALE_ORDERS && d.dc.ready == c.dc.ready
            && Holds(d.dc, d.req, lead + Own(GET_STALE_ORDERS))
            && Readies(d.req.session) == Readies(c.req.session)
  {
    var s := c.req.session + [StaleTested(true)];
    Extend(lead, c.req.session, StaleTested(true));
    ExtendTwice(lead + [StaleTested(true)], s, Published(DOWNLOADING), Requested(STALE_ORDERS));
    assert lead + [StaleTested(true)] + [Requested(STALE_ORDERS)] == lead + Own(GET_STALE_ORDERS);
    assert Enter(c, cfg, GET_STALE_ORDERS).req.session == s + [Published(DOWNLOADING)] + [Requested(STALE_ORDERS)];
  }

  lemma EnterDone(c: Core, cfg: Settings, lead: seq<Entry>)
    requires Subsequence(lead, c.req.session)
    ensures var d := Enter(c, cfg, DONE);
            && d.dc.stage == DONE && d.dc.ready
            && Holds(d.dc, d.req, lead + Own(DONE)) && Readies(d.req.session) == Readies(c.req.session) + 1
  {
    Extend(lead, c.req.session, Published(READY));
  }

  // --- steps, along the trail ---

  ghost predicate Evidence(d: Drop, q: Requests, trades: bool) {
    && (d.stage == GET_TRADES ==> trades)
    && (EvidenceFor(d, q, false, trades) || EvidenceFor(d, q, true, trades))
    && Readies(q.session) == if d.ready then 1 else 0
  }

  /** Up to the stale orders, the trail does not depend on what follows. */
  lemma {:induction false} TrailBeforeStale(s: Stage, trades: bool)
    requires s != GET_TRADES && s != DONE
    ensures Trail(s, false, trades) == Trail(s, true, trades)
    decreases Rank(s)
  {
    if s != UNDEFINED {
      var p := Previous(s, true, trades);
      assert p == Previous(s, false, trades);
      TrailBeforeStale(p, trades);
      assert Trail(s, true, trades) == Join(p, s, Trail(p, true, trades));
    }
  }

  lemma EnterTrades(c: Core, cfg: Settings, lead: seq<Entry>)
    requires !c.dc.ready && Readies(c.req.session) == 0 && Subsequence(lead, c.req.session)
    ensures var d := Enter(c, cfg, GET_TRADES);
            && d.dc.stage == (if cfg.tradesLookback != 0 then GET_TRADES else DONE)
            && Holds(d.dc, d.req, lead + Own(d.dc.stage))
            && Readies(d.req.session) == if d.dc.ready then 1 else 0
  {
    hide Subsequence;
    hide Holds;
    hide Readies;
    if cfg.tradesLookback != 0 {
      hide Enter;
      EnterBusy(c, cfg, GET_TRADES, lead);
    } else {
      SkipTrades(c, cfg);
      hide Enter;
      EnterDone(c, cfg, lead);
    }
  }

  lemma SkipTrades(c: Core, cfg: Settings)
    requires cfg.tradesLookback == 0
    ensures Enter(c, cfg, GET_TRADES) == Enter(c, cfg, DONE)
  {
    EnterIgnoresStage(c, cfg, DONE, GET_TRADES);
  }

  /** Evidence for the stage just entered, when its trail extends that of the stage before. */
  lemma Arrive(d: Core, p: Stage, stale: bool, trades: bool, lead: seq<Entry>)
    requires d.dc.stage == GET_TRADES ==> trades
    requires d.dc.stage != UNDEFINED && Previous(d.dc.stage, stale, trades) == p
    requires Finished(p, Trail(p, stale, trades)) == lead
    requires p == GET_OPEN_ORDERS ==> d.dc.stage == GET_STALE_ORDERS
    requires Holds(d.dc, d.req, lead + Own(d.dc.stage))
    requires Readies(d.req.session) == if d.dc.ready then 1 else 0
    ensures Evidence(d.dc, d.req, trades)
  {
    assert Join(p, d.dc.stage, Trail(p, stale, trades)) == lead + Own(d.dc.stage);
    assert EvidenceFor(d.dc, d.req, stale, trades);
  }

  lemma SkipStaleOrders(c: Core, cfg: Settings)
    requires c.req.stale == {}
    ensures Enter(c, cfg, GET_STALE_ORDERS) == Enter(c.(req := c.req.Log(StaleTested(false))), cfg, GET_TRADES)
  {
    hide Callback;
    EnterIgnoresStage(c.(req := c.req.Log(StaleTested(false))), cfg, GET_TRADES, GET_STALE_ORDERS);
    StaleCallback(c.(dc := c.dc.(stage := GET_STALE_ORDERS)), cfg);
  }

  lemma StaleCallback(c: Core, cfg: Settings)
    requires c.req.stale == {}
    ensures Callback(c, cfg, GET_STALE_ORDERS) == (c.(req := c.req.Log(StaleTested(false))), 0)
  {
  }

  lemma EnterIgnoresStage(c: Core, cfg: Settings, stage: Stage, before: Stage)
    requires stage != UNDEFINED
    ensures Enter(c.(dc := c.dc.(stage := before)), cfg, stage) == Enter(c, cfg, stage)
  {
  }

  lemma WithoutStaleOrders(c: Core, cfg: Settings, lead: seq<Entry>)
    requires !c.dc.ready && Readies(c.req.session) == 0 && c.req.stale == {}
    requires lead == Finished(GET_OPEN_ORDERS, Trail(GET_OPEN_ORDERS, false, cfg.tradesLookback != 0))
    requires Subsequence(lead, c.req.session)
    ensures var d := Enter(c, cfg, GET_STALE_ORDERS); Evidence(d.dc, d.req, cfg.tradesLookback != 0)
  {
    hide Subsequence;
    hide Holds;
    hide Enter;
    hide Trail;
    hide Readies;
    hide Requests.Get;
    var trades := cfg.tradesLookback != 0;
    var c1 := c.(req := c.req.Log(StaleTested(false)));
    var d := Enter(c1, cfg, GET_TRADES);
    Extend(lead, c.req.session, StaleTested(false));
    EnterTrades(c1, cfg, lead + [StaleTested(false)]);
    SkipStaleOrders(c, cfg);
    JoinTo(GET_OPEN_ORDERS, d.dc.stage, false, trades);
    assert EvidenceFor(d.dc, d.req, false, trades);
  }

  lemma AfterOpenOrders(c: Core, cfg: Settings, stale: bool)
    requires !c.dc.ready && Readies(c.req.session) == 0
    requires Subsequence(Finished(GET_OPEN_ORDERS, Trail(GET_OPEN_ORDERS, stale, cfg.tradesLookback != 0)), c.req.session)
    ensures var d := Enter(c, cfg, GET_STALE_ORDERS); Evidence(d.dc, d.req, cfg.tradesLookback != 0)
  {
    hide Subsequence;
    hide Holds;
    hide Enter;
    var trades := cfg.tradesLookback != 0;
    TrailBeforeStale(GET_OPEN_ORDERS, trades);
    var lead := Finished(GET_OPEN_ORDERS, Trail(GET_OPEN_ORDERS, true, trades));
    if c.req.stale == {} {
      WithoutStaleOrders(c, cfg, lead);
    } else {
      EnterStale(c, cfg, lead);
      Arrive(Enter(c, cfg, GET_STALE_ORDERS), GET_OPEN_ORDERS, true, trades, lead);
    }
  }

  /** A finished stage leads to the next one, whichever stages are skipped. */
  lemma EnterNext(c: Core, cfg: Settings, s: Stage, stale: bool)
    requires s != DONE && !c.dc.ready && Readies(c.req.session) == 0
    requires s == GET_STALE_ORDERS ==> stale
    requires s == GET_TRADES ==> cfg.tradesLookback != 0
    requires Subsequence(Finished(s, Trail(s, stale, cfg.tradesLookback != 0)), c.req.session)
    ensures var d := Enter(c, cfg, Next(s)); Evidence(d.dc, d.req, cfg.tradesLookback != 0)
  {
    hide Subsequence;
    hide Trail;
    hide Holds;
    hide Enter;
    var trades := cfg.tradesLookback != 0;
    var lead := Finished(s, Trail(s, stale, trades));
    var d := Enter(c, cfg, Next(s));
    if s == GET_OPEN_ORDERS {
      AfterOpenOrders(c, cfg, stale);
    } else {
      if s == GET_STALE_ORDERS {
        EnterTrades(c, cfg, lead);
      } else if s == GET_TRADES {
        EnterDone(c, cfg, lead);
      } else {
        EnterBusy(c, cfg, Next(s), lead);
      }
      Arrive(d, s, stale, trades, lead);
    }
  }

  // --- handlers ---

  /** One more entry in the history of an unchanged stage; a response only appears with its commit. */
  lemma LogKeepsFor(d: Drop, e: Drop, q: Requests, r: Requests, entry: Entry, stale: bool, trades: bool)
    requires EvidenceFor(d, q, stale, trades) && e.stage == d.stage
    requires r.session == q.session + [entry]
    requires forall n: Name :: r.Get(n).response ==> q.Get(n).response || entry == Committed(n)
    ensures EvidenceFor(e, r, stale, trades)
  {
    hide Subsequence;
    hide Requests.Get;
    if d.stage != UNDEFINED {
      var trail := Trail(d.stage, stale, trades);
      hide Trail;
      Extend(trail, q.session, entry);
      if IsGet(d.stage) {
        Extend(trail + [Ends(d.stage)], q.session, entry);
      }
    }
  }

  lemma LogKeeps(d: Drop, e: Drop, q: Requests, r: Requests, entry: Entry, trades: bool)
    requires Evidence(d, q, trades) && e.stage == d.stage && e.ready == d.ready
    requires r.session == q.session + [entry] && entry != Published(READY)
    requires forall n: Name :: r.Get(n).response ==> q.Get(n).response || entry == Committed(n)
    ensures Evidence(e, r, trades)
  {
    hide Requests.Get;
    hide EvidenceFor;
    if EvidenceFor(d, q, false, trades) {
      LogKeepsFor(d, e, q, r, entry, false, trades);
    } else {
      LogKeepsFor(d, e, q, r, entry, true, trades);
    }
    Extend([], q.session, entry);
  }

  lemma SameKeeps(d: Drop, e: Drop, q: Requests, r: Requests, trades: bool)
    requires Evidence(d, q, trades) && e.stage == d.stage && e.ready == d.ready
    requires r.session == q.session
    requires forall n: Name :: r.Get(n).response ==> q.Get(n).response
    ensures Evidence(e, r, trades)
  {
    hide Subsequence;
    hide Trail;
    assert forall stale: bool :: EvidenceFor(d, q, stale, trades) ==> EvidenceFor(e, r, stale, trades);
  }

  /** The current stage has ended. */
  ghost predicate Passed(d: Drop, q: Requests, trades: bool)
    requires d.stage != UNDEFINED && d.stage != DONE
  {
    exists stale: bool :: Subsequence(Finished(d.stage, Trail(d.stage, stale, trades)), q.session)
  }

  lemma CheckEvidence(c: Core, cfg: Settings, s: Stage)
    requires DropShape(c.dc, OPEN) && Evidence(c.dc, c.req, cfg.tradesLookback != 0)
    requires c.dc.stage == s && s != UNDEFINED && s != DONE ==> Passed(c.dc, c.req, cfg.tradesLookback != 0)
    ensures var d := Check(c, cfg, s); Evidence(d.dc, d.req, cfg.tradesLookback != 0)
  {
    hide Subsequence;
    hide Trail;
    var trades := cfg.tradesLookback != 0;
    if c.dc.stage == s && s != UNDEFINED && s != DONE {
      var stale: bool :| Subsequence(Finished(s, Trail(s, stale, trades)), c.req.session);
      if s == GET_STALE_ORDERS {
        TrailBeforeStale(s, trades);
        stale := true;
      }
      EnterNext(c.(dc := c.dc.(waiting := 0)), cfg, s, stale);
    }
  }

  lemma AckEvidence(c: Core, cfg: Settings, s: Stage)
    requires DropShape(c.dc, OPEN) && Evidence(c.dc, c.req, cfg.tradesLookback != 0) && IsSubscribe(s)
    ensures var d := OnAck(c, cfg, Some(s)); Evidence(d.dc, d.req, cfg.tradesLookback != 0)
  {
    hide Subsequence;
    hide Trail;
    var trades := cfg.tradesLookback != 0;
    var c1 := c.(req := c.req.Log(Acked(s)));
    LogKeeps(c.dc, c.dc, c.req, c1.req, Acked(s), trades);
    if c.dc.stage == s {
      Extend(Trail(s, true, trades), c.req.session, Acked(s));
      Extend(Trail(s, false, trades), c.req.session, Acked(s));
      assert Finished(s, Trail(s, true, trades)) == Trail(s, true, trades) + [Acked(s)];
      assert Finished(s, Trail(s, false, trades)) == Trail(s, false, trades) + [Acked(s)];
    }
    CheckEvidence(c1, cfg, s);
  }

  lemma QueueEvidence(c: Core, cfg: Settings, scan: seq<Key>)
    requires DropShape(c.dc, OPEN) && Evidence(c.dc, c.req, cfg.tradesLookback != 0)
    ensures var d := CheckRequestQueue(c, cfg, scan); Evidence(d.dc, d.req, cfg.tradesLookback != 0)
  {
    hide Subsequence;
    hide Trail;
    var trades := cfg.tradesLookback != 0;
    var s := c.dc.stage;
    if IsGet(s) && c.req.Get(SlotOf(s)).response {
      var d := c.(req := c.req.Consume(SlotOf(s)));
      var q := d.(req := d.req.Queue(Keys(scan)));
      SameKeeps(c.dc, d.dc, c.req, d.req, trades);
      SameKeeps(c.dc, q.dc, c.req, q.req, trades);
      assert Passed(d.dc, d.req, trades) && Passed(q.dc, q.req, trades) by {
        var stale: bool :| EvidenceFor(c.dc, c.req, stale, trades);
        assert Finished(s, Trail(s, stale, trades)) == Trail(s, stale, trades) + [Ends(s)];
      }
      CheckEvidence(d, cfg, s);
      CheckEvidence(q, cfg, s);
    }
  }

  lemma RefreshEvidence(c: Core, trades: bool)
    requires Evidence(c.dc, c.req, trades)
    ensures var d := RequestPrivateToken(c); Evidence(d.dc, d.req, trades)
  {
    hide Evidence;
    if c.dc.query != "" {
      var d := RequestPrivateToken(c);
      var q := c.req.Log(Suspended);
      LogKeeps(c.dc, d.dc, c.req, q, Suspended, trades);
      LogKeeps(d.dc, d.dc, q, d.req, Requested(PRIVATE_TOKEN), trades);
    }
  }

  lemma PeriodicEvidence(c: Core, cfg: Settings, origin: int, scan: seq<Key>, trades: bool)
    requires Evidence(c.dc, c.req, trades)
    ensures var d := CheckStaleOrders(c, cfg, origin, scan); Evidence(d.dc, d.req, trades)
  {
    hide Evidence;
    if c.dc.nextStaleCheck < origin {
      var d := c.(dc := c.dc.(nextStaleCheck := origin + cfg.checkStaleOrderFreq), req := c.req.Queue(Keys(scan)));
      SameKeeps(c.dc, d.dc, c.req, d.req, trades);
      LogKeeps(d.dc, d.dc, d.req, d.req.Ask(STALE_ORDERS), Requested(STALE_ORDERS), trades);
    }
  }

  lemma OpenEvidence(c: Core, cfg: Settings, t: Tick)
    requires DropShape(c.dc, OPEN) && c.fault.None? && Evidence(c.dc, c.req, cfg.tradesLookback != 0)
    ensures var d := WhenOpen(c, cfg, t); Evidence(d.dc, d.req, cfg.tradesLookback != 0)
  {
    hide Evidence;
    hide CheckRequestQueue;
    hide CheckStaleOrders;
    var trades := cfg.tradesLookback != 0;
    var c1 := PingTimer(c, t.now);
    PingTimerFrame(c, t.now);
    hide PingTimer;
    if c1.req == c.req {
      SameKeeps(c.dc, c1.dc, c.req, c1.req, trades);
    } else {
      LogKeeps(c.dc, c1.dc, c.req, c1.req, PingSent(t.now), trades);
    }
    QueueEvidence(c1, cfg, t.openScan);
    PeriodicEvidence(CheckRequestQueue(c1, cfg, t.openScan), cfg, t.origin, t.periodicScan, trades);
  }

  lemma TimerEvidence(c: Core, cfg: Settings, t: Tick, link: Link)
    requires DropShape(c.dc, link) && c.fault.None? && link != DOWN && Evidence(c.dc, c.req, cfg.tradesLookback != 0)
    ensures var d := OnTimer(c, cfg, t, link == OPEN); Evidence(d.dc, d.req, cfg.tradesLookback != 0)
  {
    hide Evidence;
    var trades := cfg.tradesLookback != 0;
    if t.refreshed {
      var c1 := if link == OPEN then WhenOpen(c, cfg, t)
                else if c.dc.logonTimeout != 0 && c.dc.logonTimeout < t.now then c.(req := c.req.Log(Closed))
                else c;
      if link == OPEN {
        OpenEvidence(c, cfg, t);
      } else if c1 != c {
        LogKeeps(c.dc, c.dc, c.req, c1.req, Closed, trades);
      }
      var c2 := c1.(req := c1.req.Consume(PRIVATE_TOKEN));
      SameKeeps(c1.dc, c2.dc, c1.req, c2.req, trades);
      var c3 := c2.(dc := c2.dc.(nextSimulated := 0));
      SameKeeps(c2.dc, c3.dc, c2.req, c3.req, trades);
      RefreshEvidence(c3, trades);
    }
  }

  lemma WelcomeEvidence(c: Core, cfg: Settings)
    requires DropShape(c.dc, OPEN) && !c.dc.welcome && Evidence(c.dc, c.req, cfg.tradesLookback != 0)
    ensures var d := OnWelcome(c, cfg); Evidence(d.dc, d.req, cfg.tradesLookback != 0)
  {
    Extend([], c.req.session, Welcomed);
    assert [] + [Welcomed] == Finished(UNDEFINED, Trail(UNDEFINED, true, cfg.tradesLookback != 0));
    EnterNext(c.(dc := c.dc.(welcome := true), req := c.req.Log(Welcomed)), cfg, UNDEFINED, true);
  }

  // --- runs ---

  ghost predicate ReadyInv(w: World, cfg: Settings) {
    && Shape(w)
    && (w.fault.None? && w.link != DOWN ==> Evidence(w.dc, w.req, cfg.tradesLookback != 0))
  }

  lemma DeliverEvidence(w: World, t: Option<Token>, trades: bool)
    requires w.created && w.fault.None? && Evidence(w.dc, w.req, trades)
    ensures var v := Deliver(w, t);
            Evidence(v.dc, v.req, trades) && v.link == w.link && v.dc.stage == w.dc.stage && v.dc.ready == w.dc.ready
  {
    hide Evidence;
    var v := Deliver(w, t);
    if v.req != w.req {
      LogKeeps(w.dc, v.dc, w.req, v.req, Resumed, trades);
    }
    SameKeeps(w.dc, v.dc, w.req, w.req, trades);
  }

  lemma TokenCommitEvidence(r: RestCore, d: Drop, reply: Reply<Token>, trades: bool)
    requires Evidence(d, r.req, trades)
    ensures OnTokenReply(r, reply).fault.None? ==> Evidence(d, OnTokenReply(r, reply).req, trades)
  {
    hide Evidence;
    if OnTokenReply(r, reply).fault.None? && r.fault.None? {
      LogKeeps(d, d, r.req, r.req.Commit(PRIVATE_TOKEN), Committed(PRIVATE_TOKEN), trades);
    }
  }

  lemma TokenEvidence(w: World, cfg: Settings, reply: Reply<Token>)
    requires ReadyInv(w, cfg) && Enabled(w, TokenReply(reply))
    ensures ReadyInv(Step(w, cfg, TokenReply(reply)), cfg)
  {
    hide Evidence;
    hide Deliver;
    hide OnTokenReply;
    ShapeStep(w, cfg, TokenReply(reply));
    if w.link != DOWN {
      var t := Delivered(reply);
      DeliverEvidence(w, t, cfg.tradesLookback != 0);
      var v := Deliver(w, t);
      TokenCommitEvidence(RestSide(v), v.dc, reply, cfg.tradesLookback != 0);
    } else {
      DownStaysDown(w, cfg, reply);
    }
  }

  lemma DownStaysDown(w: World, cfg: Settings, reply: Reply<Token>)
    requires Enabled(w, TokenReply(reply))
    ensures Step(w, cfg, TokenReply(reply)).link == w.link
  {
  }

  lemma DropEvidence(w: World, cfg: Settings, e: Event)
    requires ReadyInv(w, cfg) && Enabled(w, e)
    requires OfDrop(e)
    ensures ReadyInv(Step(w, cfg, e), cfg)
  {
    hide Evidence;
    ShapeStep(w, cfg, e);
    var trades := cfg.tradesLookback != 0;
    match e
    case DropConnected(_) =>
      EmptyEvidence(Step(w, cfg, e), trades);
    case DropReady => LogKeeps(w.dc, Step(w, cfg, e).dc, w.req, Step(w, cfg, e).req, Published(LOGIN_SENT), trades);
    case DropWelcome => WelcomeEvidence(DropSide(w), cfg);
    case DropAck(id) =>
      if id.Some? {
        AckEvidence(DropSide(w), cfg, id.value);
      }
    case DropError(_) => RefreshEvidence(DropSide(w), trades);
    case DropDisconnected =>
    case DropTimer(t) =>
      if w.link != DOWN {
        TimerEvidence(DropSide(w), cfg, t, w.link);
      }
  }

  lemma EmptyEvidence(w: World, trades: bool)
    requires w.req.session == [] && w.dc.stage == UNDEFINED && !w.dc.ready
    ensures Evidence(w.dc, w.req, trades)
  {
  }

  lemma RestTimerEvidence(w: World, cfg: Settings, refreshed: bool, allowed: set<Name>, known: set<Key>)
    requires Evidence(w.dc, w.req, cfg.tradesLookback != 0)
    ensures Evidence(w.dc, RestOnTimer(RestSide(w), refreshed, allowed, known).req, cfg.tradesLookback != 0)
  {
    hide Evidence;
    hide RestOnTimer;
    RestTimerServes(RestSide(w), refreshed, allowed, known);
    SameKeeps(w.dc, w.dc, w.req, RestOnTimer(RestSide(w), refreshed, allowed, known).req, cfg.tradesLookback != 0);
  }

  lemma ReplyEvidence(w: World, cfg: Settings, e: Event)
    requires ReadyInv(w, cfg) && Enabled(w, e) && (e.SlotReply? || e.OrderReply?)
    ensures var v := Step(w, cfg, e); w.link != DOWN && v.fault.None? ==> Evidence(v.dc, v.req, cfg.tradesLookback != 0)
  {
    hide Evidence;
    var v := Step(w, cfg, e);
    if w.link != DOWN && v.fault.None? && v.req != w.req {
      var n := if e.SlotReply? then e.name else STALE_ORDERS;
      LogKeeps(w.dc, v.dc, w.req, v.req, Committed(n), cfg.tradesLookback != 0);
    }
  }

  lemma RestEvidence(w: World, cfg: Settings, e: Event)
    requires ReadyInv(w, cfg) && Enabled(w, e) && !OfDrop(e) && !e.TokenReply?
    ensures ReadyInv(Step(w, cfg, e), cfg)
  {
    hide Evidence;
    hide RestOnTimer;
    hide RestEnter;
    hide OnOrderReply;
    hide OnSlotReply;
    ShapeStep(w, cfg, e);
    match e
    case RestTimer(refreshed, allowed, known) =>
      if w.link != DOWN {
        RestTimerEvidence(w, cfg, refreshed, allowed, known);
      }
    case RestConnected => RestEnterKeeps(RestSide(w));
    case RestRetry => RestEnterKeeps(RestSide(w));
    case SlotReply(_, _) => ReplyEvidence(w, cfg, e);
    case OrderReply(_, _) => ReplyEvidence(w, cfg, e);
    case _ =>
  }

  lemma RestEnterKeeps(r: RestCore)
    ensures RestEnter(r).req == r.req
  {
  }

  lemma {:induction false} ReadyRunFrom(w: World, cfg: Settings, es: seq<Event>)
    requires ReadyInv(w, cfg) && Admissible(w, cfg, es)
    ensures ReadyInv(Exec(w, cfg, es), cfg)
    decreases |es|
  {
    hide Evidence;
    if es != [] {
      var e := es[0];
      if OfDrop(e) {
        DropEvidence(w, cfg, e);
      } else if e.TokenReply? {
        TokenEvidence(w, cfg, e.token);
      } else {
        RestEvidence(w, cfg, e);
      }
      ReadyRunFrom(Step(w, cfg, e), cfg, es[1..]);
    }
  }

  lemma JoinTo(p: Stage, s: Stage, stale: bool, trades: bool)
    requires s != UNDEFINED && Previous(s, stale, trades) == p
    ensures Trail(s, stale, trades) == Join(p, s, Trail(p, stale, trades))
  {
  }

  /** One subscription and the request after it. */
  lemma TrailOver(p: Stage, s: Stage, stale: bool, trades: bool)
    requires IsSubscribe(s) && Previous(s, stale, trades) == p && Previous(Next(s), stale, trades) == s
    ensures Trail(Next(s), stale, trades) ==
            Finished(p, Trail(p, stale, trades)) + [Subscribed(s), Acked(s), Requested(SlotOf(Next(s)))]
  {
    hide Trail;
    JoinTo(p, s, stale, trades);
    JoinTo(s, Next(s), stale, trades);
  }

  lemma MilestonesToBalances(stale: bool, trades: bool)
    ensures Trail(GET_BALANCES, stale, trades) == ReadyMilestones(stale, trades)[..4]
  {
    TrailStart(stale, trades);
    TrailOver(UNDEFINED, SUBSCRIBE_BALANCES, stale, trades);
    hide Trail;
  }

  lemma MilestonesToPositions(stale: bool, trades: bool)
    ensures Trail(GET_POSITIONS, stale, trades) == ReadyMilestones(stale, trades)[..8]
  {
    MilestonesToBalances(stale, trades);
    TrailOver(GET_BALANCES, SUBSCRIBE_POSITIONS, stale, trades);
    hide Trail;
  }

  lemma OrderMilestones(stale: bool, trades: bool)
    ensures |ReadyMilestones(stale, trades)| >= 12
    ensures ReadyMilestones(stale, trades)[8..12] ==
            [Committed(POSITIONS), Subscribed(SUBSCRIBE_ORDERS), Acked(SUBSCRIBE_ORDERS), Requested(OPEN_ORDERS)]
  {
  }

  lemma MilestonesToOpenOrders(stale: bool, trades: bool)
    ensures Trail(GET_OPEN_ORDERS, stale, trades) == ReadyMilestones(stale, trades)[..12]
  {
    MilestonesToPositions(stale, trades);
    TrailOver(GET_POSITIONS, SUBSCRIBE_ORDERS, stale, trades);
    hide Trail;
    OrderMilestones(stale, trades);
    hide ReadyMilestones;
    var m := ReadyMilestones(stale, trades);
    assert m[..12] == m[..8] + m[8..12];
  }

  lemma TrailStart(stale: bool, trades: bool)
    ensures Trail(UNDEFINED, stale, trades) == [Welcomed]
  {
  }

  lemma MilestonesAreTheTrail(stale: bool, trades: bool)
    ensures Trail(DONE, stale, trades) == ReadyMilestones(stale, trades)
  {
    hide Trail;
    MilestonesToOpenOrders(stale, trades);
    if stale {
      JoinTo(GET_OPEN_ORDERS, GET_STALE_ORDERS, stale, trades);
    }
    if trades {
      JoinTo(if stale then GET_STALE_ORDERS else GET_OPEN_ORDERS, GET_TRADES, stale, trades);
    }
    JoinTo(Previous(DONE, stale, trades), DONE, stale, trades);
  }

  lemma {:induction false} MembersOfSubsequence(a: seq<Entry>, b: seq<Entry>, e: Entry)
    requires Subsequence(a, b) && e in a
    ensures e in b
    decreases |b|
  {
    var init := b[..|b| - 1];
    if Subsequence(a, init) {
      MembersOfSubsequence(a, init, e);
    } else if e != b[|b| - 1] {
      assert a == a[..|a| - 1] + [a[|a| - 1]];
      MembersOfSubsequence(a[..|a| - 1], init, e);
    }
  }

  /** The milestones of a session tell what its look at the queue of stale orders found. */
  lemma MilestonesTellLook(session: seq<Entry>, stale: bool, trades: bool)
    requires Subsequence(ReadyMilestones(stale, trades), session)
    requires StaleTested(true) in session <==> StaleTested(false) !in session
    ensures StaleTested(true) in session <==> stale
  {
    hide Subsequence;
    assert ReadyMilestones(stale, trades)[13] == StaleTested(stale);
    assert StaleTested(stale) in ReadyMilestones(stale, trades);
    hide ReadyMilestones;
    MembersOfSubsequence(ReadyMilestones(stale, trades), session, StaleTested(stale));
  }

  /**
   In every run, whenever the drop copy is ready its session history contains, in this order, the
   welcome, the three acknowledgements, the three commits after the requests of the session, the
   stale-orders request and commit if the session found stale orders, the trades commit when
   trades are asked for, and READY, which the session publishes once.
   */
  lemma ReadyMeansDownloaded(cfg: Settings, es: seq<Event>)
    requires Admissible(INIT, cfg, es)
    ensures var w := Exec(INIT, cfg, es);
            w.fault.None? && w.dc.ready ==>
              && Readies(w.req.session) == 1
              && Subsequence(ReadyMilestones(StaleTested(true) in w.req.session, cfg.tradesLookback != 0), w.req.session)
  {
    hide Subsequence;
    hide Trail;
    hide ReadyMilestones;
    var w := Exec(INIT, cfg, es);
    var trades := cfg.tradesLookback != 0;
    ReadyRunFrom(INIT, cfg, es);
    LooksOnce(cfg, es);
    if w.fault.None? && w.dc.ready {
      var stale := EvidenceFor(w.dc, w.req, true, trades);
      MilestonesAreTheTrail(stale, trades);
      MilestonesTellLook(w.req.session, stale, trades);
    }
  }
}
