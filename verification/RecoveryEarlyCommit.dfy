/**
 The slots do not know which session a request belongs to: exactly when a session can see the
 answer to a request of an earlier one before its own request is even sent.
 */
module RecoveryEarlyCommit {
  import opened Wrappers
  import opened Recovery
  import opened RecoveryRuns
  import opened RecoveryShape

  /** A stage of the download that waits for a slot with one reply per request. */
  predicate Downloads(s: Stage) {
    IsGet(s) && s != GET_STALE_ORDERS
  }

  /** The request of the session is not sent. */
  predicate Unsent(w: World, s: Stage)
    requires Downloads(s)
  {
    w.dc.stage == s && w.req.Get(SlotOf(s)).wanted
  }

  ghost predicate CommitsUnsent(w: World, cfg: Settings, s: Stage, more: seq<Event>)
    requires Downloads(s)
  {
    Admissible(w, cfg, more) && NoDisconnect(more) &&
    var v := Exec(w, cfg, more);
    v.fault.None? && Unsent(v, s) && v.req.Get(SlotOf(s)).response
  }

  // --- no reply under way: the session sees its own answer only ---

  /** From stage `s` on: while the request is wanted there is neither a reply nor a response. */
  predicate Own(w: World, s: Stage)
    requires Downloads(s)
  {
    var n := SlotOf(s);
    && Rank(w.dc.stage) >= Rank(s)
    && (w.req.Get(n).wanted ==> n !in w.rest.replies && !w.req.Get(n).response)
  }

  /** The drop copy goes on from `s` and asks for other slots only. */
  predicate Passes(c: Core, d: Core, s: Stage)
    requires Downloads(s)
  {
    var n := SlotOf(s);
    && Rank(d.dc.stage) >= Rank(s)
    && d.req.Get(n).wanted == c.req.Get(n).wanted && (d.req.Get(n).response ==> c.req.Get(n).response)
  }

  lemma EnterPasses(c: Core, cfg: Settings, stage: Stage, s: Stage)
    requires Downloads(s) && Rank(stage) > Rank(s)
    ensures Passes(c, Enter(c, cfg, stage), s)
    decreases Rank(DONE) - Rank(stage)
  {
    hide Enter;
    EnterUnfolds(c, cfg, stage);
    var (d, n) := Callback(c.(dc := c.dc.(stage := stage)), cfg, stage);
    if n == 0 && stage != DONE {
      EnterPasses(d, cfg, Next(stage), s);
    }
  }

  lemma EnterUnfolds(c: Core, cfg: Settings, stage: Stage)
    requires stage != UNDEFINED
    ensures var (d, n) := Callback(c.(dc := c.dc.(stage := stage)), cfg, stage);
            Enter(c, cfg, stage) ==
            if n == 0 && stage != DONE then Enter(d, cfg, Next(stage)) else d.(dc := d.dc.(waiting := n))
  {
  }

  lemma CheckPasses(c: Core, cfg: Settings, t: Stage, s: Stage)
    requires Downloads(s) && Rank(c.dc.stage) >= Rank(s)
    ensures Passes(c, Check(c, cfg, t), s)
  {
    hide Enter;
    if c.dc.stage == t && t != DONE {
      EnterPasses(c.(dc := c.dc.(waiting := 0)), cfg, Next(t), s);
    }
  }

  lemma QueuePasses(c: Core, cfg: Settings, scan: seq<Key>, s: Stage)
    requires Downloads(s) && Rank(c.dc.stage) >= Rank(s)
    ensures Passes(c, CheckRequestQueue(c, cfg, scan), s)
  {
    hide Check;
    if IsGet(c.dc.stage) {
      var d := c.(req := c.req.Consume(SlotOf(c.dc.stage)));
      CheckPasses(d, cfg, c.dc.stage, s);
      CheckPasses(d.(req := d.req.Queue(Keys(scan))), cfg, c.dc.stage, s);
    }
  }

  lemma ScanPasses(c: Core, cfg: Settings, origin: int, scan: seq<Key>, s: Stage)
    requires Downloads(s) && Rank(c.dc.stage) >= Rank(s)
    ensures Passes(c, CheckStaleOrders(c, cfg, origin, scan), s)
  {
  }

  lemma OpenPasses(c: Core, cfg: Settings, t: Tick, s: Stage)
    requires Downloads(s) && Rank(c.dc.stage) >= Rank(s)
    ensures Passes(c, WhenOpen(c, cfg, t), s)
  {
    var c1 := PingTimer(c, t.now);
    PingTimerFrame(c, t.now);
    hide PingTimer;
    QueuePasses(c1, cfg, t.openScan, s);
    hide CheckRequestQueue;
    var c2 := CheckRequestQueue(c1, cfg, t.openScan);
    ScanPasses(c2, cfg, t.origin, t.periodicScan, s);
    hide CheckStaleOrders;
    assert c1.req.Get(SlotOf(s)) == c.req.Get(SlotOf(s));
    hide Requests.Get;
  }

  lemma SimulatePasses(c: Core, now: int, s: Stage)
    requires Downloads(s) && Rank(c.dc.stage) >= Rank(s)
    ensures Passes(c, Simulate(c, now), s)
  {
  }

  lemma TimerPasses(c: Core, cfg: Settings, t: Tick, s: Stage)
    requires Downloads(s) && Rank(c.dc.stage) >= Rank(s)
    ensures Passes(c, OnTimer(c, cfg, t, true), s)
  {
    hide WhenOpen;
    hide Simulate;
    OpenPasses(c, cfg, t, s);
    var c1 := WhenOpen(c, cfg, t);
    var c2 := c1.(req := c1.req.Consume(PRIVATE_TOKEN));
    assert c2.req.Get(SlotOf(s)) == c1.req.Get(SlotOf(s));
    SimulatePasses(c2, t.now, s);
    hide Requests.Get;
    hide Requests.Consume;
  }

  lemma DropOwn(w: World, cfg: Settings, e: Event, s: Stage)
    requires Downloads(s) && Shape(w) && Own(w, s) && Enabled(w, e) && OfDrop(e) && !e.DropDisconnected?
    ensures Own(Step(w, cfg, e), s)
  {
    var c := DropSide(w);
    match e
    case DropTimer(t) =>
      TimerPasses(c, cfg, t, s);
      hide OnTimer;
    case DropAck(id) =>
      if id.Some? {
        CheckPasses(c.(req := c.req.Log(Acked(id.value))), cfg, id.value, s);
      }
      hide Check;
    case _ =>
  }

  predicate Calm(r: RestCore, n: Name) {
    r.req.Get(n).wanted ==> n !in r.rest.replies
  }

  lemma PendingCalm(r: RestCore, m: Name, allowed: set<Name>, n: Name)
    requires Calm(r, n) && m != STALE_ORDERS
    ensures Calm(CheckPending(r, m, allowed), n)
  {
  }

  lemma RestTimerCalm(r: RestCore, refreshed: bool, allowed: set<Name>, known: set<Key>, n: Name)
    requires Calm(r, n) && n != STALE_ORDERS
    ensures Calm(RestOnTimer(r, refreshed, allowed, known), n)
  {
    hide CheckPending;
    if refreshed && r.rest.status == READY {
      var r1 := CheckPending(r, PRIVATE_TOKEN, allowed);
      PendingCalm(r, PRIVATE_TOKEN, allowed, n);
      var r2 := CheckPending(r1, BALANCES, allowed);
      PendingCalm(r1, BALANCES, allowed, n);
      var r3 := CheckPending(r2, POSITIONS, allowed);
      PendingCalm(r2, POSITIONS, allowed, n);
      var r4 := CheckPending(r3, OPEN_ORDERS, allowed);
      PendingCalm(r3, OPEN_ORDERS, allowed, n);
      PendingCalm(CheckPendingStale(r4, allowed, known), TRADES, allowed, n);
    }
  }

  /** Whatever leaves the slot alone and brings no reply for it. */
  lemma OthersOwn(w: World, v: World, s: Stage)
    requires Downloads(s) && Own(w, s) && Rank(v.dc.stage) >= Rank(w.dc.stage)
    requires v.req.Get(SlotOf(s)) == w.req.Get(SlotOf(s))
    requires SlotOf(s) in v.rest.replies ==> SlotOf(s) in w.rest.replies
    ensures Own(v, s)
  {
  }

  lemma SlotOwn(w: World, m: Name, reply: Reply<()>, s: Stage)
    requires Downloads(s) && Own(w, s) && m in w.rest.replies
    ensures Own(WithRest(w, OnSlotReply(RestSide(w), m, reply)), s)
  {
    var v := WithRest(w, OnSlotReply(RestSide(w), m, reply));
    var n := SlotOf(s);
    assert v.dc == w.dc && v.rest.replies == w.rest.replies - multiset{m};
    CommitKeeps(w.req, m, n);
    assert v.req == w.req || v.req == w.req.Commit(m);
    hide OnSlotReply;
    hide Requests.Commit;
    if w.req.Get(n).wanted {
      assert m != n;
    }
    hide Requests.Get;
  }

  lemma CommitKeeps(q: Requests, m: Name, n: Name)
    ensures q.Commit(m).Get(n).wanted == q.Get(n).wanted
    ensures m != n ==> q.Commit(m).Get(n) == q.Get(n)
  {
    PutKeeps(q, m, q.Get(m).Commit());
  }

  lemma DeliverOwn(w: World, t: Option<Token>, s: Stage)
    requires Downloads(s) && Shape(w) && w.fault.None? && Own(w, s)
    ensures Own(Deliver(w, t), s)
  {
    OthersOwn(w, Deliver(w, t), s);
  }

  lemma TokenReplyOwn(v: World, reply: Reply<Token>, s: Stage)
    requires Downloads(s) && Own(v, s)
    ensures Own(WithRest(v, OnTokenReply(RestSide(v), reply)), s)
  {
    hide TokenFault;
    hide Delivered;
    PutKeeps(v.req, PRIVATE_TOKEN, v.req.privateToken.Commit());
    OthersOwn(v, WithRest(v, OnTokenReply(RestSide(v), reply)), s);
  }

  lemma TokenOwn(w: World, cfg: Settings, reply: Reply<Token>, s: Stage)
    requires Downloads(s) && Shape(w) && Own(w, s) && Enabled(w, TokenReply(reply))
    ensures Own(Step(w, cfg, TokenReply(reply)), s)
  {
    hide Own;
    hide Deliver;
    hide OnTokenReply;
    DeliverOwn(w, Delivered(reply), s);
    TokenReplyOwn(Deliver(w, Delivered(reply)), reply, s);
  }

  lemma OrderOwn(w: World, k: Key, reply: Reply<OrderBody>, s: Stage)
    requires Downloads(s) && Own(w, s)
    ensures Own(WithRest(w, OnOrderReply(RestSide(w), k, reply)), s)
  {
    hide ProcessResponse;
    CommitKeeps(w.req, STALE_ORDERS, SlotOf(s));
    hide Requests.Commit;
    hide Requests.Get;
  }

  lemma OtherOwn(w: World, cfg: Settings, e: Event, s: Stage)
    requires Downloads(s) && Own(w, s) && Enabled(w, e)
    requires e.RestConnected? || e.RestDisconnected? || e.RestRetry? || e.LostReply? || e.LostCall?
    ensures Own(Step(w, cfg, e), s)
  {
    var v := Step(w, cfg, e);
    assert v.dc == w.dc && v.req == w.req;
  }

  lemma BatchOwn(w: World, cfg: Settings, refreshed: bool, allowed: set<Name>, known: set<Key>, s: Stage)
    requires Downloads(s) && Own(w, s) && Enabled(w, RestTimer(refreshed, allowed, known))
    ensures Own(Step(w, cfg, RestTimer(refreshed, allowed, known)), s)
  {
    hide RestOnTimer;
    RestTimerServes(RestSide(w), refreshed, allowed, known);
    RestTimerCalm(RestSide(w), refreshed, allowed, known, SlotOf(s));
  }

  lemma RestOwn(w: World, cfg: Settings, e: Event, s: Stage)
    requires Downloads(s) && Shape(w) && Own(w, s) && Enabled(w, e) && !OfDrop(e)
    ensures Own(Step(w, cfg, e), s)
  {
    hide OnSlotReply;
    hide Shape;
    hide Own;
    hide OnOrderReply;
    hide OnTokenReply;
    hide RestOnTimer;
    hide Deliver;
    match e
    case RestTimer(refreshed, allowed, known) => BatchOwn(w, cfg, refreshed, allowed, known, s);
    case TokenReply(reply) => TokenOwn(w, cfg, reply, s);
    case SlotReply(m, reply) => SlotOwn(w, m, reply, s);
    case OrderReply(k, reply) => OrderOwn(w, k, reply, s);
    case _ => OtherOwn(w, cfg, e, s);
  }

  lemma {:induction false} OwnRun(w: World, cfg: Settings, s: Stage, es: seq<Event>)
    requires Downloads(s) && Shape(w) && Own(w, s) && Admissible(w, cfg, es) && NoDisconnect(es)
    ensures Own(Exec(w, cfg, es), s)
    decreases |es|
  {
    hide Own;
    hide Shape;
    hide Step;
    if es != [] {
      var e := es[0];
      assert e in es;
      ShapeStep(w, cfg, e);
      if OfDrop(e) {
        DropOwn(w, cfg, e, s);
      } else {
        RestOwn(w, cfg, e, s);
      }
      OwnRun(Step(w, cfg, e), cfg, s, es[1..]);
    }
  }

  // --- a reply under way: it can come first ---

  lemma ReplyFirst(w: World, cfg: Settings, s: Stage)
    requires Downloads(s) && w.fault.None? && Unsent(w, s) && SlotOf(s) in w.rest.replies
    ensures CommitsUnsent(w, cfg, s, [SlotReply(SlotOf(s), ServerError)])
  {
    var es := [SlotReply(SlotOf(s), ServerError)];
    assert es[1..] == [];
  }

  /**
   In every run, a session that waits for a slot and whose own request is not sent can see a commit
   of that slot before it is, if and only if a reply to an earlier request is still under way.
   */
  lemma EarlyCommitIff(cfg: Settings, es: seq<Event>)
    requires Admissible(INIT, cfg, es)
    ensures var w := Exec(INIT, cfg, es);
            var s := w.dc.stage;
            w.fault.None? && Downloads(s) && Unsent(w, s) && !w.req.Get(SlotOf(s)).response ==>
              ((exists more :: CommitsUnsent(w, cfg, s, more)) <==> SlotOf(s) in w.rest.replies)
  {
    var w := Exec(INIT, cfg, es);
    ShapeRunFrom(INIT, cfg, es);
    if w.fault.None? && Downloads(w.dc.stage) && Unsent(w, w.dc.stage) && !w.req.Get(SlotOf(w.dc.stage)).response {
      EarlyCommitFrom(cfg, w, w.dc.stage);
    }
    hide CommitsUnsent;
  }

  lemma EarlyCommitFrom(cfg: Settings, w: World, s: Stage)
    requires Shape(w) && w.fault.None? && Downloads(s) && Unsent(w, s) && !w.req.Get(SlotOf(s)).response
    ensures (exists more :: CommitsUnsent(w, cfg, s, more)) <==> SlotOf(s) in w.rest.replies
  {
    if SlotOf(s) in w.rest.replies {
      ReplyFirst(w, cfg, s);
    } else {
      forall more
        ensures !CommitsUnsent(w, cfg, s, more)
      {
        if Admissible(w, cfg, more) && NoDisconnect(more) {
          OwnRun(w, cfg, s, more);
        }
      }
    }
  }
}
