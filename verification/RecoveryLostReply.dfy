/**
 Exactly when a session that waits for a slot with one reply per request can still go on: a reply
 that is lost is never asked for again.
 */
module RecoveryLostReply {
  import opened Recovery
  import opened RecoveryEarlyCommit
  import opened RecoveryRuns
  import opened RecoveryShape
  import opened RecoveryStale

  ghost predicate Passed(w: World, cfg: Settings, s: Stage, more: seq<Event>) {
    Admissible(w, cfg, more) && NoDisconnect(more) &&
    var v := Exec(w, cfg, more);
    v.fault.None? && v.dc.stage != s
  }

  /** The response is there, or the request is still to be sent, or a reply is under way. */
  predicate ReplyCanCome(w: World, s: Stage)
    requires Downloads(s)
  {
    var n := SlotOf(s);
    w.req.Get(n).response || w.req.Get(n).wanted || n in w.rest.replies
  }

  // --- nothing can come ---

  predicate Forgotten(w: World, s: Stage)
    requires Downloads(s)
  {
    w.created && w.dc.stage == s && !ReplyCanCome(w, s)
  }

  lemma OpenForgotten(c: Core, cfg: Settings, t: Tick, s: Stage)
    requires Downloads(s) && DropShape(c.dc, OPEN) && c.fault.None?
    requires c.dc.stage == s && !c.req.Get(SlotOf(s)).response && !c.req.Get(SlotOf(s)).wanted
    ensures var d := WhenOpen(c, cfg, t);
            && d.fault.None? && d.dc.stage == s
            && !d.req.Get(SlotOf(s)).response && !d.req.Get(SlotOf(s)).wanted
  {
    OpenPasses(c, cfg, t, s);
    var c1 := PingTimer(c, t.now);
    PingTimerFrame(c, t.now);
    hide PingTimer;
    hide Check;
    assert CheckRequestQueue(c1, cfg, t.openScan) == c1;
  }

  lemma TimerForgotten(c: Core, cfg: Settings, t: Tick, s: Stage)
    requires Downloads(s) && DropShape(c.dc, OPEN) && c.fault.None?
    requires c.dc.stage == s && !c.req.Get(SlotOf(s)).response && !c.req.Get(SlotOf(s)).wanted
    ensures var d := OnTimer(c, cfg, t, true);
            d.dc.stage == s && !d.req.Get(SlotOf(s)).response && !d.req.Get(SlotOf(s)).wanted
  {
    hide WhenOpen;
    hide Simulate;
    TimerPasses(c, cfg, t, s);
    OpenForgotten(c, cfg, t, s);
    var c1 := WhenOpen(c, cfg, t);
    SimulateStale(c1.(req := c1.req.Consume(PRIVATE_TOKEN)), t.now);
    hide Requests.Get;
  }

  lemma DropForgotten(w: World, cfg: Settings, e: Event, s: Stage)
    requires Downloads(s) && Shape(w) && Forgotten(w, s) && Enabled(w, e) && OfDrop(e) && !e.DropDisconnected?
    ensures Forgotten(Step(w, cfg, e), s)
  {
    hide OnTimer;
    match e
    case DropTimer(t) => TimerForgotten(DropSide(w), cfg, t, s);
    case _ =>
  }

  /** With nothing wanted no request is sent. */
  lemma PendingForgotten(r: RestCore, m: Name, allowed: set<Name>, n: Name)
    requires m != STALE_ORDERS && !r.req.Get(n).wanted && n !in r.rest.replies
    ensures var q := CheckPending(r, m, allowed); !q.req.Get(n).wanted && n !in q.rest.replies
  {
  }

  lemma BatchForgotten(r: RestCore, refreshed: bool, allowed: set<Name>, known: set<Key>, n: Name)
    requires n != STALE_ORDERS && !r.req.Get(n).wanted && n !in r.rest.replies
    ensures var q := RestOnTimer(r, refreshed, allowed, known); !q.req.Get(n).wanted && n !in q.rest.replies
  {
    hide CheckPending;
    if refreshed && r.rest.status == READY {
      var r1 := CheckPending(r, PRIVATE_TOKEN, allowed);
      PendingForgotten(r, PRIVATE_TOKEN, allowed, n);
      var r2 := CheckPending(r1, BALANCES, allowed);
      PendingForgotten(r1, BALANCES, allowed, n);
      var r3 := CheckPending(r2, POSITIONS, allowed);
      PendingForgotten(r2, POSITIONS, allowed, n);
      var r4 := CheckPending(r3, OPEN_ORDERS, allowed);
      PendingForgotten(r3, OPEN_ORDERS, allowed, n);
      PendingForgotten(CheckPendingStale(r4, allowed, known), TRADES, allowed, n);
    }
  }

  /** Whatever leaves stage and slot alone and brings no reply. */
  lemma SameForgotten(w: World, v: World, s: Stage)
    requires Downloads(s) && Forgotten(w, s) && v.created && v.dc.stage == w.dc.stage
    requires v.req.Get(SlotOf(s)) == w.req.Get(SlotOf(s))
    requires SlotOf(s) in v.rest.replies ==> SlotOf(s) in w.rest.replies
    ensures Forgotten(v, s)
  {
  }

  lemma SlotForgotten(w: World, m: Name, reply: Reply<()>, s: Stage)
    requires Downloads(s) && Forgotten(w, s) && m in w.rest.replies
    ensures Forgotten(WithRest(w, OnSlotReply(RestSide(w), m, reply)), s)
  {
    CommitKeeps(w.req, m, SlotOf(s));
    hide Requests.Commit;
    hide ProcessResponse;
    SameForgotten(w, WithRest(w, OnSlotReply(RestSide(w), m, reply)), s);
  }

  lemma OrderForgotten(w: World, k: Key, reply: Reply<OrderBody>, s: Stage)
    requires Downloads(s) && Forgotten(w, s)
    ensures Forgotten(WithRest(w, OnOrderReply(RestSide(w), k, reply)), s)
  {
    CommitKeeps(w.req, STALE_ORDERS, SlotOf(s));
    hide Requests.Commit;
    hide ProcessResponse;
    SameForgotten(w, WithRest(w, OnOrderReply(RestSide(w), k, reply)), s);
  }

  lemma TokenForgotten(w: World, cfg: Settings, reply: Reply<Token>, s: Stage)
    requires Downloads(s) && Forgotten(w, s) && Enabled(w, TokenReply(reply))
    ensures Forgotten(Step(w, cfg, TokenReply(reply)), s)
  {
    var v := Deliver(w, Delivered(reply));
    assert v.created && v.dc.stage == w.dc.stage && v.rest == w.rest && v.req.Get(SlotOf(s)) == w.req.Get(SlotOf(s));
    CommitKeeps(v.req, PRIVATE_TOKEN, SlotOf(s));
    hide Requests.Commit;
    hide Deliver;
    hide Delivered;
    hide TokenFault;
    hide Requests.Get;
    SameForgotten(w, Step(w, cfg, TokenReply(reply)), s);
  }

  lemma RestForgotten(w: World, cfg: Settings, e: Event, s: Stage)
    requires Downloads(s) && Shape(w) && Forgotten(w, s) && Enabled(w, e) && !OfDrop(e)
    ensures Forgotten(Step(w, cfg, e), s)
  {
    hide RestOnTimer;
    hide OnSlotReply;
    hide OnOrderReply;
    hide OnTokenReply;
    hide Deliver;
    match e
    case RestTimer(refreshed, allowed, known) =>
      RestTimerServes(RestSide(w), refreshed, allowed, known);
      BatchForgotten(RestSide(w), refreshed, allowed, known, SlotOf(s));
    case TokenReply(reply) => TokenForgotten(w, cfg, reply, s);
    case SlotReply(m, reply) => SlotForgotten(w, m, reply, s);
    case OrderReply(k, reply) => OrderForgotten(w, k, reply, s);
    case _ =>
  }

  lemma {:induction false} ForgottenRun(w: World, cfg: Settings, s: Stage, es: seq<Event>)
    requires Downloads(s) && Shape(w) && Forgotten(w, s) && Admissible(w, cfg, es) && NoDisconnect(es)
    ensures Forgotten(Exec(w, cfg, es), s)
    decreases |es|
  {
    hide Forgotten;
    hide Shape;
    hide Step;
    if es != [] {
      var e := es[0];
      assert e in es;
      ShapeStep(w, cfg, e);
      if OfDrop(e) {
        DropForgotten(w, cfg, e, s);
      } else {
        RestForgotten(w, cfg, e, s);
      }
      ForgottenRun(Step(w, cfg, e), cfg, s, es[1..]);
    }
  }

  // --- otherwise the session can go on ---

  lemma EnterForward(c: Core, cfg: Settings, stage: Stage)
    requires stage != UNDEFINED
    ensures Rank(Enter(c, cfg, stage).dc.stage) >= Rank(stage) && Enter(c, cfg, stage).fault == c.fault
    decreases Rank(DONE) - Rank(stage)
  {
    hide Enter;
    EnterUnfolds(c, cfg, stage);
    var (d, n) := Callback(c.(dc := c.dc.(stage := stage)), cfg, stage);
    if n == 0 && stage != DONE {
      EnterForward(d, cfg, Next(stage));
    }
  }

  lemma QueueLeaves(c: Core, cfg: Settings, scan: seq<Key>, s: Stage)
    requires Downloads(s) && c.dc.stage == s && c.dc.waiting == 1 && c.fault.None? && c.req.Get(SlotOf(s)).response
    ensures var d := CheckRequestQueue(c, cfg, scan); d.fault.None? && Rank(d.dc.stage) > Rank(s)
  {
    hide Enter;
    var d := c.(req := c.req.Consume(SlotOf(s)));
    var q := d.(req := d.req.Queue(Keys(scan)));
    EnterForward(d.(dc := d.dc.(waiting := 0)), cfg, Next(s));
    EnterForward(q.(dc := q.dc.(waiting := 0)), cfg, Next(s));
  }

  lemma OpenLeaves(c: Core, cfg: Settings, t: Tick, s: Stage)
    requires Downloads(s) && DropShape(c.dc, OPEN) && c.fault.None? && c.dc.stage == s && c.req.Get(SlotOf(s)).response
    ensures var d := WhenOpen(c, cfg, t); d.fault.None? && Rank(d.dc.stage) > Rank(s)
  {
    var c1 := PingTimer(c, t.now);
    PingTimerFrame(c, t.now);
    hide PingTimer;
    QueueLeaves(c1, cfg, t.openScan, s);
    hide CheckRequestQueue;
  }

  lemma TickLeaves(c: Core, cfg: Settings, t: Tick, s: Stage)
    requires Downloads(s) && DropShape(c.dc, OPEN) && c.fault.None? && c.dc.stage == s && c.req.Get(SlotOf(s)).response
    requires t.refreshed
    ensures var d := OnTimer(c, cfg, t, true); d.fault.None? && d.dc.stage != s
  {
    hide WhenOpen;
    hide Simulate;
    OpenLeaves(c, cfg, t, s);
    var c1 := WhenOpen(c, cfg, t);
    SimulateStale(c1.(req := c1.req.Consume(PRIVATE_TOKEN)), t.now);
  }

  /** Get the reply under way, by sending the request if need be. */
  lemma FetchReply(cfg: Settings, w: World, s: Stage) returns (v: World)
    requires Downloads(s) && Shape(w) && w.fault.None? && w.created && w.dc.stage == s
    requires w.req.Get(SlotOf(s)).wanted || SlotOf(s) in w.rest.replies
    ensures Leads(cfg, w, v) && v.fault.None? && v.created && v.dc == w.dc && v.link == w.link
    ensures SlotOf(s) in v.rest.replies
  {
    Stay(cfg, w);
    if SlotOf(s) in w.rest.replies {
      v := w;
    } else {
      var u := MakeReady(cfg, w, w);
      OnlyServes(RestSide(u), SlotOf(s));
      hide RestOnTimer;
      v := Then(cfg, w, u, RestTimer(true, {SlotOf(s)}, {}));
    }
  }

  lemma FetchResponse(cfg: Settings, w: World, s: Stage) returns (v: World)
    requires Downloads(s) && Shape(w) && w.fault.None? && w.created && w.dc.stage == s && ReplyCanCome(w, s)
    ensures Leads(cfg, w, v) && v.fault.None? && v.created && v.dc == w.dc && v.link == w.link
    ensures v.req.Get(SlotOf(s)).response
  {
    if w.req.Get(SlotOf(s)).response {
      Stay(cfg, w);
      v := w;
    } else {
      var u := FetchReply(cfg, w, s);
      v := Then(cfg, w, u, SlotReply(SlotOf(s), ServerError));
    }
  }

  lemma PassesOn(cfg: Settings, w: World, s: Stage) returns (more: seq<Event>)
    requires Downloads(s) && Shape(w) && w.fault.None? && w.created && w.dc.stage == s && ReplyCanCome(w, s)
    ensures Passed(w, cfg, s, more)
  {
    hide OnTimer;
    var v := FetchResponse(cfg, w, s);
    var t := Tick(0, 0, true, [], []);
    TickLeaves(DropSide(v), cfg, t, s);
    var u := Then(cfg, w, v, DropTimer(t));
    more :| Admissible(w, cfg, more) && NoDisconnect(more) && Exec(w, cfg, more) == u;
  }

  lemma CanPassFrom(cfg: Settings, w: World, s: Stage)
    requires Downloads(s) && Shape(w) && w.fault.None? && w.created && w.dc.stage == s
    ensures (exists more :: Passed(w, cfg, s, more)) <==> ReplyCanCome(w, s)
  {
    if ReplyCanCome(w, s) {
      var more := PassesOn(cfg, w, s);
      assert Passed(w, cfg, s, more);
    } else {
      forall more
        ensures !Passed(w, cfg, s, more)
      {
        if Admissible(w, cfg, more) && NoDisconnect(more) {
          ForgottenRun(w, cfg, s, more);
        }
      }
    }
  }

  /**
   In every run, a session that waits for balances, positions, open orders or trades has a
   continuation that goes on without a fault if and only if the response is there, its request is
   still to be sent, or a reply is under way.
   */
  lemma CanPassIff(cfg: Settings, es: seq<Event>)
    requires Admissible(INIT, cfg, es)
    ensures var w := Exec(INIT, cfg, es);
            var s := w.dc.stage;
            w.fault.None? && Downloads(s) ==>
              ((exists more :: Passed(w, cfg, s, more)) <==> ReplyCanCome(w, s))
  {
    var w := Exec(INIT, cfg, es);
    ShapeRunFrom(INIT, cfg, es);
    if w.fault.None? && Downloads(w.dc.stage) {
      CanPassFrom(cfg, w, w.dc.stage);
    }
    hide Passed;
  }
}
