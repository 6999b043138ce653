/**
 The periodic scan for stale orders, over whole runs: when it happens, what it asks for, and that
 two scans are more than the period apart.
 */
module RecoveryScans {
  import opened Wrappers
  import opened LimitRequest
  import opened Recovery
  import opened RecoveryEffects
  import opened RecoveryShape
  import Ping

  /** A tick that finds the connection open and leaves the session ready. */
  predicate ReadyTick(w: World, cfg: Settings, e: Event)
    requires Enabled(w, e)
  {
    e.DropTimer? && OpenTick(w, e.tick) && var v := Step(w, cfg, e); v.fault.None? && v.dc.ready
  }

  function TickTime(w: World, cfg: Settings, e: Event): seq<int>
    requires Enabled(w, e)
  {
    if ReadyTick(w, cfg, e) then [e.tick.origin] else []
  }

  /** The times of these ticks over a run. */
  function ReadyTimes(w: World, cfg: Settings, es: seq<Event>): seq<int>
    requires Admissible(w, cfg, es)
    decreases |es|
  {
    if es == [] then []
    else TickTime(w, cfg, es[0]) + ReadyTimes(Step(w, cfg, es[0]), cfg, es[1..])
  }

  /** The time after which the next scan is due; the first is due at once, as times are positive. */
  function DueAfter(scans: seq<int>, period: nat): int {
    if scans == [] then 0 else scans[|scans| - 1] + period
  }

  /** The ready ticks at which a scan is due. */
  function Scans(times: seq<int>, period: nat): seq<int> {
    if times == [] then []
    else
      var before := Scans(times[..|times| - 1], period);
      var now := times[|times| - 1];
      if DueAfter(before, period) < now then before + [now] else before
  }

  /** The scans of a run. */
  function ScansOf(cfg: Settings, es: seq<Event>): seq<int>
    requires Admissible(INIT, cfg, es)
  {
    Scans(ReadyTimes(INIT, cfg, es), cfg.checkStaleOrderFreq)
  }

  lemma {:induction false} ScansAreApart(times: seq<int>, period: nat)
    ensures Ping.Spaced(Scans(times, period), period)
  {
    if times != [] {
      ScansAreApart(times[..|times| - 1], period);
    }
  }

  lemma ScansExtend(times: seq<int>, now: int, period: nat)
    ensures Scans(times + [now], period) ==
            if DueAfter(Scans(times, period), period) < now then Scans(times, period) + [now] else Scans(times, period)
  {
    assert (times + [now])[..|times|] == times;
  }

  // --- the schedule ---

  lemma OpenSchedule(c: Core, cfg: Settings, t: Tick)
    requires c.fault.None?
    ensures var d := WhenOpen(c, cfg, t);
            d.dc.nextStaleCheck ==
            if d.fault.None? && d.dc.status == READY && c.dc.nextStaleCheck < t.origin
            then t.origin + cfg.checkStaleOrderFreq else c.dc.nextStaleCheck
  {
    var c1 := PingTimer(c, t.now);
    PingTimerFrame(c, t.now);
    hide PingTimer;
    QueueOnly(c1, cfg, t.openScan);
    hide CheckRequestQueue;
  }

  lemma TickSchedule(w: World, cfg: Settings, t: Tick)
    requires Shape(w) && Enabled(w, DropTimer(t))
    ensures var v := Step(w, cfg, DropTimer(t));
            v.dc.nextStaleCheck ==
            if ReadyTick(w, cfg, DropTimer(t)) && w.dc.nextStaleCheck < t.origin
            then t.origin + cfg.checkStaleOrderFreq else w.dc.nextStaleCheck
  {
    var c := DropSide(w);
    TimerShape(c, cfg, t, w.link);
    if t.refreshed && w.link == OPEN {
      OpenSchedule(c, cfg, t);
      AfterOpen(c, cfg, t);
      hide OnTimer;
    }
    hide WhenOpen;
  }

  /** Nothing but a ready tick moves the schedule. */
  lemma OtherSchedule(w: World, cfg: Settings, e: Event)
    requires Enabled(w, e) && !e.DropTimer? && (!w.created ==> w.dc.nextStaleCheck == 0)
    ensures Step(w, cfg, e).dc.nextStaleCheck == w.dc.nextStaleCheck
  {
    hide RestOnTimer;
    hide Enter;
    hide Check;
    match e
    case DropWelcome =>
      var c := DropSide(w);
      EnterOnly(c.(dc := c.dc.(welcome := true), req := c.req.Log(Welcomed)), cfg, SUBSCRIBE_BALANCES);
    case DropAck(id) =>
      if id.Some? {
        CheckOnly(Core(w.dc, w.req.Log(Acked(id.value)), None), cfg, id.value);
      }
    case _ =>
  }

  /** The schedule is the one of the scans so far. */
  predicate Scheduled(w: World, cfg: Settings, times: seq<int>) {
    && w.dc.nextStaleCheck == DueAfter(Scans(times, cfg.checkStaleOrderFreq), cfg.checkStaleOrderFreq)
    && (!w.created ==> times == [])
  }

  lemma ScheduledStep(w: World, cfg: Settings, times: seq<int>, e: Event)
    requires Shape(w) && Scheduled(w, cfg, times) && Enabled(w, e)
    ensures Scheduled(Step(w, cfg, e), cfg, times + TickTime(w, cfg, e))
  {
    assert times + [] == times;
    if e.DropTimer? {
      TickSchedule(w, cfg, e.tick);
      ScansExtend(times, e.tick.origin, cfg.checkStaleOrderFreq);
      hide OnTimer;
    } else {
      OtherSchedule(w, cfg, e);
      CreatedStays(w, cfg, e);
      hide Step;
    }
    hide Scans;
  }

  lemma CreatedStays(w: World, cfg: Settings, e: Event)
    requires Enabled(w, e)
    ensures w.created ==> Step(w, cfg, e).created
  {
  }

  lemma {:induction false} ScheduledRun(w: World, cfg: Settings, times: seq<int>, es: seq<Event>)
    requires Shape(w) && Scheduled(w, cfg, times) && Admissible(w, cfg, es)
    ensures Scheduled(Exec(w, cfg, es), cfg, times + ReadyTimes(w, cfg, es))
    decreases |es|
  {
    hide Shape;
    hide Scheduled;
    hide Step;
    hide TickTime;
    if es == [] {
      assert times + [] == times;
    } else {
      var now := TickTime(w, cfg, es[0]);
      ShapeStep(w, cfg, es[0]);
      ScheduledStep(w, cfg, times, es[0]);
      ScheduledRun(Step(w, cfg, es[0]), cfg, times + now, es[1..]);
      assert times + now + ReadyTimes(Step(w, cfg, es[0]), cfg, es[1..]) == times + ReadyTimes(w, cfg, es);
    }
  }

  // --- main results ---

  /** A scan in a session that is ready. */
  lemma ReadyOpen(c: Core, cfg: Settings, t: Tick)
    requires c.fault.None? && c.dc.stage == DONE && c.dc.status == READY
    ensures var d := WhenOpen(c, cfg, t);
            var stale := c.req.stale + if c.dc.nextStaleCheck < t.origin then (set k | k in t.periodicScan) else {};
            && d.fault.None? && d.dc.stage == DONE && d.dc.status == READY && d.dc.ready == c.dc.ready
            && d.req.stale == stale
            && (forall n: Name :: n != STALE_ORDERS ==> d.req.Get(n) == c.req.Get(n))
            && d.req.staleOrders == if stale != c.req.stale then Slot(true, false) else c.req.staleOrders
  {
    var c1 := PingTimer(c, t.now);
    PingTimerFrame(c, t.now);
    hide PingTimer;
    var found := set k | k in t.periodicScan;
    assert Keys(t.periodicScan) == found;
    if found <= c.req.stale {
      assert c.req.stale + found == c.req.stale;
    } else {
      var k :| k in found && k !in c.req.stale;
      assert k in c.req.stale + found;
    }
    assert c.req.stale + {} == c.req.stale;
  }

  /**
   In every run, a tick of a session that is ready scans exactly if the period has passed since the
   last scan of the run. It then queues every order that is reported and asks for the stale orders
   if and only if the queue grew; otherwise queue, slot and schedule are unchanged.
   */
  lemma PeriodicScan(cfg: Settings, es: seq<Event>, t: Tick)
    requires Admissible(INIT, cfg, es)
    ensures var w := Exec(INIT, cfg, es);
            OpenTick(w, t) && w.dc.ready ==>
              var v := Step(w, cfg, DropTimer(t));
              var scans := ScansOf(cfg, es);
              var due := if scans == [] then 0 < t.origin else scans[|scans| - 1] + cfg.checkStaleOrderFreq < t.origin;
              && (due <==> w.dc.nextStaleCheck < t.origin)
              && v.fault.None? && v.dc.ready
              && v.req.stale == w.req.stale + (if due then (set k | k in t.periodicScan) else {})
              && v.req.staleOrders == (if v.req.stale != w.req.stale then Slot(true, false) else w.req.staleOrders)
              && (forall n: Name :: n != PRIVATE_TOKEN && n != STALE_ORDERS ==> v.req.Get(n) == w.req.Get(n))
              && v.dc.nextStaleCheck == if due then t.origin + cfg.checkStaleOrderFreq else w.dc.nextStaleCheck
  {
    hide OnTimer;
    hide WhenOpen;
    hide Scans;
    var w := Exec(INIT, cfg, es);
    ShapeRunFrom(INIT, cfg, es);
    assert Scans([], cfg.checkStaleOrderFreq) == [] by { NoScans(cfg.checkStaleOrderFreq); }
    ScheduledRun(INIT, cfg, [], es);
    assert [] + ReadyTimes(INIT, cfg, es) == ReadyTimes(INIT, cfg, es);
    if OpenTick(w, t) && w.dc.ready {
      ReadyOpen(DropSide(w), cfg, t);
      AfterOpen(DropSide(w), cfg, t);
      TickSchedule(w, cfg, t);
    }
  }

  lemma NoScans(period: nat)
    ensures Scans([], period) == []
  {
  }

  /** In every run, two periodic scans are more than the period apart. */
  lemma ScansAreSpaced(cfg: Settings, es: seq<Event>)
    requires Admissible(INIT, cfg, es)
    ensures Ping.Spaced(ScansOf(cfg, es), cfg.checkStaleOrderFreq)
  {
    ScansAreApart(ReadyTimes(INIT, cfg, es), cfg.checkStaleOrderFreq);
  }
}
