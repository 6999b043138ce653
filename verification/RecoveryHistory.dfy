/**
 What the drop copy knows, from the events alone: its ping interval is that of the first token, its
 query that of the latest one, and its pings are those that the ticks since the welcome ask for.
 */
module RecoveryHistory {
  import opened Wrappers
  import opened Recovery
  import opened RecoveryEffects
  import opened RecoveryReplies
  import opened RecoveryRuns
  import opened RecoverySession
  import opened RecoveryShape
  import RecoveryPing
  import RecoveryToken
  import Ping

  // --- reference definitions: events, latest last ---

  /** The event brings a good token. */
  predicate Brings(e: Event) {
    e.TokenReply? && HasBody(e.token) && Usable(e.token.body.value)
  }

  /** The ping interval of the first token; zero before there is one. */
  function FirstInterval(es: seq<Event>): nat {
    if es == [] then 0
    else
      var last := es[|es| - 1];
      var before := FirstInterval(es[..|es| - 1]);
      if before == 0 && Brings(last) then last.token.body.value.pingInterval else before
  }

  /** The text of the latest token. */
  function LatestToken(es: seq<Event>): string {
    if es == [] then ""
    else
      var last := es[|es| - 1];
      if Brings(last) then last.token.body.value.token else LatestToken(es[..|es| - 1])
  }

  /** The latest connection has been welcomed and is still up. */
  predicate IsWelcomed(es: seq<Event>) {
    es != [] &&
    var last := es[|es| - 1];
    last.DropWelcome? || (!last.DropConnected? && !last.DropDisconnected? && IsWelcomed(es[..|es| - 1]))
  }

  /** The times of the ticks that the latest connection took after its welcome. */
  function SessionTicks(es: seq<Event>): seq<int> {
    if es == [] then []
    else
      var init, last := es[..|es| - 1], es[|es| - 1];
      if last.DropConnected? then []
      else if last.DropTimer? && last.tick.refreshed && IsWelcomed(init) then SessionTicks(init) + [last.tick.now]
      else SessionTicks(init)
  }

  /** When the latest connection came up. */
  function ConnectedAt(es: seq<Event>): int {
    if es == [] then 0
    else
      var last := es[|es| - 1];
      if last.DropConnected? then last.origin else ConnectedAt(es[..|es| - 1])
  }

  // --- the drop copy agrees with them ---

  predicate KnowsToken(w: World, interval: nat, token: string) {
    && (w.created <==> interval > 0)
    && (if w.created then w.dc.pingFrequency == interval && (w.dc.query == "" || w.dc.query == "?token=" + token)
        else w.dc == NewDrop("", 0))
  }

  predicate KnowsSession(w: World, cfg: Settings, welcomed: bool, ticks: seq<int>, connected: int) {
    && w.dc.welcome == welcomed && w.dc.ticks == ticks
    && (w.link != DOWN ==> w.dc.logonTimeout == connected + cfg.requestTimeout)
  }

  ghost predicate Agrees(w: World, cfg: Settings, es: seq<Event>) {
    && Shape(w)
    && KnowsToken(w, FirstInterval(es), LatestToken(es))
    && KnowsSession(w, cfg, IsWelcomed(es), SessionTicks(es), ConnectedAt(es))
  }

  /** Events other than these leave token, interval and session of the drop copy alone. */
  lemma OthersLeave(w: World, cfg: Settings, e: Event)
    requires Shape(w) && Enabled(w, e)
    requires !e.TokenReply? && !e.DropTimer? && !e.DropConnected? && !e.DropDisconnected? && !e.DropWelcome? && !e.DropError?
    ensures var v := Step(w, cfg, e);
            && v.created == w.created && (!w.created ==> v.dc == w.dc)
            && v.dc.query == w.dc.query && v.dc.pingFrequency == w.dc.pingFrequency
            && v.dc.welcome == w.dc.welcome && v.dc.ticks == w.dc.ticks && v.dc.logonTimeout == w.dc.logonTimeout
            && (v.link != DOWN ==> w.link != DOWN)
  {
    hide RestOnTimer;
    match e
    case DropAck(id) =>
      hide Check;
      if id.Some? {
        CheckOnly(Core(w.dc, w.req.Log(Acked(id.value)), None), cfg, id.value);
      }
    case DropReady =>
    case _ => RecoveryToken.RestKeepsDrop(w, cfg, e);
  }

  /** What a step does to interval and query. */
  lemma TokenStep(w: World, cfg: Settings, e: Event, interval: nat, token: string)
    requires Shape(w) && KnowsToken(w, interval, token) && Enabled(w, e)
    ensures KnowsToken(Step(w, cfg, e),
                       if interval == 0 && Brings(e) then e.token.body.value.pingInterval else interval,
                       if Brings(e) then e.token.body.value.token else token)
  {
    match e
    case TokenReply(reply) =>
      if Brings(e) {
        GoodTokenEffect(w, cfg, reply);
      } else {
        NoTokenEffect(w, cfg, reply);
      }
    case DropTimer(t) =>
      TickSchedules(w, cfg, t);
      TickQuery(w, cfg, t);
    case DropConnected(origin) => ConnectStarts(w, cfg, origin);
    case DropDisconnected => DisconnectResets(w, cfg);
    case DropWelcome => WelcomeSubscribes(w, cfg);
    case DropError(expired) => ErrorRefreshesIff(w, cfg, expired);
    case _ => OthersLeave(w, cfg, e);
    hide Step;
  }

  /** What a step does to the session. */
  lemma SessionStep(w: World, cfg: Settings, e: Event, welcomed: bool, ticks: seq<int>, connected: int)
    requires Shape(w) && KnowsSession(w, cfg, welcomed, ticks, connected) && Enabled(w, e)
    requires !w.created ==> w.dc == NewDrop("", 0)
    ensures KnowsSession(Step(w, cfg, e), cfg,
                         e.DropWelcome? || (!e.DropConnected? && !e.DropDisconnected? && welcomed),
                         if e.DropConnected? then []
                         else if e.DropTimer? && e.tick.refreshed && welcomed then ticks + [e.tick.now]
                         else ticks,
                         if e.DropConnected? then e.origin else connected)
  {
    match e
    case TokenReply(reply) =>
      if Brings(e) {
        GoodTokenEffect(w, cfg, reply);
      } else {
        NoTokenEffect(w, cfg, reply);
      }
    case DropTimer(t) => TickSchedules(w, cfg, t);
    case DropConnected(origin) => ConnectStarts(w, cfg, origin);
    case DropDisconnected => DisconnectResets(w, cfg);
    case DropWelcome => WelcomeSubscribes(w, cfg);
    case DropError(expired) => ErrorRefreshesIff(w, cfg, expired);
    case _ => OthersLeave(w, cfg, e);
  }

  lemma {:induction false} AgreesRun(cfg: Settings, es: seq<Event>)
    requires Admissible(INIT, cfg, es)
    ensures Agrees(Exec(INIT, cfg, es), cfg, es)
  {
    if es != [] {
      var init, last := es[..|es| - 1], es[|es| - 1];
      Split(INIT, cfg, es);
      AgreesRun(cfg, init);
      var w := Exec(INIT, cfg, init);
      hide Exec;
      ShapeStep(w, cfg, last);
      TokenStep(w, cfg, last, FirstInterval(init), LatestToken(init));
      SessionStep(w, cfg, last, IsWelcomed(init), SessionTicks(init), ConnectedAt(init));
      hide Step;
      hide KnowsToken;
      hide KnowsSession;
      hide Shape;
    }
  }

  // --- main results ---

  /**
   In every run there is a drop copy from the first good token on. Its ping interval is always the
   one of that token, and its query is empty or asks for the latest token.
   */
  lemma IntervalAndQuery(cfg: Settings, es: seq<Event>)
    requires Admissible(INIT, cfg, es)
    ensures var w := Exec(INIT, cfg, es);
            && (w.created <==> exists e :: e in es && Brings(e))
            && (w.created ==>
                  && w.dc.pingFrequency == FirstInterval(es) > 0
                  && (w.dc.query == "" || w.dc.query == "?token=" + LatestToken(es)))
  {
    AgreesRun(cfg, es);
    FirstIntervalIff(es);
  }

  lemma {:induction false} FirstIntervalIff(es: seq<Event>)
    ensures FirstInterval(es) > 0 <==> exists e :: e in es && Brings(e)
  {
    if es != [] {
      var init, last := es[..|es| - 1], es[|es| - 1];
      FirstIntervalIff(init);
      assert es == init + [last];
      if Brings(last) {
        assert last in es;
      }
    }
  }

  /**
   In every run the pings of a session are those that its ticks since the welcome ask for, at the
   interval of the first token, within both bounds; and the logon timeout of a connection is set
   from the time it came up.
   */
  lemma DropCopyPings(cfg: Settings, es: seq<Event>)
    requires Admissible(INIT, cfg, es)
    ensures var w := Exec(INIT, cfg, es);
            var pings := RecoveryPing.Pings(w.req.session);
            && pings == Ping.PingsOf(SessionTicks(es), FirstInterval(es))
            && Ping.Punctual(SessionTicks(es), pings, FirstInterval(es))
            && (w.created ==> FirstInterval(es) > 0)
            && (w.link != DOWN ==> w.dc.logonTimeout == ConnectedAt(es) + cfg.requestTimeout)
  {
    AgreesRun(cfg, es);
    RecoveryPing.PingsFollowTicks(cfg, es);
    hide Ping.Punctual;
  }
}
