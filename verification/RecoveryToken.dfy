/**
 The private token over whole runs: refresh requests and accepted tokens alternate, and exactly
 when a refresh can still bring a token.
 */
module RecoveryToken {
  import opened Wrappers
  import opened Recovery
  import opened RecoveryRuns
  import opened RecoveryShape

  /** The query is empty exactly while the latest token event is a refresh request. */
  predicate TokenShape(d: Drop) {
    && (d.query == "" <==> d.tokens != [] && d.tokens[|d.tokens| - 1].Refreshed?)
    && Alternates(d.tokens)
  }

  /** A refresh request is followed by an accepted token only, and that by a resume. */
  predicate Alternates(t: seq<TokenEntry>) {
    && (forall i :: 0 <= i < |t| - 1 && t[i].Refreshed? ==> t[i + 1].Accepted?)
    && (forall i :: 0 <= i < |t| && t[i].Accepted? ==> i + 1 < |t| && t[i + 1].Continued?)
  }

  predicate TokenInv(w: World) {
    && Shape(w)
    && (w.fault.None? && w.created ==> TokenShape(w.dc))
  }

  /** Handlers other than the three below leave query and token history alone. */
  predicate SameToken(d: Drop, e: Drop) {
    e.query == d.query && e.tokens == d.tokens && e.nextSimulated == d.nextSimulated
  }

  lemma RefreshToken(c: Core)
    requires TokenShape(c.dc)
    ensures TokenShape(RequestPrivateToken(c).dc)
  {
  }

  lemma AcceptToken(c: Core, query: string)
    requires TokenShape(c.dc) && query != ""
    ensures TokenShape(OnPrivateToken(c, query).dc)
    ensures OnPrivateToken(c, query).dc.query == query
    ensures c.dc.query == "" ==> OnPrivateToken(c, query).dc.tokens == c.dc.tokens + [Accepted(query), Continued]
  {
  }

  lemma EnterToken(c: Core, cfg: Settings, stage: Stage)
    requires stage != UNDEFINED
    ensures SameToken(c.dc, Enter(c, cfg, stage).dc) && Enter(c, cfg, stage).req.privateToken == c.req.privateToken
    decreases Rank(DONE) - Rank(stage)
  {
  }

  lemma CheckToken(c: Core, cfg: Settings, s: Stage)
    ensures SameToken(c.dc, Check(c, cfg, s).dc) && Check(c, cfg, s).req.privateToken == c.req.privateToken
  {
    if s != UNDEFINED && s != DONE {
      EnterToken(c.(dc := c.dc.(waiting := 0)), cfg, Next(s));
    } else if s == UNDEFINED {
      EnterToken(c.(dc := c.dc.(waiting := 0)), cfg, SUBSCRIBE_BALANCES);
    }
  }

  lemma QueueToken(c: Core, cfg: Settings, scan: seq<Key>)
    ensures var d := CheckRequestQueue(c, cfg, scan);
            SameToken(c.dc, d.dc) && d.req.privateToken == c.req.privateToken
  {
    hide Check;
    if IsGet(c.dc.stage) {
      var d := c.(req := c.req.Consume(SlotOf(c.dc.stage)));
      CheckToken(d, cfg, c.dc.stage);
      CheckToken(d.(req := d.req.Queue(Keys(scan))), cfg, c.dc.stage);
    }
  }

  lemma OpenToken(c: Core, cfg: Settings, t: Tick)
    ensures var d := WhenOpen(c, cfg, t);
            SameToken(c.dc, d.dc) && d.req.privateToken == c.req.privateToken
  {
    hide CheckRequestQueue;
    var c1 := PingTimer(c, t.now);
    PingTimerFrame(c, t.now);
    hide PingTimer;
    QueueToken(c1, cfg, t.openScan);
  }

  lemma TimerToken(c: Core, cfg: Settings, t: Tick, open: bool)
    requires TokenShape(c.dc)
    ensures TokenShape(OnTimer(c, cfg, t, open).dc)
  {
    hide WhenOpen;
    OpenToken(c, cfg, t);
    if t.refreshed {
      var c1 := if open then WhenOpen(c, cfg, t)
                else if c.dc.logonTimeout != 0 && c.dc.logonTimeout < t.now then c.(req := c.req.Log(Closed))
                else c;
      var c2 := c1.(req := c1.req.Consume(PRIVATE_TOKEN));
      RefreshToken(c2.(dc := c2.dc.(nextSimulated := 0)));
    }
  }

  lemma TokenStep(w: World, cfg: Settings, e: Event)
    requires TokenInv(w) && Enabled(w, e)
    ensures TokenInv(Step(w, cfg, e))
  {
    ShapeStep(w, cfg, e);
    if OfDrop(e) {
      DropToken(w, cfg, e);
    } else if e.TokenReply? {
      var t := Delivered(e.token);
      if t.Some? && w.created {
        AcceptToken(DropSide(w), Query(t.value.token));
      }
    } else {
      RestKeepsDrop(w, cfg, e);
    }
  }

  lemma RestKeepsDrop(w: World, cfg: Settings, e: Event)
    requires Enabled(w, e) && !OfDrop(e) && !e.TokenReply?
    ensures Step(w, cfg, e).dc == w.dc && Step(w, cfg, e).created == w.created
  {
  }

  lemma DropToken(w: World, cfg: Settings, e: Event)
    requires TokenInv(w) && Enabled(w, e) && OfDrop(e)
    ensures TokenShape(Step(w, cfg, e).dc)
  {
    match e
    case DropTimer(t) => TimerToken(DropSide(w), cfg, t, w.link == OPEN);
    case DropWelcome =>
      var c := DropSide(w);
      EnterToken(c.(dc := c.dc.(welcome := true), req := c.req.Log(Welcomed)), cfg, SUBSCRIBE_BALANCES);
    case DropAck(id) =>
      if id.Some? {
        CheckToken(Core(w.dc, w.req.Log(Acked(id.value)), None), cfg, id.value);
      }
    case DropError(_) => RefreshToken(DropSide(w));
    case _ =>
  }

  lemma {:induction false} TokenRunFrom(w: World, cfg: Settings, es: seq<Event>)
    requires TokenInv(w) && Admissible(w, cfg, es)
    ensures TokenInv(Exec(w, cfg, es))
    decreases |es|
  {
    if es != [] {
      TokenStep(w, cfg, es[0]);
      TokenRunFrom(Step(w, cfg, es[0]), cfg, es[1..]);
    }
  }

  /** In every run: the query is empty iff the latest token event is a refresh request. */
  lemma QueryEmptyIffRefreshing(cfg: Settings, es: seq<Event>)
    requires Admissible(INIT, cfg, es)
    ensures var w := Exec(INIT, cfg, es);
            w.fault.None? && w.created ==>
              (w.dc.query == "" <==> w.dc.tokens != [] && w.dc.tokens[|w.dc.tokens| - 1].Refreshed?)
  {
    TokenRunFrom(INIT, cfg, es);
  }

  /** In every run: between two refresh requests a token is accepted and the connection resumed. */
  lemma RefreshesAlternate(cfg: Settings, es: seq<Event>, i: nat, j: nat)
    requires Admissible(INIT, cfg, es)
    requires Exec(INIT, cfg, es).fault.None? && Exec(INIT, cfg, es).created
    requires i < j < |Exec(INIT, cfg, es).dc.tokens|
    requires Exec(INIT, cfg, es).dc.tokens[i].Refreshed? && Exec(INIT, cfg, es).dc.tokens[j].Refreshed?
    ensures var t := Exec(INIT, cfg, es).dc.tokens;
            i + 2 < j && t[i + 1].Accepted? && t[i + 2].Continued?
  {
    TokenRunFrom(INIT, cfg, es);
    var t := Exec(INIT, cfg, es).dc.tokens;
    assert t[i + 1].Accepted? && t[i + 2].Continued?;
  }

  /** Every token that is delivered ends an outstanding refresh. */
  lemma DeliveryEndsRefresh(w: World, cfg: Settings, reply: Reply<Token>)
    requires TokenInv(w) && Enabled(w, TokenReply(reply)) && w.created && w.dc.query == "" && Delivered(reply).Some?
    ensures var v := Step(w, cfg, TokenReply(reply));
            && v.fault.None? && v.dc.query == Query(Delivered(reply).value.token) && v.dc.query != ""
            && v.dc.tokens == w.dc.tokens + [Accepted(v.dc.query), Continued]
            && v.req.session == w.req.session + [Resumed] + [Committed(PRIVATE_TOKEN)]
  {
  }

  // --- a failed refresh ---

  /** The token was cleared and nothing that is pending can bring a new one. */
  predicate RefreshFailed(w: World) {
    && w.created && w.dc.query == ""
    && !w.req.privateToken.wanted && PRIVATE_TOKEN !in w.rest.replies
  }

  lemma TimerFailed(c: Core, cfg: Settings, t: Tick, open: bool)
    requires c.dc.query == "" && !c.req.privateToken.wanted
    ensures var d := OnTimer(c, cfg, t, open);
            d.dc.query == "" && d.dc.tokens == c.dc.tokens && !d.req.privateToken.wanted
  {
    hide WhenOpen;
    OpenToken(c, cfg, t);
  }

  lemma DropFailed(w: World, cfg: Settings, e: Event)
    requires TokenInv(w) && RefreshFailed(w) && Enabled(w, e) && OfDrop(e)
    ensures RefreshFailed(Step(w, cfg, e)) && Step(w, cfg, e).dc.tokens == w.dc.tokens
  {
    hide OnTimer;
    match e
    case DropTimer(t) => TimerFailed(DropSide(w), cfg, t, w.link == OPEN);
    case DropWelcome =>
      var c := DropSide(w);
      EnterToken(c.(dc := c.dc.(welcome := true), req := c.req.Log(Welcomed)), cfg, SUBSCRIBE_BALANCES);
    case DropAck(id) =>
      if id.Some? {
        CheckToken(Core(w.dc, w.req.Log(Acked(id.value)), None), cfg, id.value);
      }
    case _ =>
  }

  lemma PendingFailed(r: RestCore, n: Name, allowed: set<Name>)
    requires n != STALE_ORDERS && !r.req.privateToken.wanted && PRIVATE_TOKEN !in r.rest.replies
    ensures var q := CheckPending(r, n, allowed);
            !q.req.privateToken.wanted && PRIVATE_TOKEN !in q.rest.replies
  {
  }

  lemma RestTimerFailed(r: RestCore, refreshed: bool, allowed: set<Name>, known: set<Key>)
    requires !r.req.privateToken.wanted && PRIVATE_TOKEN !in r.rest.replies
    ensures var q := RestOnTimer(r, refreshed, allowed, known);
            !q.req.privateToken.wanted && PRIVATE_TOKEN !in q.rest.replies
  {
    hide CheckPending;
    if refreshed && r.rest.status == READY {
      var r1 := CheckPending(r, PRIVATE_TOKEN, allowed);
      PendingFailed(r, PRIVATE_TOKEN, allowed);
      var r2 := CheckPending(r1, BALANCES, allowed);
      PendingFailed(r1, BALANCES, allowed);
      var r3 := CheckPending(r2, POSITIONS, allowed);
      PendingFailed(r2, POSITIONS, allowed);
      var r4 := CheckPending(r3, OPEN_ORDERS, allowed);
      PendingFailed(r3, OPEN_ORDERS, allowed);
      PendingFailed(CheckPendingStale(r4, allowed, known), TRADES, allowed);
    }
  }

  lemma ReplyFailed(r: RestCore, e: Event)
    requires !r.req.privateToken.wanted && PRIVATE_TOKEN !in r.rest.replies
    requires e.SlotReply? || e.OrderReply?
    requires e.SlotReply? ==> e.name != PRIVATE_TOKEN
    ensures var q := if e.SlotReply? then OnSlotReply(r, e.name, e.reply) else OnOrderReply(r, e.key, e.order);
            !q.req.privateToken.wanted && PRIVATE_TOKEN !in q.rest.replies
  {
  }

  lemma RestFailed(w: World, cfg: Settings, e: Event)
    requires TokenInv(w) && RefreshFailed(w) && Enabled(w, e) && !OfDrop(e)
    ensures RefreshFailed(Step(w, cfg, e)) && Step(w, cfg, e).dc.tokens == w.dc.tokens
  {
    hide RestOnTimer;
    hide OnSlotReply;
    hide OnOrderReply;
    match e
    case RestTimer(refreshed, allowed, known) => RestTimerFailed(RestSide(w), refreshed, allowed, known);
    case SlotReply(_, _) => ReplyFailed(RestSide(w), e);
    case OrderReply(_, _) => ReplyFailed(RestSide(w), e);
    case _ =>
  }

  /**
   A refresh with nothing wanted and nothing under way is final: from then on the query stays empty
   and no further refresh is ever requested, whatever happens, including new sessions, repeated
   expiry errors and reconnects of the REST client.
   */
  lemma {:induction false} FailedRefreshIsFinal(w: World, cfg: Settings, es: seq<Event>)
    requires TokenInv(w) && w.fault.None? && RefreshFailed(w) && Admissible(w, cfg, es)
    ensures var v := Exec(w, cfg, es); v.dc.query == "" && v.dc.tokens == w.dc.tokens
    decreases |es|
  {
    if es != [] {
      var e := es[0];
      TokenStep(w, cfg, e);
      if OfDrop(e) {
        DropFailed(w, cfg, e);
      } else {
        RestFailed(w, cfg, e);
      }
      if Step(w, cfg, e).fault.None? {
        FailedRefreshIsFinal(Step(w, cfg, e), cfg, es[1..]);
      }
    }
  }

  // --- settings under which no refresh is ever requested ---

  /** The expired-token error ends the process, and no expiry is simulated. */
  predicate NeverRefreshes(cfg: Settings) {
    cfg.crashOnExpiredToken && cfg.simulateExpiredToken == 0
  }

  predicate Unexpired(w: World) {
    w.dc.nextSimulated == 0 && (w.created ==> w.dc.query != "")
  }

  lemma UnexpiredTimer(c: Core, cfg: Settings, t: Tick, open: bool)
    requires c.dc.nextSimulated == 0
    ensures SameToken(c.dc, OnTimer(c, cfg, t, open).dc)
  {
    hide WhenOpen;
    OpenToken(c, cfg, t);
  }

  lemma UnexpiredStep(w: World, cfg: Settings, e: Event)
    requires NeverRefreshes(cfg) && Unexpired(w) && Enabled(w, e)
    ensures Unexpired(Step(w, cfg, e))
  {
    if OfDrop(e) {
      hide OnTimer;
      match e
      case DropTimer(t) => UnexpiredTimer(DropSide(w), cfg, t, w.link == OPEN);
      case DropWelcome =>
        var c := DropSide(w);
        EnterToken(c.(dc := c.dc.(welcome := true), req := c.req.Log(Welcomed)), cfg, SUBSCRIBE_BALANCES);
      case DropAck(id) =>
        if id.Some? {
          CheckToken(Core(w.dc, w.req.Log(Acked(id.value)), None), cfg, id.value);
        }
      case _ =>
    } else if !e.TokenReply? {
      RestKeepsDrop(w, cfg, e);
    }
  }

  lemma {:induction false} UnexpiredRun(w: World, cfg: Settings, es: seq<Event>)
    requires NeverRefreshes(cfg) && Unexpired(w) && Admissible(w, cfg, es)
    ensures Unexpired(Exec(w, cfg, es))
    decreases |es|
  {
    if es != [] {
      UnexpiredStep(w, cfg, es[0]);
      UnexpiredRun(Step(w, cfg, es[0]), cfg, es[1..]);
    }
  }

  // --- otherwise it can succeed ---

  ghost predicate GetsToken(w: World, cfg: Settings, more: seq<Event>) {
    Admissible(w, cfg, more) && var v := Exec(w, cfg, more); v.fault.None? && v.dc.query != ""
  }

  /** Send the request that is wanted, whatever the state of the REST client. */
  lemma SendRefresh(cfg: Settings, w: World) returns (v: World)
    requires TokenInv(w) && w.fault.None? && w.created && w.req.privateToken.wanted
    ensures Leads(cfg, w, v) && TokenInv(v) && v.fault.None? && v.created && v.dc == w.dc
    ensures PRIVATE_TOKEN in v.rest.replies
  {
    Stay(cfg, w);
    var u := MakeReady(cfg, w, w);
    OnlyServes(RestSide(u), PRIVATE_TOKEN);
    hide RestOnTimer;
    v := Then(cfg, w, u, RestTimer(true, {PRIVATE_TOKEN}, {}));
  }

  lemma RefreshSucceeds(cfg: Settings, w: World) returns (more: seq<Event>)
    requires TokenInv(w) && w.fault.None? && w.created && w.dc.query == ""
    requires w.req.privateToken.wanted || PRIVATE_TOKEN in w.rest.replies
    ensures GetsToken(w, cfg, more)
  {
    var v := w;
    if PRIVATE_TOKEN in w.rest.replies {
      Stay(cfg, w);
    } else {
      v := SendRefresh(cfg, w);
    }
    var reply := Success(Some(Token(true, true, "t", 2)));
    DeliveryEndsRefresh(v, cfg, reply);
    var u := Then(cfg, w, v, TokenReply(reply));
    more :| Admissible(w, cfg, more) && NoDisconnect(more) && Exec(w, cfg, more) == u;
  }

  lemma CanRefreshFrom(cfg: Settings, w: World)
    requires TokenInv(w) && w.fault.None? && w.created && w.dc.query == ""
    ensures (exists more :: GetsToken(w, cfg, more)) <==> w.req.privateToken.wanted || PRIVATE_TOKEN in w.rest.replies
  {
    if RefreshFailed(w) {
      forall more | Admissible(w, cfg, more)
        ensures !GetsToken(w, cfg, more)
      {
        FailedRefreshIsFinal(w, cfg, more);
      }
    } else {
      var more := RefreshSucceeds(cfg, w);
      assert GetsToken(w, cfg, more);
    }
  }

  /**
   In every run, while a refresh is outstanding some continuation brings a token if and only if the
   request is still wanted or a reply to one is still under way.
   */
  lemma CanRefreshIff(cfg: Settings, es: seq<Event>)
    requires Admissible(INIT, cfg, es)
    ensures var w := Exec(INIT, cfg, es);
            w.fault.None? && w.created && w.dc.query == "" ==>
              ((exists more :: GetsToken(w, cfg, more)) <==>
               w.req.privateToken.wanted || PRIVATE_TOKEN in w.rest.replies)
  {
    var w := Exec(INIT, cfg, es);
    TokenRunFrom(INIT, cfg, es);
    if w.fault.None? && w.created && w.dc.query == "" {
      CanRefreshFrom(cfg, w);
    }
    hide GetsToken;
  }

  /**
   An answer that brings no token (an error, a body that cannot be decoded, a network failure)
   ends the refresh for good unless the request is wanted again or another reply is under way.
   */
  lemma AnswerWithoutTokenIff(cfg: Settings, es: seq<Event>, reply: Reply<Token>)
    requires Admissible(INIT, cfg, es)
    ensures var w := Exec(INIT, cfg, es);
            && w.fault.None? && w.created && w.dc.query == "" && PRIVATE_TOKEN in w.rest.replies
            && Delivered(reply).None? && Step(w, cfg, TokenReply(reply)).fault.None? ==>
              ((exists more :: GetsToken(Step(w, cfg, TokenReply(reply)), cfg, more)) <==>
               w.req.privateToken.wanted || w.rest.replies[PRIVATE_TOKEN] > 1)
  {
    var w := Exec(INIT, cfg, es);
    TokenRunFrom(INIT, cfg, es);
    hide GetsToken;
    if w.fault.None? && w.created && w.dc.query == "" && PRIVATE_TOKEN in w.rest.replies
       && Delivered(reply).None? && Step(w, cfg, TokenReply(reply)).fault.None? {
      TokenStep(w, cfg, TokenReply(reply));
      TokenAnswered(w, cfg, reply);
      hide Step;
      hide TokenInv;
      CanRefreshFrom(cfg, Step(w, cfg, TokenReply(reply)));
    }
  }

  lemma TokenAnswered(w: World, cfg: Settings, reply: Reply<Token>)
    requires Enabled(w, TokenReply(reply)) && Delivered(reply).None?
    ensures var v := Step(w, cfg, TokenReply(reply));
            && v.dc == w.dc && v.created == w.created && v.req.privateToken.wanted == w.req.privateToken.wanted
            && v.rest.replies == w.rest.replies - multiset{PRIVATE_TOKEN}
  {
  }
}
