/**
 The account recovery protocol: `DropCopy` (websocket) and `OrderEntryREST` (HTTP) communicate
 through one shared `Request` object. This module gives each handler as a function on values and
 puts the handlers together as a transition system over arbitrary interleavings of events.
 The classes that update their fields in place are in `RecoveryActors`; every one of their
 methods is proved to compute the function of the same name here.
 */
module Recovery {
  import opened Wrappers
  import opened LimitRequest
  import Ping

  // --- values ---

  /** (user_id, order_id) */
  datatype Key = Key(user: nat, order: nat)

  datatype Status = NO_STATUS | DISCONNECTED | LOGIN_SENT | DOWNLOADING | READY

  /** `DropCopy::State` */
  datatype Stage =
    | UNDEFINED
    | SUBSCRIBE_BALANCES
    | GET_BALANCES
    | SUBSCRIBE_POSITIONS
    | GET_POSITIONS
    | SUBSCRIBE_ORDERS
    | GET_OPEN_ORDERS
    | GET_STALE_ORDERS
    | GET_TRADES
    | DONE

  function Rank(s: Stage): nat {
    match s
    case UNDEFINED => 0
    case SUBSCRIBE_BALANCES => 1
    case GET_BALANCES => 2
    case SUBSCRIBE_POSITIONS => 3
    case GET_POSITIONS => 4
    case SUBSCRIBE_ORDERS => 5
    case GET_OPEN_ORDERS => 6
    case GET_STALE_ORDERS => 7
    case GET_TRADES => 8
    case DONE => 9
  }

  function Next(s: Stage): (t: Stage)
    requires s != DONE
    ensures Rank(t) == Rank(s) + 1
  {
    match s
    case UNDEFINED => SUBSCRIBE_BALANCES
    case SUBSCRIBE_BALANCES => GET_BALANCES
    case GET_BALANCES => SUBSCRIBE_POSITIONS
    case SUBSCRIBE_POSITIONS => GET_POSITIONS
    case GET_POSITIONS => SUBSCRIBE_ORDERS
    case SUBSCRIBE_ORDERS => GET_OPEN_ORDERS
    case GET_OPEN_ORDERS => GET_STALE_ORDERS
    case GET_STALE_ORDERS => GET_TRADES
    case GET_TRADES => DONE
  }

  predicate IsSubscribe(s: Stage) {
    s.SUBSCRIBE_BALANCES? || s.SUBSCRIBE_POSITIONS? || s.SUBSCRIBE_ORDERS?
  }

  /** The six slots of `Request`. */
  datatype Name = PRIVATE_TOKEN | BALANCES | POSITIONS | OPEN_ORDERS | STALE_ORDERS | TRADES

  predicate IsGet(s: Stage) {
    s.GET_BALANCES? || s.GET_POSITIONS? || s.GET_OPEN_ORDERS? || s.GET_STALE_ORDERS? || s.GET_TRADES?
  }

  /** The slot that a GET stage waits for. */
  function SlotOf(s: Stage): Name
    requires IsGet(s)
  {
    match s
    case GET_BALANCES => BALANCES
    case GET_POSITIONS => POSITIONS
    case GET_OPEN_ORDERS => OPEN_ORDERS
    case GET_STALE_ORDERS => STALE_ORDERS
    case GET_TRADES => TRADES
  }

  /** What either actor does during one websocket session, in order. */
  datatype Entry =
    | Published(status: Status)
    | Welcomed
    | Subscribed(stage: Stage)
    | Acked(stage: Stage)
    | Requested(name: Name)
    | Committed(name: Name)
    | StaleTested(nonEmpty: bool)
    | PingSent(time: int)
    | Suspended
    | Resumed
    | Closed

  /** The shared object, with the history of the session and of the stale-order queue. */
  datatype Requests = Requests(
    privateToken: Slot,
    balances: Slot,
    positions: Slot,
    openOrders: Slot,
    staleOrders: Slot,
    trades: Slot,
    stale: set<Key>,
    session: seq<Entry>,
    queued: multiset<Key>)
  {
    function Get(n: Name): Slot {
      match n
      case PRIVATE_TOKEN => privateToken
      case BALANCES => balances
      case POSITIONS => positions
      case OPEN_ORDERS => openOrders
      case STALE_ORDERS => staleOrders
      case TRADES => trades
    }

    function Put(n: Name, s: Slot): Requests {
      match n
      case PRIVATE_TOKEN => this.(privateToken := s)
      case BALANCES => this.(balances := s)
      case POSITIONS => this.(positions := s)
      case OPEN_ORDERS => this.(openOrders := s)
      case STALE_ORDERS => this.(staleOrders := s)
      case TRADES => this.(trades := s)
    }

    function Log(e: Entry): Requests {
      this.(session := session + [e])
    }

    function Ask(n: Name): Requests {
      Put(n, Get(n).Request()).Log(Requested(n))
    }

    function Commit(n: Name): Requests {
      Put(n, Get(n).Commit()).Log(Committed(n))
    }

    function Consume(n: Name): Requests {
      Put(n, Get(n).Consume())
    }

    /** `check_stale_orders()`: insert every reported order that is not yet queued. */
    function Queue(orders: set<Key>): Requests {
      this.(stale := stale + orders, queued := queued + multiset(orders - stale))
    }
  }

  const NO_REQUESTS :=
    Requests(EMPTY_SLOT, EMPTY_SLOT, EMPTY_SLOT, EMPTY_SLOT, EMPTY_SLOT, EMPTY_SLOT, {}, [], multiset{})

  function Keys(orders: seq<Key>): set<Key> {
    set k | k in orders
  }

  /** A refresh request, an accepted token, and the `resume` of the connection. */
  datatype TokenEntry = Refreshed | Accepted(query: string) | Continued

  /**
   The fields of `DropCopy`; `stage` and `waiting` are the state of its `core::Download2`. The
   history: token events ever, and the timer ticks of the session that found it open and welcomed.
   */
  datatype Drop = Drop(
    welcome: bool,
    ready: bool,
    status: Status,
    query: string,
    stage: Stage,
    waiting: nat,
    pingFrequency: nat,
    logonTimeout: int,
    nextPing: int,
    nextSimulated: int,
    nextStaleCheck: int,
    tokens: seq<TokenEntry>,
    ticks: seq<int>)

  function NewDrop(query: string, pingFrequency: nat): Drop {
    Drop(false, false, NO_STATUS, query, UNDEFINED, 0, pingFrequency, 0, 0, 0, 0, [], [])
  }

  /** Zero switches an optional period off, as in the source. */
  datatype Settings = Settings(
    tradesLookback: nat,
    crashOnExpiredToken: bool,
    simulateExpiredToken: nat,
    requestTimeout: nat,
    checkStaleOrderFreq: nat)

  /** Ways in which `log::fatal` ends the process. */
  datatype Fault =
    | STALE_NOT_EMPTY
    | COUNTER_ZERO
    | EXPIRED_TOKEN
    | REDIRECTED
    | BAD_TOKEN

  datatype Core = Core(dc: Drop, req: Requests, fault: Option<Fault>)

  // --- DropCopy ---

  /** `DropCopy::download`, the callback for one stage: 0 to go on, n to wait for n checks. */
  function Callback(c: Core, cfg: Settings, s: Stage): (Core, nat)
    requires s != UNDEFINED
  {
    var busy := c.(dc := c.dc.(status := DOWNLOADING));
    if IsSubscribe(s) then
      (busy.(req := c.req.Log(Published(DOWNLOADING)).Log(Subscribed(s))), 1)
    else if s == GET_STALE_ORDERS then
      if c.req.stale == {} then (c.(req := c.req.Log(StaleTested(false))), 0)
      else (busy.(req := c.req.Log(StaleTested(true)).Log(Published(DOWNLOADING)).Ask(STALE_ORDERS)), 1)
    else if s == GET_TRADES && cfg.tradesLookback == 0 then
      (c, 0)
    else if s == DONE then
      (c.(dc := c.dc.(status := READY, ready := true), req := c.req.Log(Published(READY))), 0)
    else
      (busy.(req := c.req.Log(Published(DOWNLOADING)).Ask(SlotOf(s))), 1)
  }

  /** `core::Download2` enters `stage`: it runs the callback, and goes on while that returns 0. */
  function Enter(c: Core, cfg: Settings, stage: Stage): Core
    requires stage != UNDEFINED
    decreases Rank(DONE) - Rank(stage)
  {
    var (d, n) := Callback(c.(dc := c.dc.(stage := stage)), cfg, stage);
    if n == 0 && stage != DONE then Enter(d, cfg, Next(stage))
    else d.(dc := d.dc.(waiting := n))
  }

  /** `download_.check(s)`: counts only for the current stage, and the last count advances; DONE is final. */
  function Check(c: Core, cfg: Settings, s: Stage): Core {
    if c.dc.stage != s || c.dc.waiting == 0 || s == DONE then c
    else if c.dc.waiting > 1 then c.(dc := c.dc.(waiting := c.dc.waiting - 1))
    else Enter(c.(dc := c.dc.(waiting := 0)), cfg, Next(s))
  }

  function CheckRequestQueue(c: Core, cfg: Settings, scan: seq<Key>): Core {
    var s := c.dc.stage;
    if !IsGet(s) || !c.req.Get(SlotOf(s)).response then c
    else
      var d := c.(req := c.req.Consume(SlotOf(s)));
      if s == GET_OPEN_ORDERS then Check(d.(req := d.req.Queue(Keys(scan))), cfg, s)
      else if s == GET_STALE_ORDERS && d.req.stale != {} then d.(fault := Some(STALE_NOT_EMPTY))
      else Check(d, cfg, s)
  }

  /** The periodic `check_stale_orders(trace_info)`. */
  function CheckStaleOrders(c: Core, cfg: Settings, origin: int, scan: seq<Key>): Core {
    if c.dc.nextStaleCheck < origin then
      var d := c.(dc := c.dc.(nextStaleCheck := origin + cfg.checkStaleOrderFreq), req := c.req.Queue(Keys(scan)));
      if Keys(scan) <= c.req.stale then d else d.(req := d.req.Ask(STALE_ORDERS))
    else c
  }

  function RequestPrivateToken(c: Core): Core {
    if c.dc.query == "" then c
    else
      c.(dc := c.dc.(query := "", tokens := c.dc.tokens + [Refreshed]),
         req := c.req.Log(Suspended).Ask(PRIVATE_TOKEN))
  }

  function SendPing(c: Core, now: int): Core {
    c.(dc := c.dc.(nextPing := Ping.Next(now, c.dc.pingFrequency)), req := c.req.Log(PingSent(now)))
  }

  /** The timer of a connection that is open. */
  function PingTimer(c: Core, now: int): Core {
    if !c.dc.welcome then c
    else
      var d := c.(dc := c.dc.(ticks := c.dc.ticks + [now]));
      if Ping.Due(c.dc.nextPing, now) then SendPing(d, now) else d
  }

  /** One timer event, with what the dispatcher reports as stale at the two scans. */
  datatype Tick = Tick(now: int, origin: int, refreshed: bool, openScan: seq<Key>, periodicScan: seq<Key>)

  function WhenOpen(c: Core, cfg: Settings, t: Tick): Core {
    var c1 := PingTimer(c, t.now);
    var c2 := CheckRequestQueue(c1, cfg, t.openScan);
    if c2.fault.Some? || c2.dc.status != READY then c2
    else CheckStaleOrders(c2, cfg, t.origin, t.periodicScan)
  }

  function Simulate(c: Core, now: int): Core {
    if c.dc.nextSimulated != 0 && c.dc.nextSimulated < now then
      RequestPrivateToken(c.(dc := c.dc.(nextSimulated := 0)))
    else c
  }

  function OnTimer(c: Core, cfg: Settings, t: Tick, open: bool): Core {
    if !t.refreshed then c
    else
      var c1 :=
        if open then WhenOpen(c, cfg, t)
        else if c.dc.logonTimeout != 0 && c.dc.logonTimeout < t.now then c.(req := c.req.Log(Closed))
        else c;
      if c1.fault.Some? then c1 else Simulate(c1.(req := c1.req.Consume(PRIVATE_TOKEN)), t.now)
  }

  function OnPrivateToken(c: Core, query: string): Core {
    if query != "" && c.dc.query != query then
      c.(dc := c.dc.(query := query, tokens := c.dc.tokens + [Accepted(query), Continued]), req := c.req.Log(Resumed))
    else c
  }

  /** A new connection starts a new session history. */
  function OnConnected(c: Core, cfg: Settings, origin: int): Core {
    c.(dc := c.dc.(
         ticks := [],
         logonTimeout := origin + cfg.requestTimeout,
         nextSimulated := if cfg.simulateExpiredToken != 0 then origin + cfg.simulateExpiredToken else c.dc.nextSimulated),
       req := c.req.(session := []))
  }

  function OnDisconnected(c: Core): Core {
    c.(dc := c.dc.(ready := false, status := DISCONNECTED, stage := UNDEFINED, waiting := 0,
                   welcome := false, logonTimeout := 0, nextPing := 0),
       req := c.req.Log(Published(DISCONNECTED)))
  }

  function OnReady(c: Core): Core {
    c.(dc := c.dc.(status := LOGIN_SENT), req := c.req.Log(Published(LOGIN_SENT)))
  }

  function OnWelcome(c: Core, cfg: Settings): Core {
    Enter(c.(dc := c.dc.(welcome := true), req := c.req.Log(Welcomed)), cfg, SUBSCRIBE_BALANCES)
  }

  function OnError(c: Core, cfg: Settings, expired: bool): Core {
    if !expired then c
    else if cfg.crashOnExpiredToken then c.(fault := Some(EXPIRED_TOKEN))
    else RequestPrivateToken(c)
  }

  /** `id` is the stage that the echoed identifier names, if it names one. */
  function OnAck(c: Core, cfg: Settings, id: Option<Stage>): Core {
    match id
    case None => c
    case Some(s) => Check(c.(req := c.req.Log(Acked(s))), cfg, s)
  }

  // --- OrderEntryREST ---

  /** `OrderEntryREST::State` */
  datatype RestStage = REST_UNDEFINED | REST_PRIVATE_TOKEN | REST_DONE

  /**
   The fields of `OrderEntryREST`, the callbacks that its web client still holds (`replies` per
   slot, `calls` per queried order), and the history of the order queries.
   */
  datatype Rest = Rest(
    status: Status,
    stage: RestStage,
    hasToken: bool,
    counter: nat,
    replies: multiset<Name>,
    calls: multiset<Key>,
    sent: multiset<Key>,
    reported: multiset<Key>,
    answered: multiset<Key>,
    lost: multiset<Key>)

  const NEW_REST :=
    Rest(NO_STATUS, REST_UNDEFINED, false, 0, multiset{}, multiset{}, multiset{}, multiset{}, multiset{}, multiset{})

  /** A REST response by category; `None` is a body that cannot be decoded. */
  datatype Reply<+B> =
    | Informational(ok: bool)
    | Success(body: Option<B>)
    | Redirection
    | ClientError(body: Option<B>)
    | ServerError
    | NetworkFailure

  datatype Handled<+B> = Body(value: B) | Failed | Ignored | Fatal

  /** `process_response`: which of the two handlers runs. */
  function ProcessResponse<B>(reply: Reply<B>): Handled<B> {
    match reply
    case Informational(ok) => if ok then Ignored else Failed
    case Success(body) => if body.Some? then Body(body.value) else Failed
    case Redirection => Fatal
    case ClientError(body) => if body.Some? then Body(body.value) else Failed
    case ServerError => Failed
    case NetworkFailure => Failed
  }

  datatype Token = Token(accepted: bool, servers: bool, token: string, pingInterval: nat)

  /** `fmt::format("?token={}")` */
  function Query(token: string): string {
    "?token=" + token
  }

  /** A token with which a connection can be made. */
  predicate Usable(t: Token) {
    t.accepted && t.servers && t.pingInterval > 0
  }

  /** The response has a body that can be decoded: a success or a client error. */
  predicate HasBody<B>(reply: Reply<B>) {
    (reply.Success? || reply.ClientError?) && reply.body.Some?
  }

  datatype RestCore = RestCore(rest: Rest, req: Requests, fault: Option<Fault>)

  function Send(r: RestCore, n: Name): RestCore {
    r.(rest := r.rest.(replies := r.rest.replies + multiset{n}))
  }

  /** The download callback of the REST client, and what it skips. */
  function RestEnter(r: RestCore): RestCore {
    if r.rest.hasToken then r.(rest := r.rest.(stage := REST_DONE, status := READY))
    else Send(r.(rest := r.rest.(stage := REST_PRIVATE_TOKEN, status := DOWNLOADING)), PRIVATE_TOKEN)
  }

  function RestOnDisconnected(r: RestCore): RestCore {
    r.(rest := r.rest.(status := DISCONNECTED, stage := REST_UNDEFINED))
  }

  /** `check_pending` for a slot whose callback sends one request. */
  function CheckPending(r: RestCore, n: Name, allowed: set<Name>): RestCore {
    if r.req.Get(n).Fires(n in allowed) then
      Send(r.(req := r.req.Put(n, r.req.Get(n).CheckPending(true))), n)
    else r
  }

  /** `check_pending` for the stale orders: one query for each order the dispatcher knows. */
  function CheckPendingStale(r: RestCore, allowed: set<Name>, known: set<Key>): RestCore {
    if r.req.staleOrders.Fires(STALE_ORDERS in allowed) then
      var found := r.req.stale * known;
      var missing := r.req.stale - known;
      r.(rest := r.rest.(counter := r.rest.counter + |found|,
                         calls := r.rest.calls + multiset(found),
                         sent := r.rest.sent + multiset(found),
                         reported := r.rest.reported + multiset(missing)),
         req := r.req.(staleOrders := r.req.staleOrders.CheckPending(true), stale := {}))
    else r
  }

  function RestOnTimer(r: RestCore, refreshed: bool, allowed: set<Name>, known: set<Key>): RestCore {
    if refreshed && r.rest.status == READY then
      var r1 := CheckPending(r, PRIVATE_TOKEN, allowed);
      var r2 := CheckPending(r1, BALANCES, allowed);
      var r3 := CheckPending(r2, POSITIONS, allowed);
      var r4 := CheckPending(r3, OPEN_ORDERS, allowed);
      var r5 := CheckPendingStale(r4, allowed, known);
      CheckPending(r5, TRADES, allowed)
    else r
  }

  function Received(r: RestCore, n: Name): RestCore {
    r.(rest := r.rest.(replies := r.rest.replies - multiset{n}))
  }

  /** The end of the initial token download, if that is under way. */
  function Downloaded(r: Rest): Rest {
    var done := r.stage == REST_PRIVATE_TOKEN;
    r.(stage := if done then REST_DONE else r.stage, status := if done then READY else r.status, hasToken := true)
  }

  /** What in a token response ends the process. */
  function TokenFault(reply: Reply<Token>): Option<Fault> {
    match ProcessResponse(reply)
    case Fatal => Some(REDIRECTED)
    case Body(t) => if t.accepted && t.servers && t.pingInterval != 0 then None else Some(BAD_TOKEN)
    case _ => None
  }

  /** The token that `get_private_token_ack` hands to the controller, if any. */
  function Delivered(reply: Reply<Token>): Option<Token> {
    var h := ProcessResponse(reply);
    if h.Body? && TokenFault(reply).None? then Some(h.value) else None
  }

  function OnTokenReply(r: RestCore, reply: Reply<Token>): RestCore {
    var r0 := Received(r, PRIVATE_TOKEN);
    match TokenFault(reply)
    case Some(_) => r0.(fault := TokenFault(reply))
    case None =>
      r0.(rest := if Delivered(reply).Some? then Downloaded(r0.rest) else r0.rest, req := r0.req.Commit(PRIVATE_TOKEN))
  }

  /** `get_account_ack`, `get_positions_ack`, `get_orders_ack` and `get_fills_ack`. */
  function OnSlotReply(r: RestCore, n: Name, reply: Reply<()>): RestCore {
    var r0 := Received(r, n);
    if ProcessResponse(reply).Fatal? then r0.(fault := Some(REDIRECTED))
    else r0.(req := r0.req.Commit(n))
  }

  datatype OrderBody = OrderUnknown | OrderRecord | OrderRejected

  /** `get_order_ack` */
  function OnOrderReply(r: RestCore, k: Key, reply: Reply<OrderBody>): RestCore {
    var r0 := r.(rest := r.rest.(calls := r.rest.calls - multiset{k}, answered := r.rest.answered + multiset{k}));
    if ProcessResponse(reply).Fatal? then r0.(fault := Some(REDIRECTED))
    else if r0.rest.counter == 0 then r0.(fault := Some(COUNTER_ZERO))
    else
      var r1 := r0.(rest := r0.rest.(counter := r0.rest.counter - 1));
      if r1.rest.counter == 0 then r1.(req := r1.req.Commit(STALE_ORDERS)) else r1
  }

  // --- both actors, and the connections they run on ---

  datatype Link = DOWN | CONNECTED | OPEN

  /** `created`: the controller creates `DropCopy` when the first token arrives. */
  datatype World = World(
    dc: Drop,
    req: Requests,
    rest: Rest,
    created: bool,
    link: Link,
    restUp: bool,
    fault: Option<Fault>)

  const INIT := World(NewDrop("", 0), NO_REQUESTS, NEW_REST, false, DOWN, false, None)

  datatype Event =
    | DropConnected(origin: nat)
    | DropReady
    | DropWelcome
    | DropAck(id: Option<Stage>)
    | DropError(expired: bool)
    | DropDisconnected
    | DropTimer(tick: Tick)
    | RestConnected
    | RestDisconnected
    | RestRetry
    | RestTimer(refreshed: bool, allowed: set<Name>, known: set<Key>)
    | TokenReply(token: Reply<Token>)
    | SlotReply(name: Name, reply: Reply<()>)
    | OrderReply(key: Key, order: Reply<OrderBody>)
    | LostReply(name: Name)
    | LostCall(key: Key)

  /**
   Assumed contract of the connections: connects and disconnects alternate, text arrives on an
   open socket only, there is at most one welcome per session, the exchange acknowledges
   subscriptions only, and every REST callback comes after its request, at most once.
   */
  predicate Enabled(w: World, e: Event) {
    w.fault.None? &&
    match e
    case DropConnected(_) => w.created && w.link == DOWN
    case DropReady => w.link == CONNECTED
    case DropWelcome => w.link == OPEN && !w.dc.welcome
    case DropAck(id) => w.link == OPEN && (id.Some? ==> IsSubscribe(id.value))
    case DropError(_) => w.link == OPEN
    case DropDisconnected => w.link != DOWN
    case DropTimer(_) => w.created
    case RestConnected => !w.restUp
    case RestDisconnected => w.restUp
    case RestRetry => w.rest.stage == REST_PRIVATE_TOKEN
    case RestTimer(_, _, _) => true
    case TokenReply(_) => PRIVATE_TOKEN in w.rest.replies
    case SlotReply(n, _) => n in w.rest.replies && n != PRIVATE_TOKEN && n != STALE_ORDERS
    case OrderReply(k, _) => k in w.rest.calls
    case LostReply(n) => n in w.rest.replies
    case LostCall(k) => k in w.rest.calls
  }

  function DropSide(w: World): Core {
    Core(w.dc, w.req, None)
  }

  function RestSide(w: World): RestCore {
    RestCore(w.rest, w.req, None)
  }

  function WithDrop(w: World, c: Core): World {
    w.(dc := c.dc, req := c.req, fault := c.fault)
  }

  function WithRest(w: World, r: RestCore): World {
    w.(rest := r.rest, req := r.req, fault := r.fault)
  }

  /** The controller creates the drop copy for the first token and forwards later ones. */
  function Deliver(w: World, t: Option<Token>): World {
    if t.None? then w
    else if !w.created then w.(dc := NewDrop(Query(t.value.token), t.value.pingInterval), created := true)
    else WithDrop(w, OnPrivateToken(DropSide(w), Query(t.value.token)))
  }

  function Step(w: World, cfg: Settings, e: Event): World
    requires Enabled(w, e)
  {
    match e
    case DropConnected(origin) => WithDrop(w, OnConnected(DropSide(w), cfg, origin)).(link := CONNECTED)
    case DropReady => WithDrop(w, OnReady(DropSide(w))).(link := OPEN)
    case DropWelcome => WithDrop(w, OnWelcome(DropSide(w), cfg))
    case DropAck(id) => WithDrop(w, OnAck(DropSide(w), cfg, id))
    case DropError(expired) => WithDrop(w, OnError(DropSide(w), cfg, expired))
    case DropDisconnected => WithDrop(w, OnDisconnected(DropSide(w))).(link := DOWN)
    case DropTimer(tick) => WithDrop(w, OnTimer(DropSide(w), cfg, tick, w.link == OPEN))
    case RestConnected => WithRest(w, RestEnter(RestSide(w))).(restUp := true)
    case RestDisconnected => WithRest(w, RestOnDisconnected(RestSide(w))).(restUp := false)
    case RestRetry => WithRest(w, RestEnter(RestSide(w)))
    case RestTimer(refreshed, allowed, known) => WithRest(w, RestOnTimer(RestSide(w), refreshed, allowed, known))
    case TokenReply(reply) =>
      var v := Deliver(w, Delivered(reply));
      WithRest(v, OnTokenReply(RestSide(v), reply))
    case SlotReply(n, reply) => WithRest(w, OnSlotReply(RestSide(w), n, reply))
    case OrderReply(k, reply) => WithRest(w, OnOrderReply(RestSide(w), k, reply))
    case LostReply(n) => WithRest(w, Received(RestSide(w), n))
    case LostCall(k) =>
      w.(rest := w.rest.(calls := w.rest.calls - multiset{k}, lost := w.rest.lost + multiset{k}))
  }

  // --- runs ---

  /** Every event of `es` can happen when it is its turn. */
  predicate Admissible(w: World, cfg: Settings, es: seq<Event>)
    decreases |es|
  {
    es != [] ==> Enabled(w, es[0]) && Admissible(Step(w, cfg, es[0]), cfg, es[1..])
  }

  function Exec(w: World, cfg: Settings, es: seq<Event>): World
    requires Admissible(w, cfg, es)
    decreases |es|
  {
    if es == [] then w else Exec(Step(w, cfg, es[0]), cfg, es[1..])
  }
}
