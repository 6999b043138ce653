/**
 Market data streams: the controller creates one stream per slice of the symbol list, and every
 stream subscribes its slice when it is welcomed and what is added to the slice later. Handlers
 as functions on values, runs over arbitrary interleavings, and what every run keeps.
 The classes are in `MarketActors`.
 */
module Market {
  import opened Symbols
  import Ping

  datatype Topic = TICKER | EXECUTION | INSTRUMENT | SNAPSHOT | ANNOUNCEMENT | LEVEL2

  /** One subscription message of the queue. */
  datatype Message = Message(id: nat, topic: Topic, symbol: Symbol)

  datatype Link = DOWN | CONNECTED | OPEN

  const REQUEST_ID: nat := 1_000_000

  /**
   The fields of `MarketData` (`ready`: its connection status is READY), with its connection,
   the messages enqueued in the session, all messages ever enqueued, the number of welcomes, and
   the session's ready ticks and pings.
   */
  datatype Stream = Stream(
    streamId: nat,
    index: nat,
    pingFrequency: nat,
    welcome: bool,
    ready: bool,
    requestId: nat,
    logonTimeout: int,
    nextPing: int,
    link: Link,
    session: seq<Message>,
    history: seq<Message>,
    sessions: nat,
    ticks: seq<int>,
    pings: seq<int>)

  function NewStream(id: nat, index: nat, pingFrequency: nat): Stream {
    Stream(id, index, pingFrequency, false, false, id * REQUEST_ID, 0, 0, DOWN, [], [], 0, [], [])
  }

  // --- MarketData ---

  /** The messages of `subscribe(topic, symbols)` that follow request number `id`. */
  function Messages(id: nat, topic: Topic, xs: seq<Symbol>): seq<Message> {
    seq(|xs|, i requires 0 <= i < |xs| => Message(id + 1 + i, topic, xs[i]))
  }

  function SubscribeTopic(s: Stream, topic: Topic, xs: seq<Symbol>): Stream {
    var ms := Messages(s.requestId, topic, xs);
    s.(requestId := s.requestId + |xs|, session := s.session + ms, history := s.history + ms)
  }

  function SubscribeSymbols(s: Stream, xs: seq<Symbol>): Stream {
    if xs == [] then s
    else
      SubscribeTopic(SubscribeTopic(SubscribeTopic(SubscribeTopic(SubscribeTopic(SubscribeTopic(
        s, TICKER, xs), EXECUTION, xs), INSTRUMENT, xs), SNAPSHOT, xs), ANNOUNCEMENT, xs), LEVEL2, xs)
  }

  /** `subscribe(start_from)` */
  function Subscribe(s: Stream, list: seq<Symbol>, k: nat, from: nat): Stream {
    if s.ready then SubscribeSymbols(s, Slice(list, k, s.index, from)) else s
  }

  function OnConnected(s: Stream, timeout: int): Stream {
    s.(logonTimeout := timeout, link := CONNECTED)
  }

  function OnReady(s: Stream): Stream {
    s.(link := OPEN)
  }

  function OnWelcome(s: Stream, list: seq<Symbol>, k: nat): Stream {
    Subscribe(s.(welcome := true, ready := true, sessions := s.sessions + 1), list, k, 0)
  }

  function OnDisconnected(s: Stream): Stream {
    s.(welcome := false, ready := false, logonTimeout := 0, nextPing := 0, link := DOWN,
       session := [], ticks := [], pings := [])
  }

  function OnTimer(s: Stream, now: int, refreshed: bool): Stream {
    if refreshed && s.link == OPEN && s.welcome then
      var u := s.(ticks := s.ticks + [now]);
      if Ping.Due(s.nextPing, now) then
        u.(nextPing := Ping.Next(now, s.pingFrequency), pings := s.pings + [now])
      else u
    else s
  }

  // --- Controller and Rest ---

  /** The shared list and set, the streams in creation order, and the 16-bit stream ids issued. */
  datatype Market = Market(
    list: seq<Symbol>,
    all: set<Symbol>,
    streams: seq<Stream>,
    lastId: nat,
    issued: seq<nat>)

  /** `++stream_id_` on `uint16_t` */
  function NextId(id: nat): nat {
    (id + 1) % 0x1_0000
  }

  function Issue(m: Market): Market {
    m.(lastId := NextId(m.lastId), issued := m.issued + [NextId(m.lastId)])
  }

  function EnsureSymbolSlices(m: Market, size: nat, pingFrequency: nat): Market
    decreases size - |m.streams|
  {
    if |m.streams| < size then
      var n := Issue(m);
      EnsureSymbolSlices(n.(streams := n.streams + [NewStream(n.lastId, |m.streams|, pingFrequency)]), size, pingFrequency)
    else m
  }

  function SubscribeEach(streams: seq<Stream>, list: seq<Symbol>, k: nat, from: nat): seq<Stream> {
    seq(|streams|, i requires 0 <= i < |streams| => Subscribe(streams[i], list, k, from))
  }

  function OnSymbolsUpdate(m: Market, k: nat, pingFrequency: nat, xs: seq<Symbol>): Market
    requires k > 0
  {
    var list := m.list + xs;
    var n := EnsureSymbolSlices(m.(list := list), NumSlices(|list|, k), pingFrequency);
    n.(streams := SubscribeEach(n.streams, list, k, |m.list|))
  }

  function OnSubscribe(m: Market, k: nat, pingFrequency: nat, items: seq<Symbol>): Market
    requires k > 0
  {
    OnSymbolsUpdate(m.(all := m.all + SetOf(items)), k, pingFrequency, NewSymbols(m.all, items))
  }

  datatype Contract = Contract(symbol: Symbol, discard: bool)

  /** The symbols that the dispatcher does not discard. */
  function Kept(contracts: seq<Contract>): seq<Symbol> {
    if contracts == [] then []
    else
      var last := contracts[|contracts| - 1];
      Kept(contracts[..|contracts| - 1]) + if last.discard then [] else [last.symbol]
  }

  function OnContracts(m: Market, k: nat, pingFrequency: nat, contracts: seq<Contract>): Market
    requires k > 0
  {
    var items := Kept(contracts);
    var xs := NewSymbols(m.all, items);
    var n := m.(all := m.all + SetOf(items));
    if xs == [] then n else OnSymbolsUpdate(n, k, pingFrequency, xs)
  }

  // --- runs ---

  datatype Settings = Settings(maxSubscriptionsPerStream: nat, pingFrequency: nat)

  predicate Usable(cfg: Settings) {
    cfg.maxSubscriptionsPerStream > 0
  }

  /** The controller starts with the streams of its constructor, which take the first ids. */
  function FirstIds(n: nat): seq<nat> {
    seq(n, i => (i + 1) % 0x1_0000)
  }

  function Init(others: nat): Market {
    Market([], {}, [], others % 0x1_0000, FirstIds(others))
  }

  datatype Event =
    | ClientSubscribe(items: seq<Symbol>)
    | ContractsAck(contracts: seq<Contract>)
    | OtherStream
    | Connected(i: nat, timeout: int)
    | Opened(i: nat)
    | Welcomed(i: nat)
    | Disconnected(i: nat)
    | Timer(i: nat, now: int, refreshed: bool)

  /** Connects and disconnects alternate; at most one welcome per session, on an open socket. */
  predicate Enabled(m: Market, e: Event) {
    match e
    case ClientSubscribe(_) => true
    case ContractsAck(_) => true
    case OtherStream => true
    case Connected(i, _) => i < |m.streams| && m.streams[i].link == DOWN
    case Opened(i) => i < |m.streams| && m.streams[i].link == CONNECTED
    case Welcomed(i) => i < |m.streams| && m.streams[i].link == OPEN && !m.streams[i].welcome
    case Disconnected(i) => i < |m.streams| && m.streams[i].link != DOWN
    case Timer(i, _, _) => i < |m.streams|
  }

  function WithStream(m: Market, i: nat, s: Stream): Market
    requires i < |m.streams|
  {
    m.(streams := m.streams[i := s])
  }

  function Step(m: Market, cfg: Settings, e: Event): Market
    requires Usable(cfg) && Enabled(m, e)
  {
    var k := cfg.maxSubscriptionsPerStream;
    match e
    case ClientSubscribe(items) => OnSubscribe(m, k, cfg.pingFrequency, items)
    case ContractsAck(contracts) => OnContracts(m, k, cfg.pingFrequency, contracts)
    case OtherStream => Issue(m)
    case Connected(i, timeout) => WithStream(m, i, OnConnected(m.streams[i], timeout))
    case Opened(i) => WithStream(m, i, OnReady(m.streams[i]))
    case Welcomed(i) => WithStream(m, i, OnWelcome(m.streams[i], m.list, k))
    case Disconnected(i) => WithStream(m, i, OnDisconnected(m.streams[i]))
    case Timer(i, now, refreshed) => WithStream(m, i, OnTimer(m.streams[i], now, refreshed))
  }

  predicate Admissible(m: Market, cfg: Settings, es: seq<Event>)
    requires Usable(cfg)
    decreases |es|
  {
    es != [] ==> Enabled(m, es[0]) && Admissible(Step(m, cfg, es[0]), cfg, es[1..])
  }

  function Exec(m: Market, cfg: Settings, es: seq<Event>): Market
    requires Usable(cfg) && Admissible(m, cfg, es)
    decreases |es|
  {
    if es == [] then m else Exec(Step(m, cfg, es[0]), cfg, es[1..])
  }
}
