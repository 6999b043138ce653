/** What every run of the market data streams keeps. */
module Subscriptions {
  import opened Symbols
  import opened Market
  import Ping

  /** The symbols of the messages for one topic, in the order in which they were enqueued. */
  function ForTopic(ms: seq<Message>, t: Topic): seq<Symbol> {
    if ms == [] then []
    else
      var last := ms[|ms| - 1];
      ForTopic(ms[..|ms| - 1], t) + if last.topic == t then [last.symbol] else []
  }

  // --- one stream ---

  /** Ids number the messages of a stream from its first id. */
  predicate Numbered(s: Stream) {
    && s.requestId == s.streamId * REQUEST_ID + |s.history|
    && (forall i :: 0 <= i < |s.history| ==> s.history[i].id == s.streamId * REQUEST_ID + 1 + i)
  }

  /** The session holds `xs` once for each topic, in order, and nothing else. */
  predicate Holds(s: Stream, xs: seq<Symbol>) {
    && (forall t: Topic :: ForTopic(s.session, t) == xs)
    && |s.session| == 6 * |xs|
  }

  /** No session enqueues more than six messages per place of the slice. */
  predicate Bounded(s: Stream, k: nat) {
    && |s.session| <= |s.history|
    && s.sessions >= (if s.ready then 1 else 0)
    && |s.history| - |s.session| <= 6 * k * (s.sessions - if s.ready then 1 else 0)
  }

  /** The pings of the session are those of its ready ticks. */
  predicate Pinged(s: Stream) {
    && s.pings == Ping.PingsOf(s.ticks, s.pingFrequency)
    && s.nextPing == Ping.Scheduled(s.pings, s.pingFrequency)
    && (!s.welcome ==> s.ticks == [])
  }

  predicate StreamInv(s: Stream, list: seq<Symbol>, k: nat) {
    && (s.welcome <==> s.ready)
    && (s.ready ==> s.link == OPEN)
    && (s.link == DOWN ==> s.logonTimeout == 0)
    && Holds(s, if s.ready then Slice(list, k, s.index, 0) else [])
    && Numbered(s)
    && Bounded(s, k)
    && Pinged(s)
  }

  lemma {:induction false} ForTopicConcat(a: seq<Message>, b: seq<Message>, t: Topic)
    ensures ForTopic(a + b, t) == ForTopic(a, t) + ForTopic(b, t)
  {
    if b == [] {
      assert a + b == a;
    } else {
      ForTopicConcat(a, b[..|b| - 1], t);
      assert (a + b)[..|a + b| - 1] == a + b[..|b| - 1];
    }
  }

  lemma {:induction false} ForTopicMessages(id: nat, topic: Topic, xs: seq<Symbol>, t: Topic)
    ensures ForTopic(Messages(id, topic, xs), t) == if t == topic then xs else []
  {
    if xs != [] {
      var init := xs[..|xs| - 1];
      ForTopicMessages(id, topic, init, t);
      assert Messages(id, topic, xs)[..|xs| - 1] == Messages(id, topic, init);
      assert xs == init + [xs[|xs| - 1]];
    }
  }

  /** Subscribing to one topic appends to that topic only, and numbers on. */
  lemma TopicAppends(s: Stream, topic: Topic, xs: seq<Symbol>)
    ensures var u := SubscribeTopic(s, topic, xs);
            && (forall t: Topic :: ForTopic(u.session, t) == ForTopic(s.session, t) + if t == topic then xs else [])
            && |u.session| == |s.session| + |xs| && |u.history| == |s.history| + |xs|
            && u.requestId == s.requestId + |xs|
            && (Numbered(s) ==> Numbered(u))
            && u == s.(requestId := u.requestId, session := u.session, history := u.history)
  {
    var ms := Messages(s.requestId, topic, xs);
    forall t: Topic
      ensures ForTopic(s.session + ms, t) == ForTopic(s.session, t) + if t == topic then xs else []
    {
      ForTopicConcat(s.session, ms, t);
      ForTopicMessages(s.requestId, topic, xs, t);
    }
  }

  /** Subscribing appends the symbols once for each of the six topics. */
  lemma SymbolsAppend(s: Stream, xs: seq<Symbol>)
    ensures var u := SubscribeSymbols(s, xs);
            && (forall t: Topic :: ForTopic(u.session, t) == ForTopic(s.session, t) + xs)
            && |u.session| == |s.session| + 6 * |xs| && |u.history| == |s.history| + 6 * |xs|
            && (Numbered(s) ==> Numbered(u))
            && u == s.(requestId := u.requestId, session := u.session, history := u.history)
  {
    if xs != [] {
      hide SubscribeTopic;
      hide Numbered;
      TopicAppends(s, TICKER, xs);
      var s1 := SubscribeTopic(s, TICKER, xs);
      TopicAppends(s1, EXECUTION, xs);
      var s2 := SubscribeTopic(s1, EXECUTION, xs);
      TopicAppends(s2, INSTRUMENT, xs);
      var s3 := SubscribeTopic(s2, INSTRUMENT, xs);
      TopicAppends(s3, SNAPSHOT, xs);
      var s4 := SubscribeTopic(s3, SNAPSHOT, xs);
      TopicAppends(s4, ANNOUNCEMENT, xs);
      var s5 := SubscribeTopic(s4, ANNOUNCEMENT, xs);
      TopicAppends(s5, LEVEL2, xs);
    }
  }

  /** A new suffix of the list extends what a ready stream holds to its new slice. */
  lemma SuffixKeeps(s: Stream, list: seq<Symbol>, xs: seq<Symbol>, k: nat)
    requires StreamInv(s, list, k)
    ensures StreamInv(Subscribe(s, list + xs, k, |list|), list + xs, k)
  {
    if s.ready {
      SliceExtends(list, xs, k, s.index);
      SymbolsAppend(s, Slice(list + xs, k, s.index, |list|));
    }
  }

  lemma WelcomeKeeps(s: Stream, list: seq<Symbol>, k: nat)
    requires StreamInv(s, list, k) && !s.ready && s.link == OPEN
    ensures StreamInv(OnWelcome(s, list, k), list, k)
  {
    hide SubscribeSymbols;
    hide Slice;
    var u := s.(welcome := true, ready := true, sessions := s.sessions + 1);
    SymbolsAppend(u, Slice(list, k, s.index, 0));
    assert s.session == [];
    assert Numbered(s) ==> Numbered(u);
  }

  lemma DisconnectKeeps(s: Stream, list: seq<Symbol>, k: nat)
    requires StreamInv(s, list, k)
    ensures StreamInv(OnDisconnected(s), list, k)
  {
    if s.ready {
      SliceLength(list, k, s.index, 0);
      assert |s.session| <= 6 * k;
      OneMoreSession(k, s.sessions);
    }
  }

  lemma NewStreamHolds(id: nat, index: nat, pingFrequency: nat, list: seq<Symbol>, k: nat)
    ensures StreamInv(NewStream(id, index, pingFrequency), list, k)
  {
  }

  // --- all streams ---

  /** The ids issued so far count up modulo 2^16. */
  predicate Issued(m: Market) {
    && m.lastId == |m.issued| % 0x1_0000
    && (forall i :: 0 <= i < |m.issued| ==> m.issued[i] == (i + 1) % 0x1_0000)
  }

  /** The streams took their ids from the issued ones, each a later one. */
  ghost predicate FromIssued(m: Market) {
    exists at: seq<nat> :: Places(m, at)
  }

  predicate Places(m: Market, at: seq<nat>) {
    && |at| == |m.streams|
    && (forall i :: 0 <= i < |at| ==> at[i] < |m.issued| && m.streams[i].streamId == m.issued[at[i]])
    && (forall i, j :: 0 <= i < j < |at| ==> at[i] < at[j])
  }

  predicate StreamsInv(m: Market, k: nat) {
    forall i :: 0 <= i < |m.streams| ==> m.streams[i].index == i && StreamInv(m.streams[i], m.list, k)
  }

  ghost predicate MarketInv(m: Market, k: nat)
    requires k > 0
  {
    && NoDuplicates(m.list) && SetOf(m.list) == m.all
    && |m.streams| == NumSlices(|m.list|, k)
    && StreamsInv(m, k)
    && Issued(m)
    && FromIssued(m)
  }

  /** Creating streams keeps everything and ends with one stream per slice. */
  lemma {:induction false} EnsureKeeps(m: Market, size: nat, pingFrequency: nat, list: seq<Symbol>, k: nat)
    requires |m.streams| <= size && Issued(m) && FromIssued(m)
    requires forall i :: 0 <= i < |m.streams| ==> m.streams[i].index == i
    ensures var n := EnsureSymbolSlices(m, size, pingFrequency);
            && |n.streams| == size && Issued(n) && FromIssued(n) && n.list == m.list && n.all == m.all
            && n.streams[..|m.streams|] == m.streams
            && (forall i :: 0 <= i < size ==> n.streams[i].index == i)
            && (forall i :: |m.streams| <= i < size ==> StreamInv(n.streams[i], list, k) && !n.streams[i].ready)
    decreases size - |m.streams|
  {
    hide StreamInv;
    if |m.streams| < size {
      var n := Issue(m);
      var s := NewStream(n.lastId, |m.streams|, pingFrequency);
      var o := n.(streams := n.streams + [s]);
      NewStreamHolds(n.lastId, |m.streams|, pingFrequency, list, k);
      var at: seq<nat> :| Places(m, at);
      assert Places(o, at + [|m.issued|]);
      EnsureKeeps(o, size, pingFrequency, list, k);
      assert o.streams[..|m.streams|] == m.streams;
      var e := EnsureSymbolSlices(m, size, pingFrequency);
      assert e == EnsureSymbolSlices(o, size, pingFrequency);
      assert e.streams[..|m.streams|] == e.streams[..|o.streams|][..|m.streams|];
      assert e.streams[|m.streams|] == e.streams[..|o.streams|][|m.streams|] == s;
    }
  }

  /** Subscribing leaves the identity of a stream alone. */
  lemma SubscribeFrame(s: Stream, list: seq<Symbol>, k: nat, from: nat)
    ensures var u := Subscribe(s, list, k, from);
            u.streamId == s.streamId && u.index == s.index && u.sessions == s.sessions
  {
  }

  lemma UpdateKeeps(m: Market, k: nat, pingFrequency: nat, xs: seq<Symbol>)
    requires k > 0 && |m.streams| == NumSlices(|m.list|, k) && StreamsInv(m, k) && Issued(m) && FromIssued(m)
    ensures var n := OnSymbolsUpdate(m, k, pingFrequency, xs);
            && n.list == m.list + xs && n.all == m.all
            && |n.streams| == NumSlices(|n.list|, k) && StreamsInv(n, k) && Issued(n) && FromIssued(n)
  {
    hide StreamInv;
    var list := m.list + xs;
    SlicesGrow(|m.list|, |list|, k);
    var m1 := m.(list := list);
    assert FromIssued(m1) by {
      var at: seq<nat> :| Places(m, at);
      assert Places(m1, at);
    }
    EnsureKeeps(m1, NumSlices(|list|, k), pingFrequency, m.list, k);
    var e := EnsureSymbolSlices(m1, NumSlices(|list|, k), pingFrequency);
    var n := OnSymbolsUpdate(m, k, pingFrequency, xs);
    forall i | 0 <= i < |n.streams|
      ensures n.streams[i].index == i && StreamInv(n.streams[i], list, k)
      ensures n.streams[i].streamId == e.streams[i].streamId
    {
      assert n.streams[i] == Subscribe(e.streams[i], list, k, |m.list|);
      SubscribeFrame(e.streams[i], list, k, |m.list|);
      if i < |m.streams| {
        assert e.streams[i] == e.streams[..|m.streams|][i] == m.streams[i];
      }
      SuffixKeeps(e.streams[i], m.list, xs, k);
    }
    assert FromIssued(n) by {
      var at: seq<nat> :| Places(e, at);
      assert Places(n, at);
    }
  }

  lemma NewListKeeps(m: Market, k: nat, pingFrequency: nat, items: seq<Symbol>)
    requires k > 0 && MarketInv(m, k)
    ensures MarketInv(OnSubscribe(m, k, pingFrequency, items), k)
    ensures NewSymbols(m.all, items) == [] ==> MarketInv(m.(all := m.all + SetOf(items)), k)
  {
    hide StreamsInv;
    var n := m.(all := m.all + SetOf(items));
    NewSymbolsKeepList(m.list, items);
    assert StreamsInv(n, k) by { SameStreams(m, n, k); }
    assert FromIssued(n) by {
      var at: seq<nat> :| Places(m, at);
      assert Places(n, at);
    }
    UpdateKeeps(n, k, pingFrequency, NewSymbols(m.all, items));
    if NewSymbols(m.all, items) == [] {
      assert m.list + [] == m.list;
    }
  }

  lemma SameStreams(m: Market, n: Market, k: nat)
    requires StreamsInv(m, k) && n.streams == m.streams && n.list == m.list
    ensures StreamsInv(n, k)
  {
  }

  lemma OneStreamKeeps(m: Market, k: nat, i: nat, s: Stream)
    requires k > 0 && MarketInv(m, k) && i < |m.streams|
    requires StreamInv(s, m.list, k) && s.index == i && s.streamId == m.streams[i].streamId
    ensures MarketInv(WithStream(m, i, s), k)
  {
    hide StreamInv;
    var n := WithStream(m, i, s);
    assert FromIssued(n) by {
      var at: seq<nat> :| Places(m, at);
      assert Places(n, at);
    }
  }

  lemma ConnectKeeps(s: Stream, list: seq<Symbol>, k: nat, timeout: int)
    requires StreamInv(s, list, k) && s.link == DOWN
    ensures StreamInv(OnConnected(s, timeout), list, k)
  {
    hide ForTopic;
    hide Slice;
  }

  lemma ReadyKeeps(s: Stream, list: seq<Symbol>, k: nat)
    requires StreamInv(s, list, k) && s.link == CONNECTED
    ensures StreamInv(OnReady(s), list, k)
  {
    hide ForTopic;
    hide Slice;
  }

  lemma TimerKeeps(s: Stream, list: seq<Symbol>, k: nat, now: int, refreshed: bool)
    requires StreamInv(s, list, k)
    ensures StreamInv(OnTimer(s, now, refreshed), list, k)
  {
    hide ForTopic;
    hide Slice;
    assert (s.ticks + [now])[..|s.ticks|] == s.ticks;
  }

  lemma IssueKeeps(m: Market, k: nat)
    requires k > 0 && MarketInv(m, k)
    ensures MarketInv(Issue(m), k)
  {
    hide StreamInv;
    assert FromIssued(Issue(m)) by {
      var at: seq<nat> :| Places(m, at);
      assert Places(Issue(m), at);
    }
  }

  lemma MarketStep(m: Market, cfg: Settings, e: Event)
    requires Usable(cfg) && MarketInv(m, cfg.maxSubscriptionsPerStream) && Enabled(m, e)
    ensures MarketInv(Step(m, cfg, e), cfg.maxSubscriptionsPerStream)
  {
    hide StreamInv;
    hide OnSymbolsUpdate;
    var k := cfg.maxSubscriptionsPerStream;
    match e
    case ClientSubscribe(items) => NewListKeeps(m, k, cfg.pingFrequency, items);
    case ContractsAck(contracts) => NewListKeeps(m, k, cfg.pingFrequency, Kept(contracts));
    case OtherStream => IssueKeeps(m, k);
    case Connected(i, timeout) =>
      ConnectKeeps(m.streams[i], m.list, k, timeout);
      OneStreamKeeps(m, k, i, OnConnected(m.streams[i], timeout));
    case Opened(i) =>
      ReadyKeeps(m.streams[i], m.list, k);
      OneStreamKeeps(m, k, i, OnReady(m.streams[i]));
    case Welcomed(i) =>
      WelcomedStep(m, k, i);
    case Disconnected(i) =>
      DisconnectKeeps(m.streams[i], m.list, k);
      OneStreamKeeps(m, k, i, OnDisconnected(m.streams[i]));
    case Timer(i, now, refreshed) =>
      TimerKeeps(m.streams[i], m.list, k, now, refreshed);
      OneStreamKeeps(m, k, i, OnTimer(m.streams[i], now, refreshed));
  }

  lemma WelcomedStep(m: Market, k: nat, i: nat)
    requires k > 0 && MarketInv(m, k) && i < |m.streams| && m.streams[i].link == OPEN && !m.streams[i].welcome
    ensures MarketInv(WithStream(m, i, OnWelcome(m.streams[i], m.list, k)), k)
  {
    var s := m.streams[i];
    WelcomeKeeps(s, m.list, k);
    SubscribeFrame(s.(welcome := true, ready := true, sessions := s.sessions + 1), m.list, k, 0);
    OneStreamKeeps(m, k, i, OnWelcome(s, m.list, k));
  }

  lemma InitHolds(others: nat, k: nat)
    requires k > 0
    ensures MarketInv(Init(others), k)
  {
    var m := Init(others);
    assert Places(m, []);
    assert SetOf(m.list) == {};
  }

  lemma {:induction false} MarketRunFrom(m: Market, cfg: Settings, es: seq<Event>)
    requires Usable(cfg) && MarketInv(m, cfg.maxSubscriptionsPerStream) && Admissible(m, cfg, es)
    ensures MarketInv(Exec(m, cfg, es), cfg.maxSubscriptionsPerStream)
    decreases |es|
  {
    hide MarketInv;
    if es != [] {
      MarketStep(m, cfg, es[0]);
      MarketRunFrom(Step(m, cfg, es[0]), cfg, es[1..]);
    }
  }

  // --- main results ---

  /**
   In every run, the list has no duplicates, its elements are the known symbols, stream i has
   index i, and there is exactly one stream for each slice.
   */
  lemma SymbolListInvariant(others: nat, cfg: Settings, es: seq<Event>)
    requires Usable(cfg) && Admissible(Init(others), cfg, es)
    ensures var m := Exec(Init(others), cfg, es);
            && NoDuplicates(m.list) && (forall s: Symbol :: s in m.list <==> s in m.all)
            && |m.streams| == NumSlices(|m.list|, cfg.maxSubscriptionsPerStream)
            && (forall i :: 0 <= i < |m.streams| ==> m.streams[i].index == i)
  {
    InitHolds(others, cfg.maxSubscriptionsPerStream);
    MarketRunFrom(Init(others), cfg, es);
    var m := Exec(Init(others), cfg, es);
    assert forall s: Symbol :: s in SetOf(m.list) <==> s in m.all;
  }

  /**
   In every run, what a welcomed stream has enqueued in its session is, for each topic, exactly
   its current slice, in order and once, however updates, connects and disconnects interleave.
   */
  lemma SubscribedExactlyOnce(others: nat, cfg: Settings, es: seq<Event>, i: nat, t: Topic)
    requires Usable(cfg) && Admissible(Init(others), cfg, es) && i < |Exec(Init(others), cfg, es).streams|
    ensures var m := Exec(Init(others), cfg, es);
            var s := m.streams[i];
            s.welcome ==>
              && ForTopic(s.session, t) == Slice(m.list, cfg.maxSubscriptionsPerStream, i, 0)
              && |s.session| == 6 * |Slice(m.list, cfg.maxSubscriptionsPerStream, i, 0)|
  {
    InitHolds(others, cfg.maxSubscriptionsPerStream);
    MarketRunFrom(Init(others), cfg, es);
  }

  /**
   In every run, each stream pings in its session as its ready ticks ask for, within both bounds,
   and a stream that is down has no logon timeout.
   */
  lemma PingsFollowTicks(others: nat, cfg: Settings, es: seq<Event>, i: nat)
    requires Usable(cfg) && Admissible(Init(others), cfg, es) && i < |Exec(Init(others), cfg, es).streams|
    ensures var s := Exec(Init(others), cfg, es).streams[i];
            && s.pings == Ping.PingsOf(s.ticks, s.pingFrequency)
            && Ping.Punctual(s.ticks, s.pings, s.pingFrequency)
            && (s.link == DOWN ==> s.logonTimeout == 0)
  {
    InitHolds(others, cfg.maxSubscriptionsPerStream);
    MarketRunFrom(Init(others), cfg, es);
    var s := Exec(Init(others), cfg, es).streams[i];
    Ping.PingsArePunctual(s.ticks, s.pingFrequency);
  }

  /** What the first `n` streams hold for one topic, stream by stream. */
  function AllForTopic(streams: seq<Stream>, t: Topic): seq<Symbol> {
    if streams == [] then []
    else AllForTopic(streams[..|streams| - 1], t) + ForTopic(streams[|streams| - 1].session, t)
  }

  lemma {:induction false} AllHeld(streams: seq<Stream>, list: seq<Symbol>, k: nat, t: Topic)
    requires forall i :: 0 <= i < |streams| ==> ForTopic(streams[i].session, t) == Slice(list, k, i, 0)
    ensures AllForTopic(streams, t) == Concatenated(list, k, |streams|)
  {
    hide ForTopic;
    hide Slice;
    if streams != [] {
      var init := streams[..|streams| - 1];
      assert forall i :: 0 <= i < |init| ==> init[i] == streams[i];
      AllHeld(init, list, k, t);
    }
  }

  lemma {:induction false} OccursOnce(list: seq<Symbol>, s: Symbol)
    requires NoDuplicates(list)
    ensures multiset(list)[s] == if s in list then 1 else 0
  {
    if list != [] {
      var init, last := list[..|list| - 1], list[|list| - 1];
      assert list == init + [last];
      OccursOnce(init, s);
      assert multiset(list) == multiset(init) + multiset{last};
      if s == last {
        assert s !in init;
      }
    }
  }

  /**
   Once every stream is welcomed, the streams together have subscribed every known symbol to
   every topic exactly once, and nothing else.
   */
  lemma EverySymbolOnce(others: nat, cfg: Settings, es: seq<Event>, t: Topic, symbol: Symbol)
    requires Usable(cfg) && Admissible(Init(others), cfg, es)
    requires var m := Exec(Init(others), cfg, es);
             forall i :: 0 <= i < |m.streams| ==> m.streams[i].welcome
    ensures var m := Exec(Init(others), cfg, es);
            && AllForTopic(m.streams, t) == m.list
            && multiset(AllForTopic(m.streams, t))[symbol] == if symbol in m.all then 1 else 0
  {
    var k := cfg.maxSubscriptionsPerStream;
    InitHolds(others, k);
    MarketRunFrom(Init(others), cfg, es);
    var m := Exec(Init(others), cfg, es);
    assert forall i :: 0 <= i < |m.streams| ==> ForTopic(m.streams[i].session, t) == Slice(m.list, k, i, 0);
    AllHeld(m.streams, m.list, k, t);
    SlicesPartition(m.list, k);
    OccursOnce(m.list, symbol);
    assert symbol in m.list <==> symbol in SetOf(m.list);
  }

  // --- identifiers ---

  predicate Distinct(ids: seq<nat>) {
    forall i, j :: 0 <= i < j < |ids| ==> ids[i] != ids[j]
  }

  /** The stream ids issued so far are distinct exactly up to 2^16 of them. */
  lemma StreamIdsDistinctIff(others: nat, cfg: Settings, es: seq<Event>)
    requires Usable(cfg) && Admissible(Init(others), cfg, es)
    ensures var m := Exec(Init(others), cfg, es);
            Distinct(m.issued) <==> |m.issued| <= 0x1_0000
  {
    InitHolds(others, cfg.maxSubscriptionsPerStream);
    MarketRunFrom(Init(others), cfg, es);
    CountingDistinct(Exec(Init(others), cfg, es).issued);
  }

  lemma CountingDistinct(ids: seq<nat>)
    requires forall i :: 0 <= i < |ids| ==> ids[i] == (i + 1) % 0x1_0000
    ensures Distinct(ids) <==> |ids| <= 0x1_0000
  {
    if |ids| > 0x1_0000 {
      assert ids[0] == ids[0x1_0000];
    } else {
      forall i, j | 0 <= i < j < |ids|
        ensures ids[i] != ids[j]
      {
        if j + 1 < 0x1_0000 {
          assert ids[j] == j + 1;
        }
      }
    }
  }

  /**
   Subscription messages never share an id, within a stream or across streams, while at most 2^16
   stream ids were issued and each stream has sent at most a million messages.
   */
  lemma SubscriptionIdsDistinct(others: nat, cfg: Settings, es: seq<Event>, i: nat, j: nat, a: nat, b: nat)
    requires Usable(cfg) && Admissible(Init(others), cfg, es)
    requires var m := Exec(Init(others), cfg, es);
             && |m.issued| <= 0x1_0000 && i < |m.streams| && j < |m.streams|
             && a < |m.streams[i].history| && b < |m.streams[j].history|
             && |m.streams[i].history| <= 1_000_000 && |m.streams[j].history| <= 1_000_000
    requires i != j || a != b
    ensures var m := Exec(Init(others), cfg, es);
            m.streams[i].history[a].id != m.streams[j].history[b].id
  {
    InitHolds(others, cfg.maxSubscriptionsPerStream);
    MarketRunFrom(Init(others), cfg, es);
    var m := Exec(Init(others), cfg, es);
    StreamIdsDistinctIff(others, cfg, es);
    var at: seq<nat> :| Places(m, at);
    if i != j {
      assert m.streams[i].streamId != m.streams[j].streamId;
    }
  }

  /**
   A stream has sent at most a million messages while 6 * places * sessions is at most that, and it
   numbers them from a million times its id.
   */
  lemma MillionMessages(others: nat, cfg: Settings, es: seq<Event>, i: nat)
    requires Usable(cfg) && Admissible(Init(others), cfg, es) && i < |Exec(Init(others), cfg, es).streams|
    ensures var s := Exec(Init(others), cfg, es).streams[i];
            && |s.history| <= 6 * cfg.maxSubscriptionsPerStream * s.sessions
            && (6 * cfg.maxSubscriptionsPerStream * s.sessions <= 1_000_000 ==> |s.history| <= 1_000_000)
            && (forall a :: 0 <= a < |s.history| ==> s.history[a].id == s.streamId * 1_000_000 + 1 + a)
  {
    InitHolds(others, cfg.maxSubscriptionsPerStream);
    MarketRunFrom(Init(others), cfg, es);
    var m := Exec(Init(others), cfg, es);
    HistoryBound(m.streams[i], m.list, cfg.maxSubscriptionsPerStream);
  }

  ghost predicate ShareId(s: Stream, t: Stream) {
    exists a, b :: 0 <= a < |s.history| && 0 <= b < |t.history| && s.history[a].id == t.history[b].id
  }

  /**
   Exactly when the ids of two streams collide: the stream with the lower id has sent more than a
   million messages for each step between the stream ids, and the other has sent any. Streams with
   the same id, as 2^16 ids apart, collide with their first messages.
   */
  lemma SubscriptionIdsCollideIff(others: nat, cfg: Settings, es: seq<Event>, i: nat, j: nat)
    requires Usable(cfg) && Admissible(Init(others), cfg, es)
    requires var m := Exec(Init(others), cfg, es);
             i < |m.streams| && j < |m.streams| && m.streams[i].streamId <= m.streams[j].streamId
    ensures var m := Exec(Init(others), cfg, es);
            var s, t := m.streams[i], m.streams[j];
            ShareId(s, t) <==> t.history != [] && |s.history| > (t.streamId - s.streamId) * 1_000_000
  {
    InitHolds(others, cfg.maxSubscriptionsPerStream);
    MarketRunFrom(Init(others), cfg, es);
    var m := Exec(Init(others), cfg, es);
    NumberedCollideIff(m.streams[i], m.streams[j]);
  }

  lemma NumberedCollideIff(s: Stream, t: Stream)
    requires Numbered(s) && Numbered(t) && s.streamId <= t.streamId
    ensures ShareId(s, t) <==> t.history != [] && |s.history| > (t.streamId - s.streamId) * REQUEST_ID
  {
    var gap := (t.streamId - s.streamId) * REQUEST_ID;
    assert gap == t.streamId * REQUEST_ID - s.streamId * REQUEST_ID;
    if t.history != [] && |s.history| > gap {
      assert s.history[gap].id == t.history[0].id;
    }
    if ShareId(s, t) {
      var a, b :| 0 <= a < |s.history| && 0 <= b < |t.history| && s.history[a].id == t.history[b].id;
      assert a == gap + b;
    }
  }

  /** All messages of a stream: at most six per place of the slice and session. */
  lemma HistoryBound(s: Stream, list: seq<Symbol>, k: nat)
    requires StreamInv(s, list, k)
    ensures |s.history| <= 6 * k * s.sessions
  {
    if s.ready {
      SliceLength(list, k, s.index, 0);
      OneMoreSession(k, s.sessions);
    }
    hide Slice;
    hide ForTopic;
    hide Numbered;
    hide Pinged;
  }

  lemma OneMoreSession(k: nat, sessions: nat)
    ensures 6 * k * (sessions - 1) + 6 * k == 6 * k * sessions
  {
  }
}
