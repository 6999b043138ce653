/**
 The symbol list and the streams, from the events alone: which symbols are known and in which order,
 and which ticks a stream takes, at which interval it pings and when its logon times out.
 */
module MarketHistory {
  import opened Symbols
  import opened Market
  import opened Subscriptions
  import Ping

  lemma {:induction false} Split(m: Market, cfg: Settings, es: seq<Event>)
    requires Usable(cfg) && Admissible(m, cfg, es) && es != []
    ensures var init, last := es[..|es| - 1], es[|es| - 1];
            && Admissible(m, cfg, init) && Enabled(Exec(m, cfg, init), last)
            && Exec(m, cfg, es) == Step(Exec(m, cfg, init), cfg, last)
    decreases |es|
  {
    var init := es[..|es| - 1];
    if |es| == 1 {
      assert es[1..] == [] && init == [];
    } else {
      Split(Step(m, cfg, es[0]), cfg, es[1..]);
      assert es[1..][..|es| - 2] == init[1..];
    }
  }

  // --- symbols ---

  /** A client asks for the symbol, or a contract download lists it and the dispatcher keeps it. */
  predicate Names(e: Event, s: Symbol) {
    || (e.ClientSubscribe? && s in e.items)
    || (e.ContractsAck? && exists c :: c in e.contracts && c.symbol == s && !c.discard)
  }

  lemma {:induction false} KeptIff(contracts: seq<Contract>, s: Symbol)
    ensures s in Kept(contracts) <==> exists c :: c in contracts && c.symbol == s && !c.discard
  {
    if contracts != [] {
      var init, last := contracts[..|contracts| - 1], contracts[|contracts| - 1];
      KeptIff(init, s);
      assert contracts == init + [last];
      assert last in contracts;
      assert forall c :: c in contracts <==> c in init || c == last;
    }
  }

  lemma {:induction false} EnsureFrame(m: Market, size: nat, pingFrequency: nat)
    ensures var n := EnsureSymbolSlices(m, size, pingFrequency);
            && n.list == m.list && n.all == m.all && |n.streams| >= |m.streams|
            && (forall i :: 0 <= i < |m.streams| ==> n.streams[i] == m.streams[i])
            && (forall i :: |m.streams| <= i < |n.streams| ==>
                  && n.streams[i].link == DOWN && !n.streams[i].welcome && n.streams[i].ticks == []
                  && n.streams[i].pingFrequency == pingFrequency)
    decreases size - |m.streams|
  {
    if |m.streams| < size {
      var n := Issue(m);
      EnsureFrame(n.(streams := n.streams + [NewStream(n.lastId, |m.streams|, pingFrequency)]), size, pingFrequency);
    }
  }

  /** What an update appends, and that it leaves connections and ticks of the streams alone. */
  lemma UpdateFrame(m: Market, k: nat, pingFrequency: nat, xs: seq<Symbol>)
    requires k > 0
    ensures var n := OnSymbolsUpdate(m, k, pingFrequency, xs);
            && n.list == m.list + xs && n.all == m.all && |n.streams| >= |m.streams|
            && (forall i :: 0 <= i < |m.streams| ==> SameTimes(m.streams[i], n.streams[i]))
            && (forall i :: |m.streams| <= i < |n.streams| ==>
                  && n.streams[i].link == DOWN && !n.streams[i].welcome && n.streams[i].ticks == []
                  && n.streams[i].pingFrequency == pingFrequency)
  {
    hide Subscribe;
    var list := m.list + xs;
    EnsureFrame(m.(list := list), NumSlices(|list|, k), pingFrequency);
    var e := EnsureSymbolSlices(m.(list := list), NumSlices(|list|, k), pingFrequency);
    forall i | 0 <= i < |e.streams|
      ensures SameTimes(e.streams[i], Subscribe(e.streams[i], list, k, |m.list|))
    {
      SubscribeTimes(e.streams[i], list, k, |m.list|);
    }
  }

  predicate SameTimes(s: Stream, t: Stream) {
    && t.link == s.link && t.welcome == s.welcome && t.ticks == s.ticks
    && t.logonTimeout == s.logonTimeout && t.pingFrequency == s.pingFrequency
  }

  lemma SubscribeTimes(s: Stream, list: seq<Symbol>, k: nat, from: nat)
    ensures SameTimes(s, Subscribe(s, list, k, from))
  {
    SymbolsAppend(s, Slice(list, k, s.index, from));
    hide SubscribeSymbols;
    hide Slice;
  }

  /** The symbols that an event appends to the list. */
  lemma StepSymbols(m: Market, cfg: Settings, e: Event, s: Symbol)
    requires Usable(cfg) && Enabled(m, e)
    ensures var n := Step(m, cfg, e);
            && m.list <= n.list
            && (s in n.all <==> s in m.all || Names(e, s))
  {
    match e
    case ClientSubscribe(items) =>
      var n := m.(all := m.all + SetOf(items));
      UpdateFrame(n, cfg.maxSubscriptionsPerStream, cfg.pingFrequency, NewSymbols(m.all, items));
      hide OnSymbolsUpdate;
    case ContractsAck(contracts) =>
      var items := Kept(contracts);
      KeptIff(contracts, s);
      var n := m.(all := m.all + SetOf(items));
      UpdateFrame(n, cfg.maxSubscriptionsPerStream, cfg.pingFrequency, NewSymbols(m.all, items));
      hide OnSymbolsUpdate;
    case _ =>
  }

  /**
   In every run the known symbols, and so those of the list, are exactly those that a client asked
   for or that a contract download listed and the dispatcher did not discard.
   */
  lemma {:induction false} KnownIff(others: nat, cfg: Settings, es: seq<Event>, s: Symbol)
    requires Usable(cfg) && Admissible(Init(others), cfg, es)
    ensures s in Exec(Init(others), cfg, es).list <==> exists e :: e in es && Names(e, s)
  {
    KnownInSet(others, cfg, es, s);
    SymbolListInvariant(others, cfg, es);
  }

  lemma {:induction false} KnownInSet(others: nat, cfg: Settings, es: seq<Event>, s: Symbol)
    requires Usable(cfg) && Admissible(Init(others), cfg, es)
    ensures s in Exec(Init(others), cfg, es).all <==> exists e :: e in es && Names(e, s)
  {
    if es != [] {
      var init, last := es[..|es| - 1], es[|es| - 1];
      Split(Init(others), cfg, es);
      KnownInSet(others, cfg, init, s);
      StepSymbols(Exec(Init(others), cfg, init), cfg, last, s);
      hide Step;
      hide Exec;
      hide Names;
      assert es == init + [last];
      assert last in es;
      assert forall e :: e in es <==> e in init || e == last;
    }
  }

  /** In every run the list only grows at its end, so symbols keep their position and their slice. */
  lemma {:induction false} ListOnlyGrows(m: Market, cfg: Settings, es: seq<Event>)
    requires Usable(cfg) && Admissible(m, cfg, es)
    ensures m.list <= Exec(m, cfg, es).list
    decreases |es|
  {
    if es != [] {
      StepSymbols(m, cfg, es[0], "");
      ListOnlyGrows(Step(m, cfg, es[0]), cfg, es[1..]);
      hide Step;
    }
  }

  /** `a` is mentioned before `b`. */
  ghost predicate Before(items: seq<Symbol>, a: Symbol, b: Symbol) {
    exists p :: 0 <= p < |items| && items[p] == a && b !in items[..p + 1]
  }

  ghost predicate InOrder(xs: seq<Symbol>, items: seq<Symbol>) {
    forall i, j :: 0 <= i < j < |xs| ==> Before(items, xs[i], xs[j])
  }

  /** New symbols come in the order in which they are first mentioned. */
  lemma {:induction false} NewSymbolsInOrder(known: set<Symbol>, items: seq<Symbol>)
    ensures InOrder(NewSymbols(known, items), items)
  {
    if items != [] {
      var init, last := items[..|items| - 1], items[|items| - 1];
      var before, xs := NewSymbols(known, init), NewSymbols(known, items);
      NewSymbolsInOrder(known, init);
      NewSymbolsAreNew(known, init);
      forall i, j | 0 <= i < j < |xs|
        ensures Before(items, xs[i], xs[j])
      {
        if j < |before| {
          assert Before(init, before[i], before[j]) && xs[i] == before[i] && xs[j] == before[j];
          var p :| 0 <= p < |init| && init[p] == xs[i] && xs[j] !in init[..p + 1];
          assert items[p] == xs[i] && items[..p + 1] == init[..p + 1];
        } else {
          assert xs == before + [last] && last !in before && last !in known;
          assert xs[i] in before;
          var p :| 0 <= p < |init| && init[p] == xs[i];
          assert items[p] == xs[i] && items[..p + 1] == init[..p + 1];
          assert xs[j] !in init;
        }
      }
    }
  }

  /** An event appends its new symbols in the order in which it first mentions them. */
  lemma AppendsInOrder(m: Market, cfg: Settings, e: Event)
    requires Usable(cfg) && (e.ClientSubscribe? || e.ContractsAck?)
    ensures var n := Step(m, cfg, e);
            && m.list <= n.list
            && InOrder(n.list[|m.list|..], if e.ClientSubscribe? then e.items else Kept(e.contracts))
  {
    var items := if e.ClientSubscribe? then e.items else Kept(e.contracts);
    var xs := NewSymbols(m.all, items);
    NewSymbolsInOrder(m.all, items);
    UpdateFrame(m.(all := m.all + SetOf(items)), cfg.maxSubscriptionsPerStream, cfg.pingFrequency, xs);
    hide OnSymbolsUpdate;
    assert (m.list + xs)[|m.list|..] == xs;
    assert m.list[|m.list|..] == [];
  }

  // --- streams: events, latest last ---

  /** The latest connection of stream `i` has been welcomed and is still up. */
  predicate IsWelcomed(es: seq<Event>, i: nat) {
    es != [] &&
    var last := es[|es| - 1];
    last == Welcomed(i) || (last != Disconnected(i) && IsWelcomed(es[..|es| - 1], i))
  }

  /** The times of the ticks that this connection took after its welcome. */
  function SessionTicks(es: seq<Event>, i: nat): seq<int> {
    if es == [] then []
    else
      var init, last := es[..|es| - 1], es[|es| - 1];
      if last == Disconnected(i) then []
      else if last.Timer? && last.i == i && last.refreshed && IsWelcomed(init, i) then SessionTicks(init, i) + [last.now]
      else SessionTicks(init, i)
  }

  /** The logon timeout that the latest connection was given. */
  function Timeout(es: seq<Event>, i: nat): int {
    if es == [] then 0
    else
      var last := es[|es| - 1];
      if last.Connected? && last.i == i then last.timeout else Timeout(es[..|es| - 1], i)
  }

  predicate Knows(s: Stream, pingFrequency: nat, welcomed: bool, ticks: seq<int>, timeout: int) {
    && s.welcome == welcomed && s.ticks == ticks && s.pingFrequency == pingFrequency
    && (s.welcome ==> s.link == OPEN)
    && (s.link != DOWN ==> s.logonTimeout == timeout)
  }

  ghost predicate Agrees(m: Market, cfg: Settings, es: seq<Event>) {
    && (forall i :: 0 <= i < |m.streams| ==>
          Knows(m.streams[i], cfg.pingFrequency, IsWelcomed(es, i), SessionTicks(es, i), Timeout(es, i)))
    && (forall i: nat :: i >= |m.streams| ==> !IsWelcomed(es, i) && SessionTicks(es, i) == [])
  }

  /** An event of one stream. */
  lemma StreamStep(m: Market, cfg: Settings, es: seq<Event>, e: Event, i: nat)
    requires Usable(cfg) && Agrees(m, cfg, es) && Enabled(m, e) && i < |m.streams|
    requires !e.ClientSubscribe? && !e.ContractsAck?
    ensures var n, all := Step(m, cfg, e), es + [e];
            && |n.streams| == |m.streams|
            && Knows(n.streams[i], cfg.pingFrequency, IsWelcomed(all, i), SessionTicks(all, i), Timeout(all, i))
  {
    assert (es + [e])[..|es|] == es;
    hide Subscribe;
    if e == Welcomed(i) {
      var s := m.streams[i];
      var t := s.(welcome := true, ready := true, sessions := s.sessions + 1);
      SubscribeTimes(t, m.list, cfg.maxSubscriptionsPerStream, 0);
    }
  }

  /** An event of the symbol list. */
  lemma UpdateStep(m: Market, cfg: Settings, e: Event)
    requires Usable(cfg) && (e.ClientSubscribe? || e.ContractsAck?)
    ensures var n := Step(m, cfg, e);
            && |n.streams| >= |m.streams|
            && (forall i :: 0 <= i < |m.streams| ==> SameTimes(m.streams[i], n.streams[i]))
            && (forall i :: |m.streams| <= i < |n.streams| ==>
                  && n.streams[i].link == DOWN && !n.streams[i].welcome && n.streams[i].ticks == []
                  && n.streams[i].pingFrequency == cfg.pingFrequency)
  {
    var items := if e.ClientSubscribe? then e.items else Kept(e.contracts);
    UpdateFrame(m.(all := m.all + SetOf(items)), cfg.maxSubscriptionsPerStream, cfg.pingFrequency, NewSymbols(m.all, items));
    hide OnSymbolsUpdate;
  }

  lemma AgreesStep(m: Market, cfg: Settings, es: seq<Event>, e: Event)
    requires Usable(cfg) && Agrees(m, cfg, es) && Enabled(m, e)
    ensures Agrees(Step(m, cfg, e), cfg, es + [e])
  {
    var n := Step(m, cfg, e);
    assert (es + [e])[..|es|] == es;
    forall i: nat | i >= |m.streams|
      ensures !IsWelcomed(es + [e], i) && SessionTicks(es + [e], i) == []
    {
      assert !IsWelcomed(es, i) && SessionTicks(es, i) == [];
    }
    if e.ClientSubscribe? || e.ContractsAck? {
      UpdateStep(m, cfg, e);
      hide Step;
    } else {
      forall i | 0 <= i < |n.streams|
        ensures Knows(n.streams[i], cfg.pingFrequency, IsWelcomed(es + [e], i), SessionTicks(es + [e], i),
                      Timeout(es + [e], i))
      {
        StreamStep(m, cfg, es, e, i);
      }
    }
  }

  lemma {:induction false} AgreesRun(others: nat, cfg: Settings, es: seq<Event>)
    requires Usable(cfg) && Admissible(Init(others), cfg, es)
    ensures Agrees(Exec(Init(others), cfg, es), cfg, es)
  {
    if es != [] {
      var init, last := es[..|es| - 1], es[|es| - 1];
      Split(Init(others), cfg, es);
      AgreesRun(others, cfg, init);
      hide Exec;
      hide Step;
      AgreesStep(Exec(Init(others), cfg, init), cfg, init, last);
      assert es == init + [last];
      hide Agrees;
    }
  }

  /**
   In every run the pings of a stream are those that its ticks since the welcome ask for, at the
   interval that the controller was given, within both bounds; and a connection has the logon
   timeout that it came up with.
   */
  lemma PingsOfStream(others: nat, cfg: Settings, es: seq<Event>, i: nat)
    requires Usable(cfg) && Admissible(Init(others), cfg, es) && i < |Exec(Init(others), cfg, es).streams|
    ensures var s := Exec(Init(others), cfg, es).streams[i];
            && s.pings == Ping.PingsOf(SessionTicks(es, i), cfg.pingFrequency)
            && Ping.Punctual(SessionTicks(es, i), s.pings, cfg.pingFrequency)
            && (s.link != DOWN ==> s.logonTimeout == Timeout(es, i))
            && (s.link == DOWN ==> s.logonTimeout == 0)
  {
    AgreesRun(others, cfg, es);
    PingsFollowTicks(others, cfg, es, i);
    hide Ping.Punctual;
  }
}
