/**
 The market data streams, the controller that creates them, and the REST client that downloads
 the contracts, as objects that update their fields in place. Every method is proved against
 the function of `Market` that the runs are made of, and every event of the controller keeps what
 the runs keep.
 */
module MarketActors {
  import opened Symbols
  import opened Market
  import opened Subscriptions
  import Ping

  /** The shared symbol list and set. */
  class Shared {
    const maxSubscriptionsPerStream: nat
    var symbols: seq<Symbol>
    var allSymbols: set<Symbol>

    constructor (maxSubscriptionsPerStream: nat)
      ensures this.maxSubscriptionsPerStream == maxSubscriptionsPerStream
      ensures symbols == [] && allSymbols == {}
    {
      this.maxSubscriptionsPerStream := maxSubscriptionsPerStream;
      symbols, allSymbols := [], {};
    }
  }

  class MarketData {
    const shared: Shared
    const streamId: nat
    const index: nat
    const pingFrequency: nat
    var welcome: bool
    var ready: bool
    var requestId: nat
    var logonTimeout: int
    var nextPing: int
    var subscribeQueue: seq<Message>
    var link: Link
    ghost var session: seq<Message>
    ghost var history: seq<Message>
    ghost var sessions: nat
    ghost var ticks: seq<int>
    ghost var pings: seq<int>

    ghost function View(): Stream
      reads this
    {
      Stream(streamId, index, pingFrequency, welcome, ready, requestId, logonTimeout, nextPing,
             link, session, history, sessions, ticks, pings)
    }

    constructor (shared: Shared, streamId: nat, index: nat, pingFrequency: nat)
      requires pingFrequency != 0
      ensures View() == NewStream(streamId, index, pingFrequency) && this.shared == shared && subscribeQueue == []
    {
      this.shared, this.streamId, this.index, this.pingFrequency := shared, streamId, index, pingFrequency;
      welcome, ready, requestId := false, false, streamId * REQUEST_ID;
      logonTimeout, nextPing, subscribeQueue := 0, 0, [];
      link, session, history, sessions := DOWN, [], [], 0;
      ticks, pings := [], [];
    }

    /** `subscribe(topic, symbols)`: one message for each symbol, numbered on. */
    method SubscribeTo(topic: Topic, xs: seq<Symbol>)
      modifies this`requestId, this`subscribeQueue, this`session, this`history
      ensures View() == SubscribeTopic(old(View()), topic, xs)
      ensures subscribeQueue == old(subscribeQueue) + Messages(old(requestId), topic, xs)
    {
      ghost var done: seq<Message> := [];
      for i := 0 to |xs|
        invariant requestId == old(requestId) + i
        invariant done == Messages(old(requestId), topic, xs[..i])
        invariant session == old(session) + done && history == old(history) + done
        invariant subscribeQueue == old(subscribeQueue) + done
      {
        requestId := requestId + 1;
        var message := Message(requestId, topic, xs[i]);
        subscribeQueue := subscribeQueue + [message];
        session, history := session + [message], history + [message];
        assert Messages(old(requestId), topic, xs[..i + 1]) == done + [message];
        done := done + [message];
      }
      assert xs[..|xs|] == xs;
    }

    /** `subscribe(symbols)`: the six topics. */
    method SubscribeAll(xs: seq<Symbol>)
      modifies this`requestId, this`subscribeQueue, this`session, this`history
      ensures View() == SubscribeSymbols(old(View()), xs)
    {
      hide Messages;
      if xs == [] {
        return;
      }
      SubscribeTo(TICKER, xs);
      SubscribeTo(EXECUTION, xs);
      SubscribeTo(INSTRUMENT, xs);
      SubscribeTo(SNAPSHOT, xs);
      SubscribeTo(ANNOUNCEMENT, xs);
      SubscribeTo(LEVEL2, xs);
    }

    /** `subscribe(start_from)` */
    method SubscribeFrom(from: nat)
      modifies this`requestId, this`subscribeQueue, this`session, this`history
      ensures View() == Subscribe(old(View()), shared.symbols, shared.maxSubscriptionsPerStream, from)
    {
      hide SubscribeSymbols;
      if ready {
        SubscribeAll(Slice(shared.symbols, shared.maxSubscriptionsPerStream, index, from));
      }
    }

    method Connected(timeout: int)
      requires logonTimeout == 0
      modifies this
      ensures View() == OnConnected(old(View()), timeout)
    {
      logonTimeout := timeout;
      link := CONNECTED;
    }

    method Opened()
      modifies this`link
      ensures View() == OnReady(old(View()))
    {
      link := OPEN;
    }

    method Welcome()
      modifies this
      ensures View() == OnWelcome(old(View()), shared.symbols, shared.maxSubscriptionsPerStream)
    {
      hide SubscribeSymbols;
      sessions := sessions + 1;
      welcome := true;
      ready := true;
      SubscribeFrom(0);
    }

    method Disconnected()
      modifies this
      ensures View() == OnDisconnected(old(View()))
    {
      ready := false;
      welcome := false;
      logonTimeout, nextPing := 0, 0;
      link, session, ticks, pings := DOWN, [], [], [];
    }

    /** `close`: the logon timeout has passed without a welcome. */
    method Timer(now: int, refreshed: bool, open: bool) returns (close: bool)
      requires open <==> link == OPEN
      requires welcome ==> open && pingFrequency > 0
      modifies this`nextPing, this`ticks, this`pings
      ensures View() == OnTimer(old(View()), now, refreshed)
      ensures close <==> refreshed && !open && 0 != logonTimeout < now
    {
      close := false;
      if refreshed {
        if open {
          if welcome {
            ticks := ticks + [now];
            if Ping.Due(nextPing, now) {
              nextPing := Ping.Next(now, pingFrequency);
              pings := pings + [now];
            }
          }
        } else if logonTimeout != 0 && logonTimeout < now {
          assert !welcome;
          close := true;
        }
      }
    }
  }

  /** The values of a sequence of streams. */
  ghost function Views(ms: seq<MarketData>): seq<Stream>
    reads ms
  {
    seq(|ms|, i requires 0 <= i < |ms| reads ms => ms[i].View())
  }

  class Controller {
    const shared: Shared
    var publicWsPingFrequency: nat
    var streamId: nat
    var marketData: seq<MarketData>
    ghost var issued: seq<nat>

    /** The objects belong together. */
    ghost predicate Wired()
      reads this
    {
      && shared.maxSubscriptionsPerStream > 0 && publicWsPingFrequency != 0
      && (forall i :: 0 <= i < |marketData| ==> marketData[i].shared == shared && marketData[i].pingFrequency > 0)
      && (forall i, j :: 0 <= i < j < |marketData| ==> marketData[i] != marketData[j])
    }

    ghost function View(): Market
      reads this, shared, marketData
    {
      Market(shared.symbols, shared.allSymbols, Views(marketData), streamId, issued)
    }

    /** What every run keeps holds of the objects. */
    ghost predicate Valid()
      reads this, shared, marketData
    {
      Wired() && MarketInv(View(), shared.maxSubscriptionsPerStream)
    }

    /** The streams of the constructor take the first ids. */
    constructor (shared: Shared, others: nat, pingFrequency: nat)
      requires shared.maxSubscriptionsPerStream > 0 && pingFrequency != 0
      requires shared.symbols == [] && shared.allSymbols == {}
      ensures Valid() && View() == Init(others) && this.shared == shared
    {
      this.shared, publicWsPingFrequency := shared, pingFrequency;
      streamId, issued, marketData := others % 0x1_0000, FirstIds(others), [];
      InitHolds(others, shared.maxSubscriptionsPerStream);
    }

    /** `++stream_id_` */
    method NextStreamId() returns (id: nat)
      modifies this`streamId, this`issued
      ensures id == streamId == NextId(old(streamId)) && issued == old(issued) + [id]
    {
      streamId := NextId(streamId);
      id, issued := streamId, issued + [streamId];
    }

    method CreateMissingStreams(size: nat)
      requires Wired()
      modifies this`streamId, this`issued, this`marketData
      ensures Wired() && View() == EnsureSymbolSlices(old(View()), size, publicWsPingFrequency)
      ensures forall i :: 0 <= i < |marketData| ==> marketData[i] in old(marketData) || fresh(marketData[i])
    {
      ghost var before := View();
      while |marketData| < size
        invariant Wired()
        invariant forall i :: 0 <= i < |marketData| ==> marketData[i] in old(marketData) || fresh(marketData[i])
        invariant EnsureSymbolSlices(View(), size, publicWsPingFrequency) ==
                  EnsureSymbolSlices(before, size, publicWsPingFrequency)
        decreases size - |marketData|
      {
        CreateStream();
      }
    }

    method CreateStream()
      requires Wired()
      modifies this`streamId, this`issued, this`marketData
      ensures Wired() && |marketData| == |old(marketData)| + 1 && marketData[..|old(marketData)|] == old(marketData)
      ensures fresh(marketData[|old(marketData)|])
      ensures var n := Issue(old(View()));
              View() == n.(streams := n.streams + [NewStream(n.lastId, |n.streams|, publicWsPingFrequency)])
    {
      var id := NextStreamId();
      var stream := new MarketData(shared, id, |marketData|, publicWsPingFrequency);
      marketData := marketData + [stream];
    }

    /** A `SymbolsUpdate`: append, create the missing streams, subscribe the suffix everywhere. */
    method UpdateSymbols(xs: seq<Symbol>)
      requires Wired()
      modifies this`streamId, this`issued, this`marketData, shared, marketData
      ensures Wired()
      ensures View() == OnSymbolsUpdate(old(View()), shared.maxSubscriptionsPerStream, publicWsPingFrequency, xs)
    {
      var startFrom := |shared.symbols|;
      shared.symbols := shared.symbols + xs;
      CreateMissingStreams(NumSlices(|shared.symbols|, shared.maxSubscriptionsPerStream));
      SubscribeStreams(startFrom);
    }

    method SubscribeStreams(startFrom: nat)
      requires Wired()
      modifies marketData
      ensures Wired()
      ensures Views(marketData) ==
              SubscribeEach(old(Views(marketData)), shared.symbols, shared.maxSubscriptionsPerStream, startFrom)
    {
      for i := 0 to |marketData|
        invariant forall j :: 0 <= j < i ==>
          marketData[j].View() ==
          Subscribe(old(marketData[j].View()), shared.symbols, shared.maxSubscriptionsPerStream, startFrom)
        invariant forall j :: i <= j < |marketData| ==> marketData[j].View() == old(marketData[j].View())
      {
        hide Subscribe;
        marketData[i].SubscribeFrom(startFrom);
      }
    }

    /** A client asks for symbols; also an update without new symbols is dispatched. */
    method ClientSubscribes(items: seq<Symbol>)
      requires Valid()
      modifies this`streamId, this`issued, this`marketData, shared, marketData
      ensures Valid()
      ensures View() == OnSubscribe(old(View()), shared.maxSubscriptionsPerStream, publicWsPingFrequency, items)
    {
      NewListKeeps(View(), shared.maxSubscriptionsPerStream, publicWsPingFrequency, items);
      hide MarketInv;
      var xs := AddSymbols(shared, items);
      UpdateSymbols(xs);
    }

    // --- events of one stream ---

    lemma StreamHolds(i: nat)
      requires Valid() && i < |marketData|
      ensures View().streams[i] == marketData[i].View() && marketData[i].index == i && marketData[i].pingFrequency > 0
      ensures StreamInv(marketData[i].View(), shared.symbols, shared.maxSubscriptionsPerStream)
    {
      hide StreamInv;
      assert View().streams[i] == marketData[i].View();
    }

    /** No logon timeout is set when a connection comes up. */
    method StreamConnected(i: nat, timeout: int)
      requires Valid() && i < |marketData| && marketData[i].link == DOWN
      modifies marketData[i]
      ensures Valid() && View() == WithStream(old(View()), i, OnConnected(old(marketData[i].View()), timeout))
    {
      ghost var before, s := View(), marketData[i].View();
      StreamHolds(i);
      ConnectKeeps(s, shared.symbols, shared.maxSubscriptionsPerStream, timeout);
      OneStreamKeeps(before, shared.maxSubscriptionsPerStream, i, OnConnected(s, timeout));
      ghost var t := OnConnected(s, timeout);
      hide MarketInv;
      hide StreamInv;
      marketData[i].Connected(timeout);
      assert marketData[i].View() == t;
      assert View() == WithStream(before, i, t);
    }

    /** The socket is open and waits for the welcome. */
    method StreamOpened(i: nat)
      requires Valid() && i < |marketData| && marketData[i].link == CONNECTED
      modifies marketData[i]
      ensures Valid() && View() == WithStream(old(View()), i, OnReady(old(marketData[i].View())))
    {
      ghost var before, s := View(), marketData[i].View();
      StreamHolds(i);
      ReadyKeeps(s, shared.symbols, shared.maxSubscriptionsPerStream);
      OneStreamKeeps(before, shared.maxSubscriptionsPerStream, i, OnReady(s));
      ghost var t := OnReady(s);
      hide MarketInv;
      hide StreamInv;
      marketData[i].Opened();
      assert marketData[i].View() == t;
      assert View() == WithStream(before, i, t);
    }

    /** The session has enqueued the slice of the stream, once for each topic. */
    method StreamWelcomed(i: nat)
      requires Valid() && i < |marketData| && marketData[i].link == OPEN && !marketData[i].welcome
      modifies marketData[i]
      ensures Valid()
      ensures View() == WithStream(old(View()), i,
                                   OnWelcome(old(marketData[i].View()), shared.symbols, shared.maxSubscriptionsPerStream))
      ensures forall t: Topic ::
                ForTopic(marketData[i].session, t) == Slice(shared.symbols, shared.maxSubscriptionsPerStream, i, 0)
    {
      ghost var before, s := View(), marketData[i].View();
      StreamHolds(i);
      WelcomedStep(before, shared.maxSubscriptionsPerStream, i);
      WelcomeKeeps(s, shared.symbols, shared.maxSubscriptionsPerStream);
      ghost var t := OnWelcome(s, shared.symbols, shared.maxSubscriptionsPerStream);
      hide MarketInv;
      hide StreamInv;
      marketData[i].Welcome();
      assert marketData[i].View() == t;
      assert View() == WithStream(before, i, t);
    }

    /** The next session starts with nothing enqueued; ids go on. */
    method StreamDisconnected(i: nat)
      requires Valid() && i < |marketData| && marketData[i].link != DOWN
      modifies marketData[i]
      ensures Valid() && View() == WithStream(old(View()), i, OnDisconnected(old(marketData[i].View())))
    {
      ghost var before, s := View(), marketData[i].View();
      StreamHolds(i);
      DisconnectKeeps(s, shared.symbols, shared.maxSubscriptionsPerStream);
      OneStreamKeeps(before, shared.maxSubscriptionsPerStream, i, OnDisconnected(s));
      ghost var t := OnDisconnected(s);
      hide MarketInv;
      hide StreamInv;
      marketData[i].Disconnected();
      assert marketData[i].View() == t;
      assert View() == WithStream(before, i, t);
    }

    /** A stream that is not open is not welcomed, and pings are within both bounds. */
    method StreamTimer(i: nat, now: int, refreshed: bool) returns (close: bool)
      requires Valid() && i < |marketData|
      modifies marketData[i]
      ensures Valid() && View() == WithStream(old(View()), i, OnTimer(old(marketData[i].View()), now, refreshed))
      ensures close <==> refreshed && marketData[i].link != OPEN && 0 != marketData[i].logonTimeout < now
      ensures Ping.Punctual(marketData[i].ticks, marketData[i].pings, marketData[i].pingFrequency)
    {
      ghost var before, s := View(), marketData[i].View();
      StreamHolds(i);
      TimerKeeps(s, shared.symbols, shared.maxSubscriptionsPerStream, now, refreshed);
      OneStreamKeeps(before, shared.maxSubscriptionsPerStream, i, OnTimer(s, now, refreshed));
      ghost var t := OnTimer(s, now, refreshed);
      assert s.welcome ==> s.link == OPEN;
      Ping.PingsArePunctual(t.ticks, t.pingFrequency);
      hide Ping.Punctual;
      hide OnTimer;
      hide MarketInv;
      hide StreamInv;
      close := marketData[i].Timer(now, refreshed, marketData[i].link == OPEN);
      assert marketData[i].View() == t;
      assert View() == WithStream(before, i, t);
    }
  }

  /** Insert the items into the shared set; the result lists those that were new, in order. */
  method AddSymbols(shared: Shared, items: seq<Symbol>) returns (xs: seq<Symbol>)
    modifies shared`allSymbols
    ensures xs == NewSymbols(old(shared.allSymbols), items)
    ensures shared.allSymbols == old(shared.allSymbols) + SetOf(items)
  {
    xs := [];
    for i := 0 to |items|
      invariant xs == NewSymbols(old(shared.allSymbols), items[..i])
      invariant shared.allSymbols == old(shared.allSymbols) + SetOf(items[..i])
    {
      NewSymbolsAreNew(old(shared.allSymbols), items[..i]);
      assert items[..i + 1][..i] == items[..i];
      assert SetOf(items[..i + 1]) == SetOf(items[..i]) + {items[i]};
      if items[i] !in shared.allSymbols {
        shared.allSymbols := shared.allSymbols + {items[i]};
        xs := xs + [items[i]];
      }
    }
    assert items[..|items|] == items;
  }

  class Rest {
    const shared: Shared
    const handler: Controller

    constructor (handler: Controller)
      ensures this.handler == handler && shared == handler.shared
    {
      this.handler, shared := handler, handler.shared;
    }

    /** A `ContractsAck`: an update only if a symbol that is not discarded is new. */
    method ContractsDownloaded(contracts: seq<Contract>)
      requires handler.Valid() && handler.shared == shared
      modifies handler`streamId, handler`issued, handler`marketData, shared, handler.marketData
      ensures handler.Valid()
      ensures handler.View() ==
              OnContracts(old(handler.View()), shared.maxSubscriptionsPerStream, handler.publicWsPingFrequency, contracts)
    {
      NewListKeeps(handler.View(), shared.maxSubscriptionsPerStream, handler.publicWsPingFrequency, Kept(contracts));
      hide MarketInv;
      var xs := KeptAndNew(contracts);
      if xs != [] {
        handler.UpdateSymbols(xs);
      }
    }

    method KeptAndNew(contracts: seq<Contract>) returns (xs: seq<Symbol>)
      modifies shared`allSymbols
      ensures xs == NewSymbols(old(shared.allSymbols), Kept(contracts))
      ensures shared.allSymbols == old(shared.allSymbols) + SetOf(Kept(contracts))
    {
      xs := [];
      for i := 0 to |contracts|
        invariant xs == NewSymbols(old(shared.allSymbols), Kept(contracts[..i]))
        invariant shared.allSymbols == old(shared.allSymbols) + SetOf(Kept(contracts[..i]))
      {
        KeptStep(contracts, i, old(shared.allSymbols));
        if !contracts[i].discard {
          var symbol := contracts[i].symbol;
          if symbol !in shared.allSymbols {
            shared.allSymbols := shared.allSymbols + {symbol};
            xs := xs + [symbol];
          }
        }
      }
      assert contracts[..|contracts|] == contracts;
    }
  }

  /** The next contract, kept or discarded, known or new. */
  lemma KeptStep(contracts: seq<Contract>, i: nat, known: set<Symbol>)
    requires i < |contracts|
    ensures var kept, next := Kept(contracts[..i]), Kept(contracts[..i + 1]);
            var symbol := contracts[i].symbol;
            var isNew := !contracts[i].discard && symbol !in known + SetOf(kept);
            && NewSymbols(known, next) == NewSymbols(known, kept) + (if isNew then [symbol] else [])
            && known + SetOf(next) == known + SetOf(kept) + (if isNew then {symbol} else {})
  {
    assert contracts[..i + 1][..i] == contracts[..i];
    var kept, next := Kept(contracts[..i]), Kept(contracts[..i + 1]);
    if contracts[i].discard {
      assert next == kept;
    } else {
      var symbol := contracts[i].symbol;
      assert next == kept + [symbol];
      assert next[..|next| - 1] == kept;
      NewSymbolsAreNew(known, kept);
      assert SetOf(next) == SetOf(kept) + {symbol};
    }
  }
}
