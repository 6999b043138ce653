/**
 The actors of the recovery protocol as objects that update their fields in place. `Request` is
 shared by the other two. Every method is proved against the function of `Recovery` that the
 runs are made of; conditions that the source asserts are preconditions here.
 */
module RecoveryActors {
  import opened Wrappers
  import opened LimitRequest
  import opened Recovery
  import Ping
  import RecoveryEffects

  class Request {
    var privateToken: Slot
    var balances: Slot
    var positions: Slot
    var openOrders: Slot
    var staleOrders: Slot
    var trades: Slot
    var detailsStaleOrders: set<Key>
    ghost var session: seq<Entry>
    ghost var queued: multiset<Key>

    ghost function View(): Requests
      reads this
    {
      Requests(privateToken, balances, positions, openOrders, staleOrders, trades, detailsStaleOrders, session, queued)
    }

    constructor ()
      ensures View() == NO_REQUESTS
    {
      privateToken, balances, positions := EMPTY_SLOT, EMPTY_SLOT, EMPTY_SLOT;
      openOrders, staleOrders, trades := EMPTY_SLOT, EMPTY_SLOT, EMPTY_SLOT;
      detailsStaleOrders := {};
      session, queued := [], multiset{};
    }

    ghost method Log(e: Entry)
      modifies this`session
      ensures View() == old(View()).Log(e)
    {
      session := session + [e];
    }

    ghost method StartSession()
      modifies this`session
      ensures View() == old(View()).(session := [])
    {
      session := [];
    }

    /** `request_.<slot>.request(trace_info)` */
    method Ask(n: Name)
      modifies this
      ensures View() == old(View()).Ask(n)
    {
      match n {
      case PRIVATE_TOKEN => privateToken := privateToken.Request();
      case BALANCES => balances := balances.Request();
      case POSITIONS => positions := positions.Request();
      case OPEN_ORDERS => openOrders := openOrders.Request();
      case STALE_ORDERS => staleOrders := staleOrders.Request();
      case TRADES => trades := trades.Request();
      }
      Log(Requested(n));
    }

    /** `request_.<slot>.has_response()` */
    method HasResponse(n: Name) returns (response: bool)
      modifies this
      ensures response == old(View()).Get(n).response
      ensures View() == if response then old(View()).Consume(n) else old(View())
    {
      match n {
      case PRIVATE_TOKEN => response, privateToken := privateToken.response, privateToken.Consume();
      case BALANCES => response, balances := balances.response, balances.Consume();
      case POSITIONS => response, positions := positions.response, positions.Consume();
      case OPEN_ORDERS => response, openOrders := openOrders.response, openOrders.Consume();
      case STALE_ORDERS => response, staleOrders := staleOrders.response, staleOrders.Consume();
      case TRADES => response, trades := trades.response, trades.Consume();
      }
    }

    /** `request_.<slot>.check_pending(...)`: true when the callback is to run. */
    method TakePending(n: Name, allowed: bool) returns (fires: bool)
      modifies this
      ensures fires <==> old(View()).Get(n).Fires(allowed)
      ensures View() == if fires then old(View()).Put(n, old(View()).Get(n).CheckPending(true)) else old(View())
    {
      match n {
      case PRIVATE_TOKEN => fires, privateToken := privateToken.Fires(allowed), privateToken.CheckPending(allowed);
      case BALANCES => fires, balances := balances.Fires(allowed), balances.CheckPending(allowed);
      case POSITIONS => fires, positions := positions.Fires(allowed), positions.CheckPending(allowed);
      case OPEN_ORDERS => fires, openOrders := openOrders.Fires(allowed), openOrders.CheckPending(allowed);
      case STALE_ORDERS => fires, staleOrders := staleOrders.Fires(allowed), staleOrders.CheckPending(allowed);
      case TRADES => fires, trades := trades.Fires(allowed), trades.CheckPending(allowed);
      }
    }

    /** `details_stale_orders.insert(key)` */
    method Insert(key: Key) returns (inserted: bool)
      modifies this`detailsStaleOrders, this`queued
      ensures inserted <==> key !in old(detailsStaleOrders)
      ensures detailsStaleOrders == old(detailsStaleOrders) + {key}
      ensures queued == old(queued) + if inserted then multiset{key} else multiset{}
    {
      inserted := key !in detailsStaleOrders;
      detailsStaleOrders := detailsStaleOrders + {key};
      queued := queued + if inserted then multiset{key} else multiset{};
    }

    /** `request_.<slot>.commit(trace_info)` */
    method Commit(n: Name)
      modifies this
      ensures View() == old(View()).Commit(n) && View().Get(n).response
    {
      match n {
      case PRIVATE_TOKEN => privateToken := privateToken.Commit();
      case BALANCES => balances := balances.Commit();
      case POSITIONS => positions := positions.Commit();
      case OPEN_ORDERS => openOrders := openOrders.Commit();
      case STALE_ORDERS => staleOrders := staleOrders.Commit();
      case TRADES => trades := trades.Commit();
      }
      Log(Committed(n));
    }
  }

  /** What offering the first `i` orders adds to a set that started as `before`. */
  ghost function Added(before: set<Key>, orders: seq<Key>, i: nat): set<Key>
    requires i <= |orders|
  {
    Keys(orders[..i]) - before
  }

  lemma AddedStep(before: set<Key>, orders: seq<Key>, i: nat, queued: multiset<Key>)
    requires i < |orders|
    ensures var a := Added(before, orders, i);
            var b := Added(before, orders, i + 1);
            var isNew := orders[i] !in before + a;
            && before + a + {orders[i]} == before + b
            && |b| == |a| + (if isNew then 1 else 0)
            && queued + multiset(a) + (if isNew then multiset{orders[i]} else multiset{}) == queued + multiset(b)
  {
    assert Keys(orders[..i + 1]) == Keys(orders[..i]) + {orders[i]};
    var a := Added(before, orders, i);
    if orders[i] !in before + a {
      assert Added(before, orders, i + 1) == a + {orders[i]};
      assert multiset(a + {orders[i]}) == multiset(a) + multiset{orders[i]};
    } else {
      assert Added(before, orders, i + 1) == a;
      assert before + a + {orders[i]} == before + a;
    }
  }

  lemma AddedAll(before: set<Key>, orders: seq<Key>)
    ensures var a := Added(before, orders, |orders|);
            && a == Keys(orders) - before && before + a == before + Keys(orders)
            && (before + a != before <==> |a| > 0) && (Keys(orders) <= before <==> |a| == 0)
  {
    assert orders[..|orders|] == orders;
    var a := Added(before, orders, |orders|);
    if a != {} {
      var k :| k in a;
      assert k in before + a;
    }
  }

  /** Asking changes one slot and the history. */
  lemma AskSets(q: Requests, n: Name)
    ensures q.Ask(n).Get(n) == Slot(true, false) && q.Ask(n).stale == q.stale
    ensures forall m: Name :: m != n ==> q.Ask(n).Get(m) == q.Get(m)
  {
  }

  class DropCopy {
    const request: Request
    const settings: Settings
    const pingFrequency: nat
    var welcome: bool
    var ready: bool
    var status: Status
    var query: string
    var stage: Stage
    var waiting: nat
    var logonTimeout: int
    var nextPing: int
    var nextSimulated: int
    var nextStaleCheck: int
    ghost var tokens: seq<TokenEntry>
    ghost var ticks: seq<int>

    ghost function View(): Drop
      reads this
    {
      Drop(welcome, ready, status, query, stage, waiting, pingFrequency,
           logonTimeout, nextPing, nextSimulated, nextStaleCheck, tokens, ticks)
    }

    ghost function State(): Core
      reads this, request
    {
      Core(View(), request.View(), None)
    }

    ghost predicate Valid()
      reads this
    {
      && pingFrequency > 0
      && (ready <==> stage == DONE)
      && (welcome <==> stage != UNDEFINED)
      && (stage == UNDEFINED ==> waiting == 0)
    }

    constructor (request: Request, settings: Settings, query: string, pingFrequency: nat)
      requires pingFrequency > 0
      ensures Valid() && View() == NewDrop(query, pingFrequency)
      ensures this.request == request && this.settings == settings
    {
      this.request, this.settings, this.pingFrequency := request, settings, pingFrequency;
      this.query, status, stage := query, NO_STATUS, UNDEFINED;
      welcome, ready, waiting := false, false, 0;
      logonTimeout, nextPing, nextSimulated, nextStaleCheck := 0, 0, 0, 0;
      tokens, ticks := [], [];
    }

    method Publish(s: Status)
      modifies this`status, request`session
      ensures View() == old(View()).(status := s) && request.View() == old(request.View()).Log(Published(s))
    {
      status := s;
      request.Log(Published(s));
    }

    /** A stage that waits for the answer to a request. */
    method PublishAndAsk(n: Name)
      modifies this`status, request
      ensures View() == old(View()).(status := DOWNLOADING)
      ensures request.View() == old(request.View()).Log(Published(DOWNLOADING)).Ask(n)
    {
      Publish(DOWNLOADING);
      request.Ask(n);
    }

    /** A stage that waits for the acknowledgement of a subscription. */
    method PublishAndSubscribe(s: Stage)
      modifies this`status, request`session
      ensures View() == old(View()).(status := DOWNLOADING)
      ensures request.View() == old(request.View()).Log(Published(DOWNLOADING)).Log(Subscribed(s))
    {
      Publish(DOWNLOADING);
      request.Log(Subscribed(s));
    }

    /** The stage that waits only if there are stale orders to ask for. */
    method DownloadStaleOrders() returns (n: nat)
      modifies this`status, request
      ensures (State(), n) == Callback(old(State()), settings, GET_STALE_ORDERS)
    {
      request.Log(StaleTested(request.detailsStaleOrders != {}));
      if request.detailsStaleOrders == {} {
        n := 0;
      } else {
        PublishAndAsk(STALE_ORDERS);
        n := 1;
      }
    }

    /** The download callback for one stage: 0 to go on, n to wait for n checks. */
    method Download(s: Stage) returns (n: nat)
      requires s != UNDEFINED
      requires s == DONE ==> !ready
      modifies this, request
      ensures (State(), n) == Callback(old(State()), settings, s)
    {
      n := 1;
      match s
      case SUBSCRIBE_BALANCES => PublishAndSubscribe(s);
      case GET_BALANCES => PublishAndAsk(BALANCES);
      case SUBSCRIBE_POSITIONS => PublishAndSubscribe(s);
      case GET_POSITIONS => PublishAndAsk(POSITIONS);
      case SUBSCRIBE_ORDERS => PublishAndSubscribe(s);
      case GET_OPEN_ORDERS => PublishAndAsk(OPEN_ORDERS);
      case GET_STALE_ORDERS => n := DownloadStaleOrders();
      case GET_TRADES =>
        if settings.tradesLookback != 0 {
          PublishAndAsk(TRADES);
        } else {
          n := 0;
        }
      case DONE =>
        Publish(READY);
        assert !ready;
        ready := true;
        n := 0;
    }

    /** `core::Download2`: run the callback, and go on while it returns 0. */
    method Advance(s: Stage)
      requires s != UNDEFINED && !ready && welcome && pingFrequency > 0
      modifies this, request
      ensures State() == Enter(old(State()), settings, s) && Valid()
      decreases Rank(DONE) - Rank(s)
    {
      stage := s;
      var n := Download(s);
      if n == 0 && s != DONE {
        Advance(Next(s));
      } else {
        waiting := n;
      }
    }

    /** `core::Download2::check` */
    method CheckDownload(s: Stage)
      requires Valid()
      modifies this, request
      ensures Valid() && State() == Check(old(State()), settings, s)
    {
      if stage == s && waiting != 0 && s != DONE {
        waiting := waiting - 1;
        if waiting == 0 {
          Advance(Next(s));
        }
      }
    }

    /** Queue the orders that the dispatcher reports as stale; true iff the queue grew. */
    method FindStaleOrders(orders: seq<Key>) returns (grew: bool)
      modifies request`detailsStaleOrders, request`queued
      ensures request.View() == old(request.View()).Queue(Keys(orders))
      ensures request.detailsStaleOrders == old(request.detailsStaleOrders) + set k | k in orders
      ensures grew <==> request.detailsStaleOrders != old(request.detailsStaleOrders)
      ensures grew <==> !(Keys(orders) <= old(request.detailsStaleOrders))
    {
      ghost var before, queued := request.detailsStaleOrders, request.queued;
      var counter := 0;
      for i := 0 to |orders|
        invariant request.detailsStaleOrders == before + Added(before, orders, i)
        invariant request.queued == queued + multiset(Added(before, orders, i))
        invariant counter == |Added(before, orders, i)|
      {
        hide Added;
        AddedStep(before, orders, i, queued);
        var inserted := request.Insert(orders[i]);
        if inserted {
          counter := counter + 1;
        }
      }
      AddedAll(before, orders);
      grew := counter > 0;
    }

    method ServeRequestQueue(scan: seq<Key>) returns (fault: Option<Fault>)
      requires Valid()
      modifies this, request
      ensures Valid()
      ensures Core(View(), request.View(), fault) == CheckRequestQueue(old(State()), settings, scan)
      ensures fault.Some? <==>
                old(stage) == GET_STALE_ORDERS && old(request.staleOrders.response) && old(request.detailsStaleOrders) != {}
      ensures request.detailsStaleOrders == old(request.detailsStaleOrders) +
              if old(stage) == GET_OPEN_ORDERS && old(request.openOrders.response) then (set k | k in scan) else {}
    {
      RecoveryEffects.QueueFinds(State(), settings, scan);
      fault := None;
      if !IsGet(stage) {
        return;
      }
      var response := request.HasResponse(SlotOf(stage));
      if response {
        if stage == GET_OPEN_ORDERS {
          var _ := FindStaleOrders(scan);
        } else if stage == GET_STALE_ORDERS && request.detailsStaleOrders != {} {
          return Some(STALE_NOT_EMPTY);
        }
        CheckDownload(stage);
      }
    }

    method FindStaleOrdersPeriodically(origin: int, scan: seq<Key>)
      requires Valid()
      modifies this`nextStaleCheck, request
      ensures Valid() && State() == CheckStaleOrders(old(State()), settings, origin, scan)
      ensures var due := old(nextStaleCheck) < origin;
              && nextStaleCheck == (if due then origin + settings.checkStaleOrderFreq else old(nextStaleCheck))
              && request.detailsStaleOrders == old(request.detailsStaleOrders) + if due then (set k | k in scan) else {}
      ensures request.staleOrders ==
              if request.detailsStaleOrders != old(request.detailsStaleOrders) then Slot(true, false)
              else old(request.staleOrders)
    {
      hide Requests.Ask;
      hide Requests.Queue;
      if nextStaleCheck < origin {
        nextStaleCheck := origin + settings.checkStaleOrderFreq;
        var grew := FindStaleOrders(scan);
        ghost var queued := request.View();
        if grew {
          request.Ask(STALE_ORDERS);
          AskSets(queued, STALE_ORDERS);
        }
        assert request.View() == if grew then queued.Ask(STALE_ORDERS) else queued;
        assert request.staleOrders == request.View().Get(STALE_ORDERS) && queued.Get(STALE_ORDERS) == queued.staleOrders;
      }
    }

    method RefreshPrivateToken()
      requires Valid()
      modifies this`query, this`tokens, request
      ensures Valid() && State() == RequestPrivateToken(old(State()))
    {
      if query == "" {
        return;
      }
      query := "";
      tokens := tokens + [Refreshed];
      request.Log(Suspended);
      request.Ask(PRIVATE_TOKEN);
    }

    method TimerWhenOpen(t: Tick) returns (fault: Option<Fault>)
      requires Valid()
      modifies this, request
      ensures Valid() && Core(View(), request.View(), fault) == WhenOpen(old(State()), settings, t)
    {
      if welcome {
        ticks := ticks + [t.now];
        if Ping.Due(nextPing, t.now) {
          assert pingFrequency > 0;
          nextPing := Ping.Next(t.now, pingFrequency);
          request.Log(PingSent(t.now));
        }
      }
      fault := ServeRequestQueue(t.openScan);
      if fault.None? && status == READY {
        FindStaleOrdersPeriodically(t.origin, t.periodicScan);
      }
    }

    method SimulateExpiredToken(now: int)
      requires Valid()
      modifies this`nextSimulated, this`query, this`tokens, request
      ensures Valid() && State() == Simulate(old(State()), now)
    {
      if nextSimulated != 0 && nextSimulated < now {
        nextSimulated := 0;
        RefreshPrivateToken();
      }
    }

    method Timer(t: Tick, open: bool) returns (fault: Option<Fault>)
      requires Valid()
      requires !open ==> !welcome
      modifies this, request
      ensures Valid() && Core(View(), request.View(), fault) == OnTimer(old(State()), settings, t, open)
    {
      fault := None;
      if t.refreshed {
        if open {
          fault := TimerWhenOpen(t);
          if fault.Some? {
            return;
          }
        } else if logonTimeout != 0 && logonTimeout < t.now {
          assert !welcome;
          request.Log(Closed);
        }
        var _ := request.HasResponse(PRIVATE_TOKEN);
        SimulateExpiredToken(t.now);
      }
    }

    method PrivateToken(q: string)
      requires Valid()
      modifies this, request
      ensures Valid() && State() == OnPrivateToken(old(State()), q)
    {
      if q != "" && query != q {
        query := q;
        tokens := tokens + [Accepted(q), Continued];
        request.Log(Resumed);
      }
    }

    method Connected(origin: int)
      requires Valid() && logonTimeout == 0
      modifies this, request
      ensures Valid() && State() == OnConnected(old(State()), settings, origin)
    {
      request.StartSession();
      ticks := [];
      logonTimeout := origin + settings.requestTimeout;
      if settings.simulateExpiredToken != 0 {
        nextSimulated := origin + settings.simulateExpiredToken;
      }
    }

    method Disconnected()
      requires Valid()
      modifies this, request
      ensures Valid() && State() == OnDisconnected(old(State()))
    {
      hide Requests.Log;
      ready := false;
      Publish(DISCONNECTED);
      ResetSession();
    }

    method ResetSession()
      modifies this`stage, this`waiting, this`welcome, this`logonTimeout, this`nextPing
      ensures View() == old(View()).(stage := UNDEFINED, waiting := 0, welcome := false, logonTimeout := 0, nextPing := 0)
    {
      stage, waiting := UNDEFINED, 0;
      welcome := false;
      logonTimeout, nextPing := 0, 0;
    }

    method Ready()
      requires Valid()
      modifies this, request
      ensures Valid() && State() == OnReady(old(State()))
    {
      Publish(LOGIN_SENT);
    }

    method Welcome()
      requires Valid() && !welcome
      modifies this, request
      ensures Valid() && State() == OnWelcome(old(State()), settings)
    {
      welcome := true;
      request.Log(Welcomed);
      Advance(SUBSCRIBE_BALANCES);
    }

    method Error(expired: bool) returns (fault: Option<Fault>)
      requires Valid()
      modifies this, request
      ensures Valid() && Core(View(), request.View(), fault) == OnError(old(State()), settings, expired)
    {
      fault := None;
      if expired {
        if settings.crashOnExpiredToken {
          return Some(EXPIRED_TOKEN);
        }
        RefreshPrivateToken();
      }
    }

    method Ack(id: Option<Stage>)
      requires Valid()
      modifies this, request
      ensures Valid() && State() == OnAck(old(State()), settings, id)
    {
      if id.Some? {
        request.Log(Acked(id.value));
        CheckDownload(id.value);
      }
    }
  }

  /** What a token handler can see of the world. */
  ghost function Partly(dc: Drop, created: bool, req: Requests): World {
    World(dc, req, NEW_REST, created, DOWN, false, None)
  }

  /** The part of the controller that keeps the drop copy of one account. */
  class Controller {
    const request: Request
    const settings: Settings
    var dropCopy: DropCopy?

    ghost predicate Valid()
      reads this, dropCopy
    {
      dropCopy != null ==> dropCopy.request == request && dropCopy.settings == settings && dropCopy.Valid()
    }

    ghost function View(): Drop
      reads this, dropCopy
    {
      if dropCopy == null then NewDrop("", 0) else dropCopy.View()
    }

    constructor (request: Request, settings: Settings)
      ensures Valid() && dropCopy == null && this.request == request && this.settings == settings
    {
      this.request, this.settings, dropCopy := request, settings, null;
    }

    /** The first token creates the drop copy, later ones are forwarded to it. */
    method PrivateToken(t: Token)
      requires Valid() && t.pingInterval > 0
      modifies this, dropCopy, request
      ensures Valid() && (dropCopy == old(dropCopy) || fresh(dropCopy))
      ensures Partly(View(), dropCopy != null, request.View()) ==
              Deliver(old(Partly(View(), dropCopy != null, request.View())), Some(t))
      ensures dropCopy != null && dropCopy.query == "?token=" + t.token
      ensures if old(dropCopy) == null then fresh(dropCopy) && dropCopy.pingFrequency == t.pingInterval
              else dropCopy == old(dropCopy)
    {
      var query := "?token=" + t.token;
      if dropCopy == null {
        dropCopy := new DropCopy(request, settings, query, t.pingInterval);
      } else {
        dropCopy.PrivateToken(query);
      }
    }
  }

  /** One query per known order, one report per unknown one; the two partition the queue. */
  ghost predicate Served(todo: set<Key>, stale: set<Key>, known: set<Key>, calls: multiset<Key>, missing: multiset<Key>) {
    && todo <= stale
    && calls == multiset((stale - todo) * known)
    && missing == multiset((stale - todo) - known)
  }

  lemma ServeOne(todo: set<Key>, stale: set<Key>, known: set<Key>, calls: multiset<Key>, missing: multiset<Key>, k: Key)
    requires Served(todo, stale, known, calls, missing) && k in todo
    ensures k in known ==> Served(todo - {k}, stale, known, calls + multiset{k}, missing)
    ensures k !in known ==> Served(todo - {k}, stale, known, calls, missing + multiset{k})
  {
    var done := stale - todo;
    assert stale - (todo - {k}) == done + {k};
    if k in known {
      assert (done + {k}) * known == done * known + {k};
      assert (done + {k}) - known == done - known;
    } else {
      assert (done + {k}) * known == done * known;
      assert (done + {k}) - known == (done - known) + {k};
    }
  }

  /** The REST state after these queries and reports. */
  ghost function WithQueries(r: Rest, queried: multiset<Key>, missing: multiset<Key>): Rest {
    r.(counter := r.counter + |queried|, calls := r.calls + queried, sent := r.sent + queried,
       reported := r.reported + missing)
  }

  lemma MoreQueries(r: Rest, queried: multiset<Key>, missing: multiset<Key>, k: Key)
    ensures WithQueries(WithQueries(r, queried, missing), multiset{k}, multiset{}) ==
            WithQueries(r, queried + multiset{k}, missing)
    ensures WithQueries(WithQueries(r, queried, missing), multiset{}, multiset{k}) ==
            WithQueries(r, queried, missing + multiset{k})
  {
    assert r.calls + queried + multiset{k} == r.calls + (queried + multiset{k});
    assert r.sent + queried + multiset{k} == r.sent + (queried + multiset{k});
    assert r.reported + missing + multiset{k} == r.reported + (missing + multiset{k});
    var none: multiset<Key> := multiset{};
    assert r.calls + queried + none == r.calls + queried && r.sent + queried + none == r.sent + queried;
    assert r.reported + missing + none == r.reported + missing;
  }

  class OrderEntryREST {
    const request: Request
    var status: Status
    var stage: RestStage
    var hasDownloadedPrivateToken: bool
    var downloadStaleOrdersCounter: nat
    ghost var replies: multiset<Name>
    ghost var calls: multiset<Key>
    ghost var sent: multiset<Key>
    ghost var reported: multiset<Key>
    ghost var answered: multiset<Key>
    ghost var lost: multiset<Key>

    ghost function View(): Rest
      reads this
    {
      Rest(status, stage, hasDownloadedPrivateToken, downloadStaleOrdersCounter,
           replies, calls, sent, reported, answered, lost)
    }

    ghost function State(): RestCore
      reads this, request
    {
      RestCore(View(), request.View(), None)
    }

    constructor (request: Request)
      ensures View() == NEW_REST && this.request == request
    {
      this.request := request;
      status, stage := NO_STATUS, REST_UNDEFINED;
      hasDownloadedPrivateToken, downloadStaleOrdersCounter := false, 0;
      replies, calls, sent, reported, answered, lost :=
        multiset{}, multiset{}, multiset{}, multiset{}, multiset{}, multiset{};
    }

    /** The web client accepts a request and keeps its callback. */
    ghost method Sent(n: Name)
      modifies this`replies
      ensures replies == old(replies) + multiset{n}
    {
      replies := replies + multiset{n};
    }

    /** Connected, or a retry of the token download. */
    method Begin()
      modifies this
      ensures State() == RestEnter(old(State()))
    {
      if hasDownloadedPrivateToken {
        stage, status := REST_DONE, READY;
      } else {
        stage, status := REST_PRIVATE_TOKEN, DOWNLOADING;
        Sent(PRIVATE_TOKEN);
      }
    }

    method Disconnected()
      modifies this
      ensures State() == RestOnDisconnected(old(State()))
    {
      status := DISCONNECTED;
      stage := REST_UNDEFINED;
    }

    method ServeSlot(n: Name, allowed: set<Name>)
      requires n != STALE_ORDERS
      modifies this`replies, request
      ensures State() == CheckPending(old(State()), n, allowed)
    {
      var fires := request.TakePending(n, n in allowed);
      if fires {
        Sent(n);
      }
    }

    method GetOrder(k: Key)
      modifies this`calls, this`sent
      ensures calls == old(calls) + multiset{k} && sent == old(sent) + multiset{k}
    {
      calls, sent := calls + multiset{k}, sent + multiset{k};
    }

    /** The body of the loop below: query a known order, report an unknown one. */
    method QueryStaleOrder(k: Key, known: set<Key>)
      modifies this`calls, this`sent, this`reported, this`downloadStaleOrdersCounter
      ensures View() == if k in known then WithQueries(old(View()), multiset{k}, multiset{})
                        else WithQueries(old(View()), multiset{}, multiset{k})
    {
      if k in known {
        GetOrder(k);
        downloadStaleOrdersCounter := downloadStaleOrdersCounter + 1;
      } else {
        reported := reported + multiset{k};
      }
    }

    /** The loop of the stale-orders callback. */
    method QueryStaleOrders(known: set<Key>)
      modifies this`calls, this`sent, this`reported, this`downloadStaleOrdersCounter, request`detailsStaleOrders
      ensures var stale := old(request.detailsStaleOrders);
              View() == WithQueries(old(View()), multiset(stale * known), multiset(stale - known))
      ensures request.detailsStaleOrders == {}
    {
      ghost var stale, before := request.detailsStaleOrders, View();
      ghost var queried, missing: multiset<Key> := multiset{}, multiset{};
      var todo := request.detailsStaleOrders;
      while todo != {}
        invariant Served(todo, stale, known, queried, missing)
        invariant View() == WithQueries(before, queried, missing)
        decreases todo
      {
        hide Served;
        hide View;
        hide WithQueries;
        var k :| k in todo;
        ServeOne(todo, stale, known, queried, missing, k);
        MoreQueries(before, queried, missing, k);
        QueryStaleOrder(k, known);
        if k in known {
          queried := queried + multiset{k};
        } else {
          missing := missing + multiset{k};
        }
        todo := todo - {k};
      }
      assert stale - {} == stale;
      request.detailsStaleOrders := {};
    }

    method ServeStaleOrders(allowed: set<Name>, known: set<Key>)
      modifies this, request
      ensures State() == CheckPendingStale(old(State()), allowed, known)
    {
      var fires := request.TakePending(STALE_ORDERS, STALE_ORDERS in allowed);
      if fires {
        QueryStaleOrders(known);
      }
    }

    /** `allowed`: the slots for which the limiter admits a request; `known`: the dispatcher's orders. */
    method Timer(refreshed: bool, allowed: set<Name>, known: set<Key>)
      modifies this, request
      ensures State() == RestOnTimer(old(State()), refreshed, allowed, known)
    {
      if refreshed && status == READY {
        ServeSlot(PRIVATE_TOKEN, allowed);
        ServeSlot(BALANCES, allowed);
        ServeSlot(POSITIONS, allowed);
        ServeSlot(OPEN_ORDERS, allowed);
        ServeStaleOrders(allowed, known);
        ServeSlot(TRADES, allowed);
      }
    }

    /** `check_relaxed(PRIVATE_TOKEN)` and the end of the initial download. */
    method TokenDownloaded()
      modifies this`stage, this`status, this`hasDownloadedPrivateToken
      ensures stage == if old(stage) == REST_PRIVATE_TOKEN then REST_DONE else old(stage)
      ensures status == if old(stage) == REST_PRIVATE_TOKEN then READY else old(status)
      ensures hasDownloadedPrivateToken
    {
      if stage == REST_PRIVATE_TOKEN {
        stage, status := REST_DONE, READY;
      }
      hasDownloadedPrivateToken := true;
    }

    /** `get_private_token_ack`: a usable token goes to the controller before the slot commits. */
    method GetPrivateTokenAck(reply: Reply<Token>, handler: Controller) returns (fault: Option<Fault>)
      requires PRIVATE_TOKEN in replies && handler.Valid() && handler.request == request
      modifies this, request, handler, handler.dropCopy
      ensures handler.Valid() && (handler.dropCopy == old(handler.dropCopy) || fresh(handler.dropCopy))
      ensures var v := Deliver(old(Partly(handler.View(), handler.dropCopy != null, request.View())), Delivered(reply));
              && handler.View() == v.dc && (handler.dropCopy != null) == v.created
              && request.View() == if fault.Some? then v.req else v.req.Commit(PRIVATE_TOKEN)
      ensures fault == TokenFault(reply)
      ensures fault == if reply.Redirection? then Some(REDIRECTED)
                       else if HasBody(reply) && !Usable(reply.body.value) then Some(BAD_TOKEN) else None
      ensures HasBody(reply) && Usable(reply.body.value) ==>
                && handler.dropCopy != null && handler.dropCopy.query == "?token=" + reply.body.value.token
                && (old(handler.dropCopy) == null ==> handler.dropCopy.pingFrequency == reply.body.value.pingInterval)
                && hasDownloadedPrivateToken
      ensures !(HasBody(reply) && Usable(reply.body.value)) ==> handler.View() == old(handler.View())
      ensures fault.None? ==> request.privateToken.response
      ensures var r := old(View()).(replies := old(View()).replies - multiset{PRIVATE_TOKEN});
              View() == if Delivered(reply).Some? then Downloaded(r) else r
    {
      var token: Option<Token>;
      token, fault := DecodeToken(reply);
      ghost var v := Deliver(Partly(handler.View(), handler.dropCopy != null, request.View()), token);
      assert token == None ==> v == Partly(handler.View(), handler.dropCopy != null, request.View());
      hide Deliver;
      hide Delivered;
      hide TokenFault;
      hide Downloaded;
      hide Requests.Commit;
      hide Controller.View;
      replies := replies - multiset{PRIVATE_TOKEN};
      if fault.Some? {
        return;
      }
      if token.Some? {
        PassToken(token.value, handler);
      }
      request.Commit(PRIVATE_TOKEN);
    }

    /** What the response comes to: a usable token, a fault, or neither. */
    method DecodeToken(reply: Reply<Token>) returns (token: Option<Token>, fault: Option<Fault>)
      ensures token == Delivered(reply) && fault == TokenFault(reply)
      ensures token == if HasBody(reply) && Usable(reply.body.value) then reply.body else None
      ensures fault == if reply.Redirection? then Some(REDIRECTED)
                       else if HasBody(reply) && !Usable(reply.body.value) then Some(BAD_TOKEN) else None
    {
      var handled := ProcessResponse(reply);
      token, fault := None, None;
      if handled.Fatal? {
        fault := Some(REDIRECTED);
      } else if handled.Body? {
        var t := handled.value;
        if t.accepted && t.servers && t.pingInterval != 0 {
          token := Some(t);
        } else {
          fault := Some(BAD_TOKEN);
        }
      }
    }

    /** The handler of a usable token runs, and then the initial download is over. */
    method PassToken(t: Token, handler: Controller)
      requires Usable(t) && handler.Valid() && handler.request == request
      modifies this`stage, this`status, this`hasDownloadedPrivateToken, request, handler, handler.dropCopy
      ensures handler.Valid() && (handler.dropCopy == old(handler.dropCopy) || fresh(handler.dropCopy))
      ensures Partly(handler.View(), handler.dropCopy != null, request.View()) ==
              Deliver(old(Partly(handler.View(), handler.dropCopy != null, request.View())), Some(t))
      ensures handler.dropCopy != null && handler.dropCopy.query == "?token=" + t.token
      ensures old(handler.dropCopy) == null ==> handler.dropCopy.pingFrequency == t.pingInterval
      ensures View() == Downloaded(old(View())) && hasDownloadedPrivateToken
    {
      hide Deliver;
      handler.PrivateToken(t);
      TokenDownloaded();
    }

    /** `get_account_ack`, `get_positions_ack`, `get_orders_ack` and `get_fills_ack`. */
    method SlotAck(n: Name, reply: Reply<()>) returns (fault: Option<Fault>)
      requires n in replies
      modifies this`replies, request
      ensures RestCore(View(), request.View(), fault) == OnSlotReply(old(State()), n, reply)
      ensures fault == if reply.Redirection? then Some(REDIRECTED) else None
      ensures !reply.Redirection? ==> request.View().Get(n).response
    {
      replies := replies - multiset{n};
      var handled := ProcessResponse(reply);
      fault := if handled.Fatal? then Some(REDIRECTED) else None;
      if fault.None? {
        request.Commit(n);
      }
    }

    /** `get_order_ack`; `rejected` when the exchange does not know the order. */
    method GetOrderAck(k: Key, reply: Reply<OrderBody>) returns (rejected: bool, fault: Option<Fault>)
      requires k in calls
      modifies this, request
      ensures RestCore(View(), request.View(), fault) == OnOrderReply(old(State()), k, reply)
      ensures rejected <==> reply == Success(Some(OrderUnknown)) || reply == ClientError(Some(OrderUnknown))
    {
      Answered(k);
      var handled := ProcessResponse(reply);
      rejected := handled == Body(OrderUnknown);
      if handled.Fatal? {
        fault := Some(REDIRECTED);
      } else {
        fault := CountAnswer();
      }
    }

    /** The web client runs and drops the callback. */
    ghost method Answered(k: Key)
      modifies this`calls, this`answered
      ensures View() == old(View()).(calls := old(calls) - multiset{k}, answered := old(answered) + multiset{k})
    {
      calls, answered := calls - multiset{k}, answered + multiset{k};
    }

    /** The web client drops a callback without running it. */
    ghost method LoseReply(n: Name)
      modifies this`replies
      ensures State() == Received(old(State()), n)
    {
      replies := replies - multiset{n};
    }

    ghost method LoseCall(k: Key)
      modifies this`calls, this`lost
      ensures View() == old(View()).(calls := old(calls) - multiset{k}, lost := old(lost) + multiset{k})
    {
      calls, lost := calls - multiset{k}, lost + multiset{k};
    }

    method CountAnswer() returns (fault: Option<Fault>)
      modifies this`downloadStaleOrdersCounter, request
      ensures fault == if old(downloadStaleOrdersCounter) == 0 then Some(COUNTER_ZERO) else None
      ensures View() == if fault.None? then old(View()).(counter := old(downloadStaleOrdersCounter) - 1) else old(View())
      ensures request.View() == if old(downloadStaleOrdersCounter) == 1 then old(request.View()).Commit(STALE_ORDERS)
                                else old(request.View())
    {
      if downloadStaleOrdersCounter == 0 {
        return Some(COUNTER_ZERO);
      }
      downloadStaleOrdersCounter := downloadStaleOrdersCounter - 1;
      if downloadStaleOrdersCounter == 0 {
        request.Commit(STALE_ORDERS);
      }
      fault := None;
    }
  }
}
