/**
 The gateway of one account: both actors, the object they share and their connections, driven by
 events. Its objects are always in a state that a run reaches, so what every run keeps holds of
 them, and the conditions that the actors assert hold whenever they are asserted.
 */
module RecoveryGateway {
  import opened Wrappers
  import opened Recovery
  import opened RecoveryActors
  import opened RecoveryReady
  import opened RecoveryRuns
  import opened RecoveryShape
  import opened RecoveryStale
  import RecoveryHistory
  import RecoveryPing
  import RecoveryToken
  import Ping

  /** A token response, by what the handler of a token sees of the world. */
  ghost function AfterToken(w: World, reply: Reply<Token>): World {
    var p := Deliver(Partly(w.dc, w.created, w.req), Delivered(reply));
    var r := w.rest.(replies := w.rest.replies - multiset{PRIVATE_TOKEN});
    w.(dc := p.dc, created := p.created,
       req := if TokenFault(reply).Some? then p.req else p.req.Commit(PRIVATE_TOKEN),
       rest := if Delivered(reply).Some? then Downloaded(r) else r,
       fault := TokenFault(reply))
  }

  lemma TokenStep(w: World, cfg: Settings, reply: Reply<Token>)
    requires Enabled(w, Event.TokenReply(reply))
    ensures Step(w, cfg, Event.TokenReply(reply)) == AfterToken(w, reply)
  {
    hide Downloaded;
  }

  lemma ConnectStep(w: World, cfg: Settings)
    requires Enabled(w, Event.RestConnected)
    ensures RestEnter(RestSide(w)).req == w.req
    ensures Step(w, cfg, Event.RestConnected) == w.(rest := RestEnter(RestSide(w)).rest, restUp := true)
  {
    RestEnterKeeps(RestSide(w));
  }

  class Gateway {
    const settings: Settings
    const request: Request
    const rest: OrderEntryREST
    const controller: Controller
    var link: Link
    ghost var restUp: bool
    ghost var fault: Option<Fault>
    ghost var events: seq<Event>

    ghost function View(): World
      reads `link, `restUp, `fault, request, rest, controller, controller.dropCopy
    {
      World(controller.View(), request.View(), rest.View(), controller.dropCopy != null, link, restUp, fault)
    }

    /** The objects belong together. */
    ghost predicate Wired()
      reads controller, controller.dropCopy
    {
      && rest.request == request && controller.request == request && controller.settings == settings
      && controller.Valid()
    }

    /** The objects are what the events so far lead to. */
    ghost predicate Valid()
      reads `link, `restUp, `fault, `events, request, rest, controller, controller.dropCopy
    {
      && Wired()
      && Admissible(INIT, settings, events) && View() == Exec(INIT, settings, events)
    }

    constructor (settings: Settings)
      ensures Valid() && fault == None && events == []
    {
      var r := new Request();
      var c := new Controller(r, settings);
      var o := new OrderEntryREST(r);
      this.settings, request, controller, rest := settings, r, c, o;
      link, restUp, fault, events := DOWN, false, None, [];
    }

    /** What every run keeps, of the objects. */
    lemma Guarantees()
      requires Valid() && fault.None?
      ensures rest.downloadStaleOrdersCounter == |rest.calls| + |rest.lost|
      ensures request.detailsStaleOrders != {} ==> request.staleOrders.wanted
      ensures var d := controller.dropCopy;
              d != null ==>
                && (d.ready ==>
                      && Readies(request.session) == 1
                      && Subsequence(
                           ReadyMilestones(StaleTested(true) in request.session, settings.tradesLookback != 0),
                           request.session))
                && (d.query == "" <==> d.tokens != [] && d.tokens[|d.tokens| - 1].Refreshed?)
                && d.pingFrequency == RecoveryHistory.FirstInterval(events)
                && (d.query != "" ==> d.query == "?token=" + RecoveryHistory.LatestToken(events))
                && Ping.Punctual(RecoveryHistory.SessionTicks(events), RecoveryPing.Pings(request.session), d.pingFrequency)
      ensures View().created ==> controller.dropCopy != null
    {
      CounterIsInFlight(settings, events);
      NoOrphanedStaleOrder(settings, events);
      ReadyMeansDownloaded(settings, events);
      RecoveryToken.QueryEmptyIffRefreshing(settings, events);
      RecoveryHistory.IntervalAndQuery(settings, events);
      RecoveryHistory.DropCopyPings(settings, events);
      hide Exec;
      hide Admissible;
      hide ReadyMilestones;
      hide Subsequence;
      hide Ping.Punctual;
    }

    lemma CounterIsNeverZero()
      requires Valid()
      ensures fault != Some(COUNTER_ZERO)
    {
      CounterIsInFlight(settings, events);
    }

    /** One more event: what it has to lead to. */
    lemma Next(e: Event)
      requires Valid() && Enabled(View(), e)
      ensures Admissible(INIT, settings, events + [e])
      ensures Exec(INIT, settings, events + [e]) == Step(View(), settings, e)
    {
      Append(INIT, settings, events, e);
    }

    // --- events of the drop copy ---

    /** No logon timeout is set when a connection comes up. */
    method DropConnected(origin: nat)
      requires Valid() && Enabled(View(), Event.DropConnected(origin))
      modifies this, request, controller.dropCopy
      ensures Valid() && events == old(events) + [Event.DropConnected(origin)]
      ensures fault == None
    {
      AssertionsHold(settings, events);
      Next(Event.DropConnected(origin));
      controller.dropCopy.Connected(origin);
      link := CONNECTED;
      events := events + [Event.DropConnected(origin)];
    }

    method DropReady()
      requires Valid() && Enabled(View(), Event.DropReady)
      modifies this, request, controller.dropCopy
      ensures Valid() && events == old(events) + [Event.DropReady]
      ensures fault == None
    {
      AssertionsHold(settings, events);
      Next(Event.DropReady);
      controller.dropCopy.Ready();
      link := OPEN;
      events := events + [Event.DropReady];
    }

    /** READY is not reached by a drop copy that is ready. */
    method DropWelcome()
      requires Valid() && Enabled(View(), Event.DropWelcome)
      modifies this, request, controller.dropCopy
      ensures Valid() && events == old(events) + [Event.DropWelcome]
      ensures fault == None
    {
      AssertionsHold(settings, events);
      Next(Event.DropWelcome);
      controller.dropCopy.Welcome();
      events := events + [Event.DropWelcome];
    }

    method DropAck(id: Option<Stage>)
      requires Valid() && Enabled(View(), Event.DropAck(id))
      modifies this, request, controller.dropCopy
      ensures Valid() && events == old(events) + [Event.DropAck(id)]
      ensures fault == None
    {
      AssertionsHold(settings, events);
      Next(Event.DropAck(id));
      controller.dropCopy.Ack(id);
      events := events + [Event.DropAck(id)];
    }

    method DropError(expired: bool)
      requires Valid() && Enabled(View(), Event.DropError(expired))
      modifies this, request, controller.dropCopy
      ensures Valid() && events == old(events) + [Event.DropError(expired)]
    {
      AssertionsHold(settings, events);
      Next(Event.DropError(expired));
      var f := controller.dropCopy.Error(expired);
      fault := f;
      events := events + [Event.DropError(expired)];
    }

    method DropDisconnected()
      requires Valid() && Enabled(View(), Event.DropDisconnected)
      modifies this, request, controller.dropCopy
      ensures Valid() && events == old(events) + [Event.DropDisconnected]
      ensures fault == None
    {
      AssertionsHold(settings, events);
      Next(Event.DropDisconnected);
      controller.dropCopy.Disconnected();
      link := DOWN;
      events := events + [Event.DropDisconnected];
    }

    /** A socket that is not open has not been welcomed. */
    method DropTimer(tick: Tick)
      requires Valid() && Enabled(View(), Event.DropTimer(tick))
      modifies this, request, controller.dropCopy
      ensures Valid() && events == old(events) + [Event.DropTimer(tick)]
    {
      AssertionsHold(settings, events);
      Next(Event.DropTimer(tick));
      hide WhenOpen;
      hide Simulate;
      var f := controller.dropCopy.Timer(tick, link == OPEN);
      fault := f;
      events := events + [Event.DropTimer(tick)];
    }

    // --- events of the REST client ---

    method RestConnected()
      requires Valid() && Enabled(View(), Event.RestConnected)
      modifies `restUp, `events, rest
      ensures Valid() && events == old(events) + [Event.RestConnected]
      ensures fault == None
    {
      Next(Event.RestConnected);
      ConnectStep(View(), settings);
      hide Step;
      hide RestEnter;
      hide Exec;
      hide Admissible;
      rest.Begin();
      restUp := true;
      events := events + [Event.RestConnected];
    }

    method RestDisconnected()
      requires Valid() && Enabled(View(), Event.RestDisconnected)
      modifies `restUp, `events, rest
      ensures Valid() && events == old(events) + [Event.RestDisconnected]
      ensures fault == None
    {
      Next(Event.RestDisconnected);
      rest.Disconnected();
      restUp := false;
      events := events + [Event.RestDisconnected];
    }

    method RestRetry()
      requires Valid() && Enabled(View(), Event.RestRetry)
      modifies `events, rest
      ensures Valid() && events == old(events) + [Event.RestRetry]
      ensures fault == None
    {
      Next(Event.RestRetry);
      rest.Begin();
      events := events + [Event.RestRetry];
    }

    method RestTimer(refreshed: bool, allowed: set<Name>, known: set<Key>)
      requires Valid() && Enabled(View(), Event.RestTimer(refreshed, allowed, known))
      modifies this, request, rest
      ensures Valid() && events == old(events) + [Event.RestTimer(refreshed, allowed, known)]
      ensures fault == None
    {
      Next(Event.RestTimer(refreshed, allowed, known));
      rest.Timer(refreshed, allowed, known);
      events := events + [Event.RestTimer(refreshed, allowed, known)];
    }

    method PassTokenReply(reply: Reply<Token>)
      requires Wired() && PRIVATE_TOKEN in rest.replies
      modifies `fault, request, rest, controller, controller.dropCopy
      ensures Wired() && View() == AfterToken(old(View()), reply)
    {
      hide Deliver;
      hide Delivered;
      hide Downloaded;
      hide TokenFault;
      hide Requests.Commit;
      hide Controller.View;
      hide OrderEntryREST.View;
      hide Request.View;
      ghost var w := View();
      ghost var after := AfterToken(w, reply);
      assert Partly(controller.View(), controller.dropCopy != null, request.View()) == Partly(w.dc, w.created, w.req);
      hide Partly;
      var f := rest.GetPrivateTokenAck(reply, controller);
      fault := f;
      assert rest.View() == after.rest && request.View() == after.req;
      assert View() == after.(dc := controller.View(), created := controller.dropCopy != null);
    }

    method TokenReply(reply: Reply<Token>)
      requires Valid() && Enabled(View(), Event.TokenReply(reply))
      modifies this, request, rest, controller, controller.dropCopy
      ensures Valid() && events == old(events) + [Event.TokenReply(reply)]
    {
      Next(Event.TokenReply(reply));
      TokenStep(View(), settings, reply);
      PassTokenReply(reply);
      events := events + [Event.TokenReply(reply)];
    }

    method SlotReply(n: Name, reply: Reply<()>)
      requires Valid() && Enabled(View(), Event.SlotReply(n, reply))
      modifies this, request, rest
      ensures Valid() && events == old(events) + [Event.SlotReply(n, reply)]
    {
      Next(Event.SlotReply(n, reply));
      assert n in rest.replies;
      var f := rest.SlotAck(n, reply);
      fault := f;
      events := events + [Event.SlotReply(n, reply)];
    }

    /** The counter is never zero when an answer arrives. */
    method OrderReply(k: Key, reply: Reply<OrderBody>)
      requires Valid() && Enabled(View(), Event.OrderReply(k, reply))
      modifies this, request, rest
      ensures Valid() && events == old(events) + [Event.OrderReply(k, reply)]
      ensures fault != Some(COUNTER_ZERO)
    {
      Next(Event.OrderReply(k, reply));
      assert k in rest.calls;
      var _, f := rest.GetOrderAck(k, reply);
      fault := f;
      events := events + [Event.OrderReply(k, reply)];
      CounterIsNeverZero();
    }

    method LostReply(n: Name)
      requires Valid() && Enabled(View(), Event.LostReply(n))
      modifies `events, rest
      ensures Valid() && events == old(events) + [Event.LostReply(n)]
      ensures fault == None
    {
      Next(Event.LostReply(n));
      rest.LoseReply(n);
      events := events + [Event.LostReply(n)];
    }

    method LostCall(k: Key)
      requires Valid() && Enabled(View(), Event.LostCall(k))
      modifies `events, rest
      ensures Valid() && events == old(events) + [Event.LostCall(k)]
      ensures fault == None
    {
      Next(Event.LostCall(k));
      rest.LoseCall(k);
      events := events + [Event.LostCall(k)];
    }
  }
}
