/**
 The order-entry websocket: its ping interval comes with the welcome message of each session.
 */
module OrderEntryWs {
  import Ping

  datatype Link = DOWN | CONNECTED | OPEN

  /** Fields of `OrderEntryWS`, its connection, and the ready ticks and pings of the session. */
  datatype Socket = Socket(
    welcome: bool,
    pingFrequency: nat,
    nextPing: int,
    logonTimeout: int,
    link: Link,
    ticks: seq<int>,
    pings: seq<int>)

  const NEW_SOCKET := Socket(false, 0, 0, 0, DOWN, [], [])

  datatype Event =
    | Connected(origin: nat)
    | Ready
    | Welcome(pingInterval: nat)
    | Disconnected
    | Timer(now: int, refreshed: bool)

  /** The exchange sends one welcome per session, with a positive ping interval. */
  predicate Enabled(s: Socket, e: Event) {
    match e
    case Connected(_) => s.link == DOWN
    case Ready => s.link == CONNECTED
    case Welcome(pingInterval) => s.link == OPEN && !s.welcome && pingInterval > 0
    case Disconnected => s.link != DOWN
    case Timer(_, _) => true
  }

  function Step(s: Socket, requestTimeout: nat, e: Event): Socket {
    match e
    case Connected(origin) => s.(logonTimeout := origin + requestTimeout, link := CONNECTED)
    case Ready => s.(link := OPEN)
    case Welcome(pingInterval) => s.(welcome := true, pingFrequency := pingInterval)
    case Disconnected => NEW_SOCKET
    case Timer(now, refreshed) =>
      if refreshed && s.link == OPEN && s.welcome then
        var t := s.(ticks := s.ticks + [now]);
        if Ping.Due(s.nextPing, now) then
          t.(nextPing := Ping.Next(now, s.pingFrequency), pings := s.pings + [now])
        else t
      else s
  }

  predicate Admissible(s: Socket, requestTimeout: nat, es: seq<Event>)
    decreases |es|
  {
    es != [] ==> Enabled(s, es[0]) && Admissible(Step(s, requestTimeout, es[0]), requestTimeout, es[1..])
  }

  function Exec(s: Socket, requestTimeout: nat, es: seq<Event>): Socket
    requires Admissible(s, requestTimeout, es)
    decreases |es|
  {
    if es == [] then s else Exec(Step(s, requestTimeout, es[0]), requestTimeout, es[1..])
  }

  predicate SocketInv(s: Socket) {
    && (s.welcome ==> s.link == OPEN && s.pingFrequency > 0)
    && (!s.welcome ==> s.ticks == [] && s.pings == [])
    && (s.link == DOWN ==> s.logonTimeout == 0)
    && s.pings == Ping.PingsOf(s.ticks, s.pingFrequency)
    && s.nextPing == Ping.Scheduled(s.pings, s.pingFrequency)
  }

  lemma SocketStep(s: Socket, requestTimeout: nat, e: Event)
    requires SocketInv(s) && Enabled(s, e)
    ensures SocketInv(Step(s, requestTimeout, e))
  {
    if e.Timer? {
      assert (s.ticks + [e.now])[..|s.ticks|] == s.ticks;
    }
  }

  lemma {:induction false} SocketRun(s: Socket, requestTimeout: nat, es: seq<Event>)
    requires SocketInv(s) && Admissible(s, requestTimeout, es)
    ensures SocketInv(Exec(s, requestTimeout, es))
    decreases |es|
  {
    if es != [] {
      SocketStep(s, requestTimeout, es[0]);
      SocketRun(Step(s, requestTimeout, es[0]), requestTimeout, es[1..]);
    }
  }

  // --- the same from the events alone, latest last ---

  /** The latest connection has been welcomed and is still up. */
  predicate IsWelcomed(es: seq<Event>) {
    es != [] &&
    var last := es[|es| - 1];
    last.Welcome? || (!last.Disconnected? && IsWelcomed(es[..|es| - 1]))
  }

  /** The interval of the latest welcome; zero after a disconnect. */
  function Interval(es: seq<Event>): nat {
    if es == [] then 0
    else
      var last := es[|es| - 1];
      if last.Welcome? then last.pingInterval else if last.Disconnected? then 0 else Interval(es[..|es| - 1])
  }

  /** The times of the ticks that the connection took after its welcome. */
  function SessionTicks(es: seq<Event>): seq<int> {
    if es == [] then []
    else
      var init, last := es[..|es| - 1], es[|es| - 1];
      if last.Disconnected? then []
      else if last.Timer? && last.refreshed && IsWelcomed(init) then SessionTicks(init) + [last.now]
      else SessionTicks(init)
  }

  /** When the latest connection came up. */
  function ConnectedAt(es: seq<Event>): int {
    if es == [] then 0
    else
      var last := es[|es| - 1];
      if last.Connected? then last.origin else ConnectedAt(es[..|es| - 1])
  }

  predicate Agrees(s: Socket, requestTimeout: nat, es: seq<Event>) {
    && s.welcome == IsWelcomed(es) && s.pingFrequency == Interval(es) && s.ticks == SessionTicks(es)
    && s.logonTimeout == if s.link == DOWN then 0 else ConnectedAt(es) + requestTimeout
  }

  lemma {:induction false} AgreesRun(requestTimeout: nat, es: seq<Event>)
    requires Admissible(NEW_SOCKET, requestTimeout, es)
    ensures Agrees(Exec(NEW_SOCKET, requestTimeout, es), requestTimeout, es)
  {
    if es != [] {
      var init := es[..|es| - 1];
      Split(NEW_SOCKET, requestTimeout, es);
      AgreesRun(requestTimeout, init);
      SocketRun(NEW_SOCKET, requestTimeout, init);
      hide Exec;
    }
  }

  lemma {:induction false} Split(s: Socket, requestTimeout: nat, es: seq<Event>)
    requires Admissible(s, requestTimeout, es) && es != []
    ensures var init, last := es[..|es| - 1], es[|es| - 1];
            && Admissible(s, requestTimeout, init) && Enabled(Exec(s, requestTimeout, init), last)
            && Exec(s, requestTimeout, es) == Step(Exec(s, requestTimeout, init), requestTimeout, last)
    decreases |es|
  {
    var init := es[..|es| - 1];
    if |es| == 1 {
      assert es[1..] == [] && init == [];
    } else {
      Split(Step(s, requestTimeout, es[0]), requestTimeout, es[1..]);
      assert es[1..][..|es| - 2] == init[1..];
    }
  }

  /**
   In every run: a welcomed socket has the positive ping interval of its welcome, and the pings of
   the session are those that its ticks since the welcome ask for, within both bounds. The logon
   timeout is set from the time a connection came up, and there is none when it is down.
   */
  lemma PingsOfRun(requestTimeout: nat, es: seq<Event>)
    requires Admissible(NEW_SOCKET, requestTimeout, es)
    ensures var s := Exec(NEW_SOCKET, requestTimeout, es);
            && (s.welcome ==> s.pingFrequency == Interval(es) > 0)
            && s.logonTimeout == (if s.link == DOWN then 0 else ConnectedAt(es) + requestTimeout)
            && s.pings == Ping.PingsOf(SessionTicks(es), Interval(es))
            && Ping.Punctual(SessionTicks(es), s.pings, Interval(es))
            && s.ticks == SessionTicks(es) && s.pingFrequency == Interval(es)
  {
    SocketRun(NEW_SOCKET, requestTimeout, es);
    AgreesRun(requestTimeout, es);
    Ping.PingsArePunctual(SessionTicks(es), Interval(es));
  }

  lemma {:induction false} Append(s: Socket, requestTimeout: nat, es: seq<Event>, e: Event)
    requires Admissible(s, requestTimeout, es) && Enabled(Exec(s, requestTimeout, es), e)
    ensures Admissible(s, requestTimeout, es + [e])
    ensures Exec(s, requestTimeout, es + [e]) == Step(Exec(s, requestTimeout, es), requestTimeout, e)
    decreases |es|
  {
    if es == [] {
      assert (es + [e])[1..] == [];
    } else {
      Append(Step(s, requestTimeout, es[0]), requestTimeout, es[1..], e);
      assert (es + [e])[1..] == es[1..] + [e];
    }
  }

  /** The socket as an object, which is always in a state that a run reaches. */
  class OrderEntryWS {
    const requestTimeout: nat
    var welcome: bool
    var pingFreq: nat
    var nextPing: int
    var logonTimeout: int
    var link: Link
    ghost var ticks: seq<int>
    ghost var pings: seq<int>
    ghost var events: seq<Event>

    ghost function View(): Socket
      reads this
    {
      Socket(welcome, pingFreq, nextPing, logonTimeout, link, ticks, pings)
    }

    ghost predicate Valid()
      reads this
    {
      Admissible(NEW_SOCKET, requestTimeout, events) && View() == Exec(NEW_SOCKET, requestTimeout, events)
    }

    constructor (requestTimeout: nat)
      ensures Valid() && this.requestTimeout == requestTimeout && events == []
    {
      this.requestTimeout := requestTimeout;
      welcome, pingFreq, nextPing, logonTimeout := false, 0, 0, 0;
      link, ticks, pings, events := DOWN, [], [], [];
    }

    /** What holds before an event, and what the event has to lead to. */
    lemma Next(e: Event)
      requires Valid() && Enabled(View(), e)
      ensures SocketInv(View())
      ensures Admissible(NEW_SOCKET, requestTimeout, events + [e])
      ensures Exec(NEW_SOCKET, requestTimeout, events + [e]) == Step(View(), requestTimeout, e)
    {
      SocketRun(NEW_SOCKET, requestTimeout, events);
      Append(NEW_SOCKET, requestTimeout, events, e);
    }

    /** No logon timeout is set when a connection comes up. */
    method OnConnected(origin: nat)
      requires Valid() && Enabled(View(), Connected(origin))
      modifies this
      ensures Valid() && events == old(events) + [Connected(origin)]
      ensures logonTimeout == origin + requestTimeout
    {
      Next(Connected(origin));
      assert logonTimeout == 0;
      logonTimeout := origin + requestTimeout;
      link := CONNECTED;
      events := events + [Connected(origin)];
    }

    method OnReady()
      requires Valid() && Enabled(View(), Ready)
      modifies this
      ensures Valid() && events == old(events) + [Ready]
    {
      Next(Ready);
      link := OPEN;
      events := events + [Ready];
    }

    method OnWelcome(pingInterval: nat)
      requires Valid() && Enabled(View(), Welcome(pingInterval))
      modifies this
      ensures Valid() && events == old(events) + [Welcome(pingInterval)]
      ensures pingFreq == pingInterval > 0
    {
      Next(Welcome(pingInterval));
      welcome := true;
      assert pingInterval != 0;
      pingFreq := pingInterval;
      events := events + [Welcome(pingInterval)];
    }

    method OnDisconnected()
      requires Valid() && Enabled(View(), Disconnected)
      modifies this
      ensures Valid() && events == old(events) + [Disconnected]
      ensures View() == NEW_SOCKET
    {
      Next(Disconnected);
      welcome := false;
      pingFreq := 0;
      logonTimeout := 0;
      nextPing := 0;
      link, ticks, pings := DOWN, [], [];
      events := events + [Disconnected];
    }

    /** A socket that is not open is not welcomed; `close`: the logon timeout has passed. */
    method OnTimer(now: int, refreshed: bool) returns (close: bool)
      requires Valid()
      modifies this
      ensures Valid() && events == old(events) + [Timer(now, refreshed)]
      ensures close <==> refreshed && link != OPEN && 0 != logonTimeout < now
      ensures Ping.Punctual(ticks, pings, pingFreq)
    {
      Next(Timer(now, refreshed));
      close := false;
      if refreshed {
        if link == OPEN {
          if welcome {
            ticks := ticks + [now];
            if Ping.Due(nextPing, now) {
              SendPing(now);
            }
          }
        } else if logonTimeout != 0 && logonTimeout < now {
          assert !welcome;
          close := true;
        }
      }
      events := events + [Timer(now, refreshed)];
      PingsOfRun(requestTimeout, events);
    }

    method SendPing(now: int)
      requires pingFreq > 0
      modifies this`nextPing, this`pings
      ensures nextPing == Ping.Next(now, pingFreq) && pings == old(pings) + [now]
    {
      nextPing := Ping.Next(now, pingFreq);
      pings := pings + [now];
    }
  }
}
