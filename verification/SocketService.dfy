/**
 The browser's reconnecting WebSocket service: one current socket, a heartbeat timer, a
 reconnect timer with bounded backoff, and callbacks of sockets that may since have been replaced.

 Service is the state, the functions on it say what each call or callback does, and the class
 below carries out the same steps on its fields.
 */
module SocketService {
  import opened Options
  import opened Protocol

  const RECONNECT_BASE_DELAY_MS: nat := 500
  const RECONNECT_MAX_DELAY_MS: nat := 4000
  const MAX_RECONNECT_ATTEMPTS: nat := 5

  datatype ReadyState = CONNECTING | OPEN | CLOSING | CLOSED

  datatype ConnectionState = Disconnected | Connecting | Connected

  /** A WebSocket object of the browser, with the messages handed to it so far. */
  datatype Socket = Socket(ready: ReadyState, sent: seq<ClientMessage>)

  /**
   sockets holds every socket ever created; a socket is known by its index.
   published is the log of values given to the connection-state subject, timers the log of
   delays given to the reconnect timer.
   */
  datatype Service = Service(
    sockets: seq<Socket>,
    current: Option<nat>,
    heartbeat: bool,
    reconnect: bool,
    attempts: nat,
    deliberate: bool,
    connection: ConnectionState,
    published: seq<ConnectionState>,
    timers: seq<nat>)

  const Initial := Service([], None, false, false, 0, false, Disconnected, [], [])

  function Pow2(n: nat): nat {
    if n == 0 then 1 else 2 * Pow2(n - 1)
  }

  function Backoff(attempt: nat): nat {
    var delay := RECONNECT_BASE_DELAY_MS * Pow2(attempt);
    if delay < RECONNECT_MAX_DELAY_MS then delay else RECONNECT_MAX_DELAY_MS
  }

  predicate CurrentIs(s: Service, ready: set<ReadyState>) {
    s.current.Some? && s.current.value < |s.sockets| && s.sockets[s.current.value].ready in ready
  }

  function Publish(s: Service, value: ConnectionState): Service {
    s.(connection := value, published := s.published + [value])
  }

  function ScheduleReconnect(s: Service): Service {
    if s.deliberate || s.reconnect || s.attempts >= MAX_RECONNECT_ATTEMPTS then s
    else
      Publish(s.(attempts := s.attempts + 1), Connecting)
      .(reconnect := true, timers := s.timers + [Backoff(s.attempts)])
  }

  /** constructs tells whether the browser's WebSocket constructor returns or throws. */
  function OpenSocket(s: Service, constructs: bool): Service {
    if CurrentIs(s, {CONNECTING, OPEN}) then s
    else
      var s := Publish(s.(heartbeat := false), Connecting);
      if constructs then
        s.(sockets := s.sockets + [Socket(CONNECTING, [])], current := Some(|s.sockets|))
      else
        ScheduleReconnect(Publish(s, Disconnected))
  }

  function Connect(s: Service, constructs: bool): Service {
    OpenSocket(s.(deliberate := false, reconnect := false), constructs)
  }

  /** close() on a socket that has not closed yet starts its closing handshake. */
  function CloseCurrent(s: Service): Service {
    if CurrentIs(s, {CONNECTING, OPEN, CLOSING})
    then s.(sockets := s.sockets[s.current.value := s.sockets[s.current.value].(ready := CLOSING)])
    else s
  }

  function Disconnect(s: Service): Service {
    var s := CloseCurrent(s);
    Publish(s.(deliberate := true, heartbeat := false, reconnect := false, attempts := 0, current := None),
            Disconnected)
  }

  function SetReady(s: Service, id: nat, ready: ReadyState): Service
    requires id < |s.sockets|
  {
    s.(sockets := s.sockets[id := s.sockets[id].(ready := ready)])
  }

  function OnOpen(s: Service, id: nat): Service {
    if s.current != Some(id) then s
    else Publish(s.(attempts := 0), Connected).(heartbeat := true)
  }

  function OnError(s: Service, id: nat): Service {
    if s.current != Some(id) then s else s.(heartbeat := false)
  }

  function OnClose(s: Service, id: nat): Service {
    if s.current != Some(id) then s
    else
      var s := Publish(s.(heartbeat := false, current := None), Disconnected);
      if s.deliberate then s else ScheduleReconnect(s)
  }

  function OnTimer(s: Service, constructs: bool): Service {
    var s := s.(reconnect := false);
    if s.deliberate then s else OpenSocket(s, constructs)
  }

  predicate CanSend(s: Service) {
    CurrentIs(s, {OPEN})
  }

  function Send(s: Service, m: ClientMessage): Service
    requires CanSend(s)
  {
    var id := s.current.value;
    s.(sockets := s.sockets[id := s.sockets[id].(sent := s.sockets[id].sent + [m])])
  }

  /**
   What can happen next: a call by the application, or a step of the browser. The browser opens
   only a connecting socket, closes a socket once, and fires only a timer that is pending; a step
   it cannot take changes nothing.
   */
  datatype Step =
    | CallConnect(constructs: bool)
    | CallDisconnect
    | SocketOpens(id: nat)
    | SocketErrs(id: nat)
    | SocketStartsClosing(id: nat)
    | SocketCloses(id: nat)
    | ReconnectFires(constructs: bool)
    | HeartbeatFires

  function Next(s: Service, step: Step): Service {
    match step
    case CallConnect(constructs) => Connect(s, constructs)
    case CallDisconnect => Disconnect(s)
    case SocketOpens(id) =>
      if id < |s.sockets| && s.sockets[id].ready == CONNECTING then OnOpen(SetReady(s, id, OPEN), id) else s
    case SocketErrs(id) =>
      if id < |s.sockets| && s.sockets[id].ready != CLOSED then OnError(s, id) else s
    case SocketStartsClosing(id) =>
      if id < |s.sockets| && s.sockets[id].ready in {CONNECTING, OPEN} then SetReady(s, id, CLOSING) else s
    case SocketCloses(id) =>
      if id < |s.sockets| && s.sockets[id].ready != CLOSED then OnClose(SetReady(s, id, CLOSED), id) else s
    case ReconnectFires(constructs) =>
      if s.reconnect then OnTimer(s, constructs) else s
    case HeartbeatFires =>
      if s.heartbeat && CanSend(s) then Send(s, Ping) else s
  }

  function Run(s: Service, steps: seq<Step>): Service
    decreases |steps|
  {
    if steps == [] then s else Run(Next(s, steps[0]), steps[1..])
  }

  // ---------------------------------------------------------------- the invariant

  ghost predicate Invariant(s: Service) {
    && (s.current.Some? ==> s.current.value < |s.sockets|)
    && (s.heartbeat ==> s.connection == Connected)
    && (s.connection == Connected ==> CurrentIs(s, {OPEN, CLOSING}) && !s.reconnect)
    && (CurrentIs(s, {OPEN}) ==> s.connection == Connected)
    && (CurrentIs(s, {CONNECTING}) ==> s.connection == Connecting)
    && (s.current.Some? ==> !CurrentIs(s, {CLOSED}))
    && (s.reconnect ==> !s.deliberate && !CurrentIs(s, {CONNECTING, OPEN}))
    && (s.deliberate ==> s.current.None? && s.connection == Disconnected)
    && s.attempts <= MAX_RECONNECT_ATTEMPTS
  }

  lemma OpeningKeepsInvariant(s: Service, constructs: bool)
    requires Invariant(s) && !s.deliberate && !s.reconnect
    ensures Invariant(OpenSocket(s, constructs))
  {
  }

  lemma ConnectKeepsInvariant(s: Service, constructs: bool)
    requires Invariant(s)
    ensures Invariant(Connect(s, constructs))
  {
    OpeningKeepsInvariant(s.(deliberate := false, reconnect := false), constructs);
  }

  lemma DisconnectKeepsInvariant(s: Service)
    requires Invariant(s)
    ensures Invariant(Disconnect(s))
  {
  }

  lemma CallbackKeepsInvariant(s: Service, step: Step)
    requires Invariant(s) && (step.SocketOpens? || step.SocketErrs? || step.SocketStartsClosing?)
    ensures Invariant(Next(s, step))
  {
  }

  lemma CloseKeepsInvariant(s: Service, id: nat)
    requires Invariant(s)
    ensures Invariant(Next(s, SocketCloses(id)))
  {
  }

  lemma NextKeepsInvariant(s: Service, step: Step)
    requires Invariant(s)
    ensures Invariant(Next(s, step))
  {
    match step
    case CallConnect(constructs) => ConnectKeepsInvariant(s, constructs);
    case CallDisconnect => DisconnectKeepsInvariant(s);
    case SocketCloses(id) => CloseKeepsInvariant(s, id);
    case ReconnectFires(constructs) =>
      if s.reconnect {
        OpeningKeepsInvariant(s.(reconnect := false), constructs);
      }
    case HeartbeatFires =>
    case _ => CallbackKeepsInvariant(s, step);
  }

  /** Every reachable state of the service, whatever the order of calls, callbacks and timers. */
  lemma {:induction false} RunKeepsInvariant(s: Service, steps: seq<Step>)
    requires Invariant(s)
    ensures Invariant(Run(s, steps))
    decreases |steps|
  {
    if steps != [] {
      NextKeepsInvariant(s, steps[0]);
      RunKeepsInvariant(Next(s, steps[0]), steps[1..]);
    }
  }

  /** A heartbeat means connected; connected means a live current socket and no reconnect timer;
      a reconnect timer means nobody asked to disconnect and no socket is connecting or open. */
  lemma ReachableService(steps: seq<Step>)
    ensures var s := Run(Initial, steps);
            && (s.heartbeat ==> s.connection == Connected)
            && (s.connection == Connected ==> s.current.Some? && !s.reconnect)
            && (s.reconnect ==> !s.deliberate && !CurrentIs(s, {CONNECTING, OPEN}))
            && (s.reconnect ==> s.connection != Connected && !s.heartbeat)
  {
    RunKeepsInvariant(Initial, steps);
  }

  // ---------------------------------------------------------------- stale sockets

  /** The service without the browser's own record of its sockets. */
  function Fields(s: Service): Service {
    s.(sockets := [])
  }

  predicate CallbackOf(step: Step, id: nat) {
    (step.SocketOpens? || step.SocketErrs? || step.SocketStartsClosing? || step.SocketCloses?) && step.id == id
  }

  /** Whatever a replaced socket still reports, no field of the service moves. */
  lemma {:induction false} StaleCallbacksChangeNothing(s: Service, id: nat, steps: seq<Step>)
    requires s.current != Some(id)
    requires forall step <- steps :: CallbackOf(step, id)
    ensures Fields(Run(s, steps)) == Fields(s)
    decreases |steps|
  {
    if steps != [] {
      assert CallbackOf(steps[0], id);
      StaleCallbacksChangeNothing(Next(s, steps[0]), id, steps[1..]);
    }
  }

  // ---------------------------------------------------------------- bounded backoff

  /** The steps that set the attempt counter back to zero. */
  predicate Resets(s: Service, step: Step) {
    || step.CallDisconnect?
    || (step.SocketOpens? && s.current == Some(step.id) && CurrentIs(s, {CONNECTING}))
  }

  predicate NeverResets(s: Service, steps: seq<Step>)
    decreases |steps|
  {
    steps == [] || (!Resets(s, steps[0]) && NeverResets(Next(s, steps[0]), steps[1..]))
  }

  function Sum(delays: seq<nat>): nat {
    if delays == [] then 0 else Sum(delays[..|delays| - 1]) + delays[|delays| - 1]
  }

  function Delays(from: nat, to: nat): seq<nat>
    requires from <= to
  {
    seq<nat>(to - from, i requires 0 <= i < to - from => Backoff(from + i))
  }

  lemma TimersOfOneStep(s: Service, step: Step)
    requires Invariant(s) && !Resets(s, step)
    ensures var n := Next(s, step);
            || (n.attempts == s.attempts && n.timers == s.timers)
            || (n.attempts == s.attempts + 1 && n.timers == s.timers + [Backoff(s.attempts)])
  {
  }

  lemma DelaysSplit(from: nat, mid: nat, to: nat)
    requires from <= mid <= to
    ensures Delays(from, mid) + Delays(mid, to) == Delays(from, to)
    ensures mid == from ==> Delays(from, mid) == []
    ensures mid == from + 1 ==> Delays(from, mid) == [Backoff(from)]
  {
  }

  /** Between two resets the timers are exactly the backoff sequence, and there are at most five. */
  lemma {:induction false} TimersBetweenResets(s: Service, steps: seq<Step>)
    requires Invariant(s) && NeverResets(s, steps)
    ensures var t := Run(s, steps);
            && s.attempts <= t.attempts <= MAX_RECONNECT_ATTEMPTS
            && t.timers == s.timers + Delays(s.attempts, t.attempts)
    decreases |steps|
  {
    if steps == [] {
      DelaysSplit(s.attempts, s.attempts, s.attempts);
    } else {
      var n := Next(s, steps[0]);
      NextKeepsInvariant(s, steps[0]);
      TimersOfOneStep(s, steps[0]);
      TimersBetweenResets(n, steps[1..]);
      DelaysSplit(s.attempts, n.attempts, Run(n, steps[1..]).attempts);
    }
  }

  lemma SumSuffix(delays: seq<nat>, from: nat)
    requires from <= |delays|
    ensures Sum(delays[from..]) <= Sum(delays)
    decreases |delays| - from
  {
    if from < |delays| {
      var n := |delays| - 1;
      assert delays[from..][..n - from] == delays[..n][from..];
      SumSuffix(delays[..n], from);
    }
  }

  lemma SumPrefix(delays: seq<nat>, to: nat)
    requires to <= |delays|
    ensures Sum(delays[..to]) <= Sum(delays)
    decreases |delays|
  {
    if to < |delays| {
      SumPrefix(delays[..|delays| - 1], to);
      assert delays[..|delays| - 1][..to] == delays[..to];
    } else {
      assert delays[..to] == delays;
    }
  }

  lemma FullBackoff()
    ensures Delays(0, MAX_RECONNECT_ATTEMPTS) == [500, 1000, 2000, 4000, 4000]
    ensures Sum(Delays(0, MAX_RECONNECT_ATTEMPTS)) == 11500
  {
    assert Pow2(0) == 1 && Pow2(1) == 2 && Pow2(2) == 4 && Pow2(3) == 8 && Pow2(4) == 16;
    var d := Delays(0, MAX_RECONNECT_ATTEMPTS);
    assert Backoff(0) == 500 && Backoff(1) == 1000 && Backoff(2) == 2000 && Backoff(3) == 4000 && Backoff(4) == 4000;
    assert d == [500, 1000, 2000, 4000, 4000];
    assert d[..4] == [500, 1000, 2000, 4000] && d[..4][..3] == [500, 1000, 2000];
    assert d[..4][..3][..2] == [500, 1000] && d[..4][..3][..2][..1] == [500];
    assert Sum([500]) == 500;
    assert Sum([500, 1000]) == 1500;
    assert Sum([500, 1000, 2000]) == 3500;
    assert Sum([500, 1000, 2000, 4000]) == 7500;
  }

  lemma SomeDelays(a: nat, b: nat, n: nat)
    requires a <= b <= n
    ensures Delays(a, b) == Delays(0, n)[..b][a..]
  {
    var all := Delays(0, n);
    forall i | 0 <= i < b - a
      ensures Delays(a, b)[i] == all[..b][a..][i]
    {
      assert all[..b][a..][i] == all[a + i];
    }
  }

  /** Between resets at most 5 reconnects are scheduled, and together they wait at most 11.5 seconds. */
  lemma BackoffIsBounded(s: Service, steps: seq<Step>)
    requires Invariant(s) && NeverResets(s, steps)
    ensures var t := Run(s, steps);
            && s.timers <= t.timers
            && |t.timers| - |s.timers| <= MAX_RECONNECT_ATTEMPTS
            && Sum(t.timers[|s.timers|..]) <= 11500
  {
    TimersBetweenResets(s, steps);
    FullBackoff();
    var all, a, b := Delays(0, MAX_RECONNECT_ATTEMPTS), s.attempts, Run(s, steps).attempts;
    SomeDelays(a, b, MAX_RECONNECT_ATTEMPTS);
    SumPrefix(all, b);
    SumSuffix(all[..b], a);
    assert Run(s, steps).timers[|s.timers|..] == Delays(a, b);
  }

  // ---------------------------------------------------------------- what the service does not fail to do

  /** The wait before the reconnect that follows `attempts` earlier ones. */
  function Wait(attempts: nat): nat {
    if attempts == 0 then 500 else if attempts == 1 then 1000 else if attempts == 2 then 2000 else 4000
  }

  lemma WaitsAreBackoffs(attempts: nat)
    requires attempts < 5
    ensures Backoff(attempts) == Wait(attempts)
  {
    assert Pow2(0) == 1 && Pow2(1) == 2 && Pow2(2) == 4 && Pow2(3) == 8 && Pow2(4) == 16;
  }

  /** t has a timer running that s had not: one more attempt, and one more wait, of the right length. */
  predicate Retries(s: Service, t: Service) {
    t.reconnect && t.attempts == s.attempts + 1 && t.timers == s.timers + [Wait(s.attempts)]
  }

  predicate SameRetries(s: Service, t: Service) {
    t.reconnect == s.reconnect && t.attempts == s.attempts && t.timers == s.timers
  }

  /**
   A connection that drops is tried again: unless a timer is running already or five attempts have
   been used up, its close starts one.
   */
  lemma DropIsRetried(s: Service, id: nat)
    requires Invariant(s) && s.current == Some(id)
    ensures var t := Next(s, SocketCloses(id));
            && t.current.None? && !t.heartbeat && !t.deliberate
            && t.sockets == s.sockets[id := s.sockets[id].(ready := CLOSED)]
            && if s.reconnect || s.attempts == 5
               then SameRetries(s, t) && t.published == s.published + [Disconnected] && t.connection == Disconnected
               else && Retries(s, t) && t.connection == Connecting
                    && t.published == s.published + [Disconnected, Connecting]
  {
    if s.attempts < 5 {
      WaitsAreBackoffs(s.attempts);
    }
  }

  /** A timer that fires opens a socket, or is started again when the browser refuses to make one. */
  lemma TimerOpensOrRetries(s: Service, constructs: bool)
    requires Invariant(s) && s.reconnect
    ensures var t := Next(s, ReconnectFires(constructs));
            && !t.deliberate && !t.heartbeat
            && if constructs
               then && t.current == Some(|s.sockets|) && t.sockets == s.sockets + [Socket(CONNECTING, [])]
                    && !t.reconnect && t.attempts == s.attempts && t.timers == s.timers
                    && t.published == s.published + [Connecting] && t.connection == Connecting
               else && t.current == s.current && t.sockets == s.sockets
                    && if s.attempts < 5
                       then Retries(s, t) && t.published == s.published + [Connecting, Disconnected, Connecting]
                       else && !t.reconnect && t.attempts == s.attempts && t.timers == s.timers
                            && t.published == s.published + [Connecting, Disconnected]
  {
    if s.attempts < 5 {
      WaitsAreBackoffs(s.attempts);
    }
  }

  /** connect keeps a socket that is connecting or open; otherwise it opens one, whatever came before. */
  lemma ConnectOpens(s: Service, constructs: bool)
    requires Invariant(s)
    ensures var t := Next(s, CallConnect(constructs));
            && !t.deliberate
            && if CurrentIs(s, {CONNECTING, OPEN})
               then t == s
               else if constructs
               then && t.current == Some(|s.sockets|) && t.sockets == s.sockets + [Socket(CONNECTING, [])]
                    && !t.reconnect && !t.heartbeat && t.attempts == s.attempts && t.timers == s.timers
                    && t.published == s.published + [Connecting]
               else && t.sockets == s.sockets && !t.heartbeat
                    && (s.attempts < 5 ==> Retries(s, t))
                    && (s.attempts == 5 ==> !t.reconnect && t.timers == s.timers && t.connection == Disconnected)
  {
    if s.attempts < 5 {
      WaitsAreBackoffs(s.attempts);
    }
  }

  /** A current socket that opens starts the heartbeat and forgets the attempts it took. */
  lemma OpenStartsHeartbeat(s: Service, id: nat)
    requires Invariant(s) && s.current == Some(id) && s.sockets[id].ready == CONNECTING
    ensures var t := Next(s, SocketOpens(id));
            && t.heartbeat && t.attempts == 0 && t.connection == Connected
            && t.published == s.published + [Connected]
            && t.sockets == s.sockets[id := s.sockets[id].(ready := OPEN)]
            && t.current == s.current && t.reconnect == s.reconnect && t.timers == s.timers
  {
  }

  /** The heartbeat sends a ping on the open current socket, and nothing else. */
  lemma HeartbeatPings(s: Service)
    requires Invariant(s)
    ensures var t := Next(s, HeartbeatFires);
            if s.heartbeat && CurrentIs(s, {OPEN})
            then var id := s.current.value;
                 t == s.(sockets := s.sockets[id := s.sockets[id].(sent := s.sockets[id].sent + [Ping])])
            else t == s
  {
  }

  /** While connected the heartbeat runs until its socket reports an error. */
  lemma HeartbeatStops(s: Service, step: Step)
    requires Invariant(s) && s.heartbeat && Next(s, step).connection == Connected
    ensures Next(s, step).heartbeat <==> !(step.SocketErrs? && s.current == Some(step.id))
  {
  }

  /** disconnect closes the current socket, stops both timers and forgets the attempts. */
  lemma DisconnectStopsAll(s: Service)
    requires Invariant(s)
    ensures var t := Next(s, CallDisconnect);
            && t.deliberate && t.current.None? && !t.heartbeat && !t.reconnect && t.attempts == 0
            && t.connection == Disconnected && t.published == s.published + [Disconnected] && t.timers == s.timers
            && t.sockets == if s.current.Some?
                            then s.sockets[s.current.value := s.sockets[s.current.value].(ready := CLOSING)]
                            else s.sockets
  {
    if s.current.Some? {
      var ready := s.sockets[s.current.value].ready;
      assert ready in {CLOSED} ==> CurrentIs(s, {CLOSED});
      assert ready == CONNECTING || ready == OPEN || ready == CLOSING;
    }
  }

  /** A service that was told to disconnect stays so until it is told to connect. */
  lemma {:induction false} DisconnectedStays(s: Service, steps: seq<Step>)
    requires Invariant(s) && s.deliberate && forall step <- steps :: !step.CallConnect?
    ensures var t := Run(s, steps);
            t.deliberate && t.current.None? && t.connection == Disconnected && !t.reconnect
            && |t.sockets| == |s.sockets| && t.timers == s.timers
    decreases |steps|
  {
    if steps != [] {
      assert steps[0] in steps;
      NextKeepsInvariant(s, steps[0]);
      DisconnectedStays(Next(s, steps[0]), steps[1..]);
    }
  }

  /**
   Once connect has been called: there is a socket, or a timer, or all attempts are used up, or
   disconnect was called.
   */
  predicate Persists(s: Service) {
    s.published != [] ==> s.deliberate || s.current.Some? || s.reconnect || s.attempts == 5
  }

  lemma NextPersists(s: Service, step: Step)
    requires Invariant(s) && Persists(s)
    ensures Persists(Next(s, step))
  {
    match step
    case CallConnect(constructs) => ConnectOpens(s, constructs);
    case SocketCloses(id) =>
      if s.current == Some(id) {
        DropIsRetried(s, id);
      }
    case ReconnectFires(constructs) =>
      if s.reconnect {
        TimerOpensOrRetries(s, constructs);
      }
    case _ =>
  }

  /** In every run the service never gives up before its fifth attempt, unless it was told to. */
  lemma {:induction false} NeverGivesUpEarly(s: Service, steps: seq<Step>)
    requires Invariant(s) && Persists(s)
    ensures Persists(Run(s, steps))
    decreases |steps|
  {
    if steps != [] {
      NextKeepsInvariant(s, steps[0]);
      NextPersists(s, steps[0]);
      NeverGivesUpEarly(Next(s, steps[0]), steps[1..]);
    }
  }

  // ---------------------------------------------------------------- the class

  class WebSocketService {
    var sockets: seq<Socket>
    var socket: Option<nat>
    var heartbeatTimer: bool
    var reconnectTimer: bool
    var reconnectAttempts: nat
    var deliberateDisconnect: bool
    var connectionState: ConnectionState
    var published: seq<ConnectionState>
    var timers: seq<nat>

    ghost function View(): Service
      reads this
    {
      Service(sockets, socket, heartbeatTimer, reconnectTimer, reconnectAttempts, deliberateDisconnect,
              connectionState, published, timers)
    }

    constructor ()
      ensures View() == Initial
    {
      sockets, socket := [], None;
      heartbeatTimer, reconnectTimer := false, false;
      reconnectAttempts, deliberateDisconnect := 0, false;
      connectionState, published, timers := Disconnected, [], [];
    }

    method Emit(value: ConnectionState)
      modifies this
      ensures View() == Publish(old(View()), value)
    {
      connectionState := value;
      published := published + [value];
    }

    method DoConnect(constructs: bool)
      requires Invariant(View())
      modifies this
      ensures View() == Connect(old(View()), constructs) && Invariant(View())
    {
      ghost var before := View();
      deliberateDisconnect := false;
      if reconnectTimer {
        reconnectTimer := false;
      }
      DoOpenSocket(constructs);
      NextKeepsInvariant(before, CallConnect(constructs));
    }

    method DoDisconnect()
      requires Invariant(View())
      modifies this
      ensures View() == Disconnect(old(View())) && Invariant(View())
    {
      ghost var before := View();
      deliberateDisconnect := true;
      heartbeatTimer := false;
      reconnectTimer := false;
      reconnectAttempts := 0;
      var old_socket := socket;
      socket := None;
      if old_socket.Some? && sockets[old_socket.value].ready != CLOSED {
        sockets := sockets[old_socket.value := sockets[old_socket.value].(ready := CLOSING)];
      }
      Emit(Disconnected);
      NextKeepsInvariant(before, CallDisconnect);
    }

    method DoOpenSocket(constructs: bool)
      requires socket.Some? ==> socket.value < |sockets|
      modifies this
      ensures View() == OpenSocket(old(View()), constructs)
    {
      if socket.Some? && (sockets[socket.value].ready == CONNECTING || sockets[socket.value].ready == OPEN) {
        return;
      }
      heartbeatTimer := false;
      Emit(Connecting);
      if !constructs {
        Emit(Disconnected);
        DoScheduleReconnect();
        return;
      }
      socket := Some(|sockets|);
      sockets := sockets + [Socket(CONNECTING, [])];
    }

    method DoScheduleReconnect()
      modifies this
      ensures View() == ScheduleReconnect(old(View()))
    {
      if deliberateDisconnect || reconnectTimer || reconnectAttempts >= MAX_RECONNECT_ATTEMPTS {
        return;
      }
      var delay := Backoff(reconnectAttempts);
      reconnectAttempts := reconnectAttempts + 1;
      Emit(Connecting);
      reconnectTimer := true;
      timers := timers + [delay];
    }

    /** The browser moves the socket to OPEN and calls its onopen. */
    method SocketOpened(id: nat)
      requires Invariant(View()) && id < |sockets| && sockets[id].ready == CONNECTING
      modifies this
      ensures View() == Next(old(View()), SocketOpens(id)) && Invariant(View())
    {
      ghost var before := View();
      sockets := sockets[id := sockets[id].(ready := OPEN)];
      if socket == Some(id) {
        reconnectAttempts := 0;
        Emit(Connected);
        heartbeatTimer := true;
      }
      NextKeepsInvariant(before, SocketOpens(id));
    }

    /** The browser reports an error on a socket that has not closed. */
    method SocketErred(id: nat)
      requires Invariant(View()) && id < |sockets| && sockets[id].ready != CLOSED
      modifies this
      ensures View() == Next(old(View()), SocketErrs(id)) && Invariant(View())
    {
      ghost var before := View();
      if socket == Some(id) {
        heartbeatTimer := false;
      }
      NextKeepsInvariant(before, SocketErrs(id));
    }

    /** The browser moves the socket to CLOSED and calls its onclose. */
    method SocketClosed(id: nat)
      requires Invariant(View()) && id < |sockets| && sockets[id].ready != CLOSED
      modifies this
      ensures View() == Next(old(View()), SocketCloses(id)) && Invariant(View())
    {
      ghost var before := View();
      sockets := sockets[id := sockets[id].(ready := CLOSED)];
      if socket == Some(id) {
        heartbeatTimer := false;
        socket := None;
        Emit(Disconnected);
        if !deliberateDisconnect {
          DoScheduleReconnect();
        }
      }
      NextKeepsInvariant(before, SocketCloses(id));
    }

    method ReconnectTimerFired(constructs: bool)
      requires Invariant(View()) && reconnectTimer
      modifies this
      ensures View() == Next(old(View()), ReconnectFires(constructs)) && Invariant(View())
    {
      ghost var before := View();
      reconnectTimer := false;
      if !deliberateDisconnect {
        DoOpenSocket(constructs);
      }
      NextKeepsInvariant(before, ReconnectFires(constructs));
    }

    /** threw stands for the error raised when there is no open current socket. */
    method DoSend(message: ClientMessage) returns (threw: bool)
      requires socket.Some? ==> socket.value < |sockets|
      modifies this
      ensures threw == !CanSend(old(View()))
      ensures View() == if threw then old(View()) else Send(old(View()), message)
    {
      if socket.None? || sockets[socket.value].ready != OPEN {
        return true;
      }
      var id := socket.value;
      sockets := sockets[id := sockets[id].(sent := sockets[id].sent + [message])];
      return false;
    }
  }
}
