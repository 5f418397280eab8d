/**
 What the page puts on its sockets: every request is submitted at most once, on one socket, and
 nothing mentions a request before it has been submitted.
 */
module Wire {
  import opened Options
  import opened Protocol
  import Sock = SocketService
  import W = Workspace

  predicate Mentions(m: ClientMessage, r: RequestId) {
    !m.Ping? && m.request == r
  }

  predicate Submits(m: ClientMessage, r: RequestId) {
    (m.Chat? || m.AgentExecute?) && m.request == r
  }

  /** A position in the sent log of some socket. */
  predicate At(s: Sock.Service, i: nat, j: nat) {
    i < |s.sockets| && j < |s.sockets[i].sent|
  }

  function MessageAt(s: Sock.Service, i: nat, j: nat): ClientMessage
    requires At(s, i, j)
  {
    s.sockets[i].sent[j]
  }

  ghost predicate Unsent(s: Sock.Service, r: RequestId) {
    forall i: nat, j: nat :: At(s, i, j) ==> !Mentions(MessageAt(s, i, j), r)
  }

  ghost predicate SentOnce(s: Sock.Service, r: RequestId) {
    forall i: nat, j: nat, k: nat, l: nat ::
      At(s, i, j) && At(s, k, l) && Submits(MessageAt(s, i, j), r) && Submits(MessageAt(s, k, l), r) ==>
        i == k && j == l
  }

  /** The logs of t extend those of s by nothing that mentions r. */
  ghost predicate Untouched(s: Sock.Service, t: Sock.Service, r: RequestId) {
    forall i: nat, j: nat :: At(t, i, j) && Mentions(MessageAt(t, i, j), r) ==>
      At(s, i, j) && MessageAt(s, i, j) == MessageAt(t, i, j)
  }

  ghost predicate Grows(s: Sock.Service, t: Sock.Service) {
    && |s.sockets| <= |t.sockets|
    && forall i :: 0 <= i < |s.sockets| ==> s.sockets[i].sent <= t.sockets[i].sent
  }

  ghost predicate Invariant(app: W.App) {
    var c, s := app.client, app.service;
    && (forall n :: SentOnce(s, WorkspaceId(n)))
    && (forall n :: n > c.requestCounter ==> Unsent(s, WorkspaceId(n)))
    && (c.pending.Some? ==> Unsent(s, c.pending.value.request))
    && (c.state.active.Some? ==> ModeFits(s, c.state.active.value, c.state.mode))
  }

  /** A request of direct mode is submitted as a chat, one of agent mode as an agent execution. */
  ghost predicate ModeFits(s: Sock.Service, r: RequestId, mode: W.Mode) {
    forall i: nat, j: nat :: At(s, i, j) && Submits(MessageAt(s, i, j), r) ==>
      (MessageAt(s, i, j).Chat? <==> mode == W.DirectMode)
  }

  lemma UntouchedKeeps(s: Sock.Service, t: Sock.Service, r: RequestId, mode: W.Mode)
    requires Untouched(s, t, r)
    ensures Unsent(s, r) ==> Unsent(t, r)
    ensures SentOnce(s, r) ==> SentOnce(t, r)
    ensures ModeFits(s, r, mode) ==> ModeFits(t, r, mode)
  {
    assert forall m :: Submits(m, r) ==> Mentions(m, r);
  }

  /** A position in the logs after m is sent: one that was there, or the place of m. */
  predicate SentAt(s: Sock.Service, m: ClientMessage, i: nat, j: nat)
    requires Sock.CanSend(s) && At(Sock.Send(s, m), i, j)
  {
    || (At(s, i, j) && MessageAt(Sock.Send(s, m), i, j) == MessageAt(s, i, j))
    || (i == s.current.value && j == |s.sockets[i].sent| && MessageAt(Sock.Send(s, m), i, j) == m)
  }

  lemma SendAdds(s: Sock.Service, m: ClientMessage)
    requires Sock.CanSend(s)
    ensures Grows(s, Sock.Send(s, m)) && |Sock.Send(s, m).sockets| == |s.sockets|
    ensures forall i: nat, j: nat :: At(Sock.Send(s, m), i, j) ==> SentAt(s, m, i, j)
  {
  }

  /** Sending m touches only the request that m mentions. */
  lemma SendTouches(s: Sock.Service, m: ClientMessage, r: RequestId, mode: W.Mode)
    requires Sock.CanSend(s)
    ensures Grows(s, Sock.Send(s, m)) && |Sock.Send(s, m).sockets| == |s.sockets|
    ensures !Mentions(m, r) ==> Untouched(s, Sock.Send(s, m), r)
    ensures Unsent(s, r) && Submits(m, r) ==> SentOnce(Sock.Send(s, m), r)
    ensures Unsent(s, r) && (m.Chat? <==> mode == W.DirectMode) ==> ModeFits(Sock.Send(s, m), r, mode)
    ensures !Submits(m, r) && SentOnce(s, r) ==> SentOnce(Sock.Send(s, m), r)
    ensures !Submits(m, r) && ModeFits(s, r, mode) ==> ModeFits(Sock.Send(s, m), r, mode)
  {
    SendAdds(s, m);
    SubmittedOnce(s, m, r);
    SubmittedInMode(s, m, r, mode);
  }

  lemma SubmittedOnce(s: Sock.Service, m: ClientMessage, r: RequestId)
    requires Sock.CanSend(s)
    ensures Unsent(s, r) || (!Submits(m, r) && SentOnce(s, r)) ==> SentOnce(Sock.Send(s, m), r)
  {
    var t := Sock.Send(s, m);
    SendAdds(s, m);
    if Unsent(s, r) || (!Submits(m, r) && SentOnce(s, r)) {
      forall i: nat, j: nat, k: nat, l: nat
        | At(t, i, j) && At(t, k, l) && Submits(MessageAt(t, i, j), r) && Submits(MessageAt(t, k, l), r)
        ensures i == k && j == l
      {
        assert SentAt(s, m, i, j) && SentAt(s, m, k, l);
        assert Mentions(MessageAt(t, i, j), r) && Mentions(MessageAt(t, k, l), r);
      }
    }
  }

  lemma SubmittedInMode(s: Sock.Service, m: ClientMessage, r: RequestId, mode: W.Mode)
    requires Sock.CanSend(s)
    ensures Unsent(s, r) && (m.Chat? <==> mode == W.DirectMode) ==> ModeFits(Sock.Send(s, m), r, mode)
    ensures !Submits(m, r) && ModeFits(s, r, mode) ==> ModeFits(Sock.Send(s, m), r, mode)
  {
    var t := Sock.Send(s, m);
    SendAdds(s, m);
    forall i: nat, j: nat | At(t, i, j) && Submits(MessageAt(t, i, j), r)
      ensures SentAt(s, m, i, j) && Mentions(MessageAt(t, i, j), r)
    {
    }
  }

  // ---------------------------------------------------------------- how the page moves, apart from server events

  /**
   b follows a without a server event in between: messages are only added or removed, and an
   answer in progress is the one that was already there, on the same socket, or has not begun,
   its request never having been mentioned before.
   */
  ghost predicate Evolves(a: W.App, b: W.App) {
    var c, d := a.client, b.client;
    && Grows(a.service, b.service) && |b.service.sockets| <= |a.service.sockets| + 1
    && c.messageCounter <= d.messageCounter
    && (forall m <- d.state.messages :: m in c.state.messages || m.id > c.messageCounter)
    && (d.assistant.Some? ==> d.assistant == c.assistant)
    && (d.state.active.Some? && d.pending.None? ==>
          || (SameAnswer(c, d) && b.service.current == a.service.current)
          || (d.assistant.None? && Unsent(a.service, d.state.active.value)))
  }

  ghost predicate SameAnswer(c: W.Client, d: W.Client) {
    && d.state.active == c.state.active && c.pending.None? && d.assistant == c.assistant
    && d.state.mode == c.state.mode && d.state.messages == c.state.messages
  }

  lemma UntouchedIf(s: Sock.Service, t: Sock.Service, r: RequestId, mode: W.Mode, m: ClientMessage)
    requires !Mentions(m, r) ==> Untouched(s, t, r)
    ensures !Mentions(m, r) ==>
              && (Unsent(s, r) ==> Unsent(t, r))
              && (SentOnce(s, r) ==> SentOnce(t, r))
              && (ModeFits(s, r, mode) ==> ModeFits(t, r, mode))
  {
    if !Mentions(m, r) {
      UntouchedKeeps(s, t, r, mode);
    }
  }

  /** Sending the waiting request. */
  lemma SendEvolves(app: W.App)
    requires Invariant(app) && app.client.pending.Some? && app.client.assistant.None?
    requires app.client.state.active == Some(app.client.pending.value.request)
    requires app.client.pending.value.mode == app.client.state.mode
    requires app.client.pending.value.request == WorkspaceId(app.client.requestCounter)
    ensures var b := W.SendPending(app); Invariant(b) && Evolves(app, b) && |b.service.sockets| == |app.service.sockets|
  {
    var b := W.SendPending(app);
    if b.service != app.service {
      var p := app.client.pending.value;
      var m := W.WireMessage(p, app.client.state.conversation);
      forall n: nat
        ensures SentOnce(b.service, WorkspaceId(n))
        ensures n > b.client.requestCounter ==> Unsent(b.service, WorkspaceId(n))
      {
        SendTouches(app.service, m, WorkspaceId(n), app.client.state.mode);
        UntouchedIf(app.service, b.service, WorkspaceId(n), p.mode, m);
      }
      SendTouches(app.service, m, p.request, p.mode);
    } else {
      assert Grows(app.service, b.service);
    }
  }

  /** Telling the page a connection state: at most the waiting request goes out, or the request ends. */
  lemma ConnectionEvolves(app: W.App, value: Sock.ConnectionState)
    requires W.ClientInvariant(app.client) && Invariant(app)
    ensures var b := W.HandleConnection(app, value);
            Invariant(b) && Evolves(app, b) && |b.service.sockets| == |app.service.sockets|
  {
    W.RemovesTheLast(app.client);
    if value == Sock.Connected && app.client.pending.Some? {
      SendEvolves(app.(client := app.client.(state := app.client.state.(connection := value))));
    } else {
      assert Grows(app.service, app.service);
    }
  }

  lemma EvolvesThenEvolves(a: W.App, b: W.App, c: W.App)
    requires Evolves(a, b) && Evolves(b, c) && |b.service.sockets| == |a.service.sockets|
    requires b.service.current == a.service.current
    requires Invariant(a) && W.ClientInvariant(a.client) && W.ClientInvariant(b.client)
    ensures Evolves(a, c)
  {
    forall r | Unsent(b.service, r)
      ensures Unsent(a.service, r)
    {
      forall i: nat, j: nat | At(a.service, i, j)
        ensures !Mentions(MessageAt(a.service, i, j), r)
      {
        assert At(b.service, i, j) && MessageAt(b.service, i, j) == MessageAt(a.service, i, j);
      }
    }
  }

  lemma {:induction false} DeliverEvolves(app: W.App, from: nat)
    requires W.AppReady(app, from) && Invariant(app)
    ensures var b := W.Deliver(app, from);
            Invariant(b) && Evolves(app, b) && |b.service.sockets| == |app.service.sockets|
    decreases |app.service.published| - from
  {
    if from < |app.service.published| {
      W.DeliverOne(app, from);
      var value := app.service.published[from];
      var next := if value == app.client.state.connection then app else W.HandleConnection(app, value);
      ConnectionEvolves(app, value);
      DeliverEvolves(next, from + 1);
      if value != app.client.state.connection {
        EvolvesThenEvolves(app, next, W.Deliver(next, from + 1));
      }
    }
  }

  /** t has sent what s has, and has at most one socket more. */
  ghost predicate SendsNothing(s: Sock.Service, t: Sock.Service) {
    && |s.sockets| <= |t.sockets| <= |s.sockets| + 1
    && (forall i :: 0 <= i < |s.sockets| ==> t.sockets[i].sent == s.sockets[i].sent)
    && (forall i :: |s.sockets| <= i < |t.sockets| ==> t.sockets[i].sent == [])
  }

  lemma OpeningSendsNothing(s: Sock.Service, constructs: bool)
    ensures SendsNothing(s, Sock.OpenSocket(s, constructs))
  {
  }

  lemma ReadySendsNothing(s: Sock.Service, id: nat, ready: Sock.ReadyState)
    requires id < |s.sockets|
    ensures SendsNothing(s, Sock.SetReady(s, id, ready))
  {
  }

  /** A callback of one socket at most changes that socket's state. */
  lemma CallbackSendsNothing(s: Sock.Service, step: Sock.Step, id: nat, ready: Sock.ReadyState)
    requires id < |s.sockets|
    requires || step == Sock.SocketErrs(id) || (step == Sock.SocketOpens(id) && ready == Sock.OPEN)
             || (step == Sock.SocketStartsClosing(id) && ready == Sock.CLOSING)
             || (step == Sock.SocketCloses(id) && ready == Sock.CLOSED)
    ensures SendsNothing(s, Sock.Next(s, step))
  {
    ReadySendsNothing(s, id, ready);
    assert Sock.Next(s, step).sockets in {s.sockets, Sock.SetReady(s, id, ready).sockets};
  }

  lemma BrowserSendsNothing(s: Sock.Service, step: Sock.Step)
    requires Sock.Invariant(s) && !step.HeartbeatFires?
    ensures SendsNothing(s, Sock.Next(s, step))
  {
    match step
    case CallConnect(constructs) => OpeningSendsNothing(s.(deliberate := false, reconnect := false), constructs);
    case ReconnectFires(constructs) => OpeningSendsNothing(s.(reconnect := false), constructs);
    case CallDisconnect =>
      if s.current.Some? {
        ReadySendsNothing(s, s.current.value, Sock.CLOSING);
      }
    case SocketOpens(id) =>
      if id < |s.sockets| {
        CallbackSendsNothing(s, step, id, Sock.OPEN);
      }
    case SocketErrs(id) =>
      if id < |s.sockets| {
        CallbackSendsNothing(s, step, id, Sock.OPEN);
      }
    case SocketStartsClosing(id) =>
      if id < |s.sockets| {
        CallbackSendsNothing(s, step, id, Sock.CLOSING);
      }
    case SocketCloses(id) =>
      if id < |s.sockets| {
        CallbackSendsNothing(s, step, id, Sock.CLOSED);
      }
  }

  /** The browser's own steps send nothing but heartbeats, and keep the socket of an open connection. */
  lemma BrowserStep(s: Sock.Service, step: Sock.Step)
    requires Sock.Invariant(s) && (step.CallConnect? ==> s.connection != Sock.Connected)
    ensures var t := Sock.Next(s, step);
            && Grows(s, t) && |t.sockets| <= |s.sockets| + 1
            && (forall r :: Untouched(s, t, r))
            && (s.connection == Sock.Connected && t.connection == Sock.Connected ==> t.current == s.current)
  {
    var t := Sock.Next(s, step);
    if step.HeartbeatFires? {
      forall r
        ensures Untouched(s, t, r)
      {
        if s.heartbeat && Sock.CanSend(s) {
          SendTouches(s, Ping, r, W.DirectMode);
        }
      }
    } else {
      BrowserSendsNothing(s, step);
      forall r
        ensures Untouched(s, t, r)
      {
      }
    }
  }

  lemma UntouchedInvariant(app: W.App, t: Sock.Service)
    requires Invariant(app) && forall r :: Untouched(app.service, t, r)
    ensures Invariant(app.(service := t))
  {
    forall r
      ensures Unsent(app.service, r) ==> Unsent(t, r)
      ensures SentOnce(app.service, r) ==> SentOnce(t, r)
      ensures ModeFits(app.service, r, app.client.state.mode) ==> ModeFits(t, r, app.client.state.mode)
    {
      UntouchedKeeps(app.service, t, r, app.client.state.mode);
    }
  }

  lemma GrowsBack(s: Sock.Service, t: Sock.Service, r: RequestId)
    requires Grows(s, t) && Unsent(t, r)
    ensures Unsent(s, r)
  {
    forall i: nat, j: nat | At(s, i, j)
      ensures !Mentions(MessageAt(s, i, j), r)
    {
      assert At(t, i, j) && MessageAt(t, i, j) == MessageAt(s, i, j);
    }
  }

  lemma BrowserEvolves(app: W.App, step: Sock.Step)
    requires W.AppInvariant(app) && Invariant(app) && W.Allowed(app, step)
    ensures var b := W.Next(app, W.Browser(step)); Invariant(b) && Evolves(app, b)
  {
    var t := Sock.Next(app.service, step);
    var mid := app.(service := t);
    BrowserStep(app.service, step);
    UntouchedInvariant(app, t);
    W.StepPublishesChain(app.service, step);
    Sock.NextKeepsInvariant(app.service, step);
    DeliverEvolves(mid, |app.service.published|);
    W.NextKeepsInvariant(app, W.Browser(step));
    var b := W.Next(app, W.Browser(step));
    if b.client.state.active.Some? && b.client.pending.None? && Unsent(t, b.client.state.active.value) {
      GrowsBack(app.service, t, b.client.state.active.value);
    }
    W.DeliverKeepsService(mid, |app.service.published|);
  }

  lemma SubmittedInvariant(app: W.App, query: string)
    requires W.AppInvariant(app) && Invariant(app) && !app.client.state.running
    ensures Invariant(app.(client := W.Submitted(app.client, query)))
  {
  }

  lemma SubmitEvolves(app: W.App, query: string, constructs: bool)
    requires W.AppInvariant(app) && Invariant(app)
    requires query != "" && !app.client.state.running && |query| <= W.MAX_QUERY_LENGTH
    ensures var b := W.Submit(app, query, constructs); Invariant(b) && Evolves(app, b)
  {
    var submitted := app.(client := W.Submitted(app.client, query));
    SubmittedInvariant(app, query);
    var b := W.Submit(app, query, constructs);
    if app.service.connection == Sock.Connected {
      var c := submitted.client;
      assert submitted.(client := c.(state := c.state.(connection := Sock.Connected))) == submitted;
      SendEvolves(submitted);
    } else {
      var step := Sock.CallConnect(constructs);
      var t := Sock.Next(app.service, step);
      var mid := submitted.(service := t);
      BrowserStep(app.service, step);
      UntouchedInvariant(submitted, t);
      W.StepPublishesChain(app.service, step);
      Sock.NextKeepsInvariant(app.service, step);
      DeliverEvolves(mid, |app.service.published|);
      if b.client.state.active.Some? && b.client.pending.None? {
        GrowsBack(app.service, t, b.client.state.active.value);
      }
    }
  }

  /** A cancellation, or a message of another page, submits nothing of this page's. */
  predicate Harmless(app: W.App, m: ClientMessage) {
    m.Ping? || m.request.ChatId? ||
      (m.Cancel? && Some(m.request) == app.client.state.active && app.client.pending.None?)
  }

  lemma HarmlessSend(app: W.App, m: ClientMessage)
    requires W.ClientInvariant(app.client) && Invariant(app) && Sock.CanSend(app.service) && Harmless(app, m)
    ensures var b := app.(service := Sock.Send(app.service, m)); Invariant(b) && Evolves(app, b)
  {
    var c, t := app.client, Sock.Send(app.service, m);
    forall n: nat
      ensures SentOnce(t, WorkspaceId(n))
      ensures n > c.requestCounter ==> Unsent(t, WorkspaceId(n))
    {
      SendTouches(app.service, m, WorkspaceId(n), c.state.mode);
      UntouchedIf(app.service, t, WorkspaceId(n), c.state.mode, m);
    }
    if c.state.active.Some? {
      SendTouches(app.service, m, c.state.active.value, c.state.mode);
      UntouchedIf(app.service, t, c.state.active.value, c.state.mode, m);
    }
  }

  lemma QuietEvolves(app: W.App, step: W.Step)
    requires W.AppInvariant(app) && Invariant(app)
    requires step.UserCancels? || step.UserResets? || step.UserSetsMode? || step.UserClearsError?
    ensures Invariant(W.Next(app, step)) && Evolves(app, W.Next(app, step))
  {
    var c := app.client;
    assert Grows(app.service, app.service);
    W.RemovesTheLast(c);
    if c.state.running && c.pending.None? && Sock.CanSend(app.service) {
      HarmlessSend(app, Cancel(c.state.active.value));
    }
  }

  /** Every step of the page but a server event. */
  lemma StepEvolves(app: W.App, step: W.Step)
    requires W.AppInvariant(app) && Invariant(app) && !step.Receives?
    ensures Invariant(W.Next(app, step)) && Evolves(app, W.Next(app, step))
  {
    assert Grows(app.service, app.service);
    match step
    case UserSubmits(query, constructs) =>
      if query != "" && !app.client.state.running && |query| <= W.MAX_QUERY_LENGTH {
        SubmitEvolves(app, query, constructs);
      }
    case Browser(step) =>
      if W.Allowed(app, step) {
        BrowserEvolves(app, step);
      }
    case _ => QuietEvolves(app, step);
  }

  lemma InitialInvariant()
    ensures Invariant(W.InitialApp)
  {
  }

  /** A server event changes nothing on the wire. */
  lemma EventKeepsInvariant(app: W.App, event: ServerEvent)
    requires W.AppInvariant(app) && Invariant(app)
    ensures Invariant(app.(client := W.HandleServerEvent(app.client, event)))
  {
  }
}
