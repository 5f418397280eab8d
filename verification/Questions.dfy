/**
 What the user asked, told apart from what the page does with it: every question of a run is on the
 transcript, and goes out, if at all, as it was asked.
 */
module Questions {
  import opened Options
  import opened Protocol
  import Sock = SocketService
  import W = Workspace
  import Wire

  /** A question, the mode it was asked in, and the conversation it belongs to. */
  datatype Question = Question(query: string, mode: W.Mode, conversation: nat)

  /** What the user asks by one step: a page that is busy, or is given no text or too much, takes no question. */
  function Asks(app: W.App, step: W.Step): seq<Question> {
    var s := app.client.state;
    if step.UserSubmits? && 1 <= |step.query| <= 20000 && !s.running
    then [Question(step.query, s.mode, s.conversation)] else []
  }

  function AsksAll(app: W.App, steps: seq<W.Step>): seq<Question>
    decreases |steps|
  {
    if steps == [] then [] else Asks(app, steps[0]) + AsksAll(W.Next(app, steps[0]), steps[1..])
  }

  /** m puts question q to the server, as request number n. */
  predicate Puts(m: ClientMessage, n: nat, q: Question) {
    match q.mode
    case DirectMode => m == Chat(WorkspaceId(n), q.query)
    case AgentMode => m == AgentExecute(WorkspaceId(n), q.query, q.conversation, 4)
  }

  /** A message that submits a request of this page submits one of the questions asked. */
  predicate IsAsked(m: ClientMessage, asked: seq<Question>) {
    (m.Chat? || m.AgentExecute?) && m.request.WorkspaceId? ==>
      var n := m.request.number;
      1 <= n <= |asked| && Puts(m, n, asked[n - 1])
  }

  ghost predicate AllAsked(s: Sock.Service, asked: seq<Question>) {
    forall i: nat, j: nat :: Wire.At(s, i, j) ==> IsAsked(Wire.MessageAt(s, i, j), asked)
  }

  /** The texts of the user's messages, in order. */
  function UserTexts(messages: seq<W.Message>): seq<string> {
    if messages == [] then []
    else
      var last := messages[|messages| - 1];
      UserTexts(messages[..|messages| - 1]) + (if last.role == W.User then [last.content] else [])
  }

  /** The questions of one conversation, in order. */
  function Of(asked: seq<Question>, conversation: nat): seq<string> {
    if asked == [] then []
    else
      var last := asked[|asked| - 1];
      Of(asked[..|asked| - 1], conversation) + (if last.conversation == conversation then [last.query] else [])
  }

  ghost predicate Waits(c: W.Client, asked: seq<Question>) {
    c.state.active.Some? ==>
      && asked != []
      && var q := asked[|asked| - 1];
         && c.state.active == Some(WorkspaceId(|asked|))
         && q.conversation == c.state.conversation && q.mode == c.state.mode
         && (c.pending.Some? ==> c.pending.value == W.Pending(WorkspaceId(|asked|), q.query, q.mode))
  }

  /** Until its answer begins, the question being answered is the last message. */
  ghost predicate StandsLast(c: W.Client, asked: seq<Question>) {
    c.state.active.Some? && c.assistant.None? ==>
      && c.state.messages != [] && asked != []
      && var last := c.state.messages[|c.state.messages| - 1];
         last.role == W.User && last.id == c.messageCounter && last.content == asked[|asked| - 1].query
  }

  predicate IsExecuted(r: RequestId, asked: seq<Question>, conversation: nat) {
    && r.WorkspaceId? && 1 <= r.number <= |asked|
    && asked[r.number - 1].mode == W.AgentMode && asked[r.number - 1].conversation == conversation
  }

  /** The execution on the page is that of a question of this conversation. */
  predicate ExecutesAsked(c: W.Client, asked: seq<Question>) {
    c.state.execution.Some? ==> IsExecuted(c.state.execution.value.request, asked, c.state.conversation)
  }

  ghost predicate Kept(c: W.Client, asked: seq<Question>) {
    && |asked| == c.requestCounter
    && c.state.conversation == c.conversationCounter
    && (forall q <- asked :: q.conversation <= c.conversationCounter)
    && UserTexts(c.state.messages) == Of(asked, c.state.conversation)
    && Waits(c, asked) && StandsLast(c, asked) && ExecutesAsked(c, asked)
  }

  ghost predicate Invariant(app: W.App, asked: seq<Question>) {
    W.AppInvariant(app) && Wire.Invariant(app) && Kept(app.client, asked) && AllAsked(app.service, asked)
  }

  // ---------------------------------------------------------------- transcripts

  lemma OneMoreText(messages: seq<W.Message>, m: W.Message)
    ensures UserTexts(messages + [m]) == UserTexts(messages) + if m.role == W.User then [m.content] else []
  {
    assert (messages + [m])[..|messages|] == messages;
  }

  lemma OneMoreQuestion(asked: seq<Question>, q: Question, conversation: nat)
    ensures Of(asked + [q], conversation) ==
      Of(asked, conversation) + if q.conversation == conversation then [q.query] else []
  {
    assert (asked + [q])[..|asked|] == asked;
  }

  lemma {:induction false} NoneYet(asked: seq<Question>, conversation: nat)
    requires forall q <- asked :: q.conversation < conversation
    ensures Of(asked, conversation) == []
  {
    if asked != [] {
      assert asked[|asked| - 1] in asked;
      NoneYet(asked[..|asked| - 1], conversation);
    }
  }

  /** An answer being written adds nothing to the user's texts. */
  lemma SettledTexts(c: W.Client)
    requires W.ClientInvariant(c)
    ensures UserTexts(c.state.messages) == UserTexts(W.Settled(c))
  {
    if c.assistant.Some? {
      var n := |c.state.messages| - 1;
      assert c.state.messages == c.state.messages[..n] + [c.state.messages[n]];
      OneMoreText(c.state.messages[..n], c.state.messages[n]);
    }
  }

  lemma SameSettled(c: W.Client, d: W.Client)
    requires W.ClientInvariant(c) && W.ClientInvariant(d) && W.Settled(c) == W.Settled(d)
    ensures UserTexts(c.state.messages) == UserTexts(d.state.messages)
  {
    SettledTexts(c);
    SettledTexts(d);
  }

  lemma RemovingKeepsTexts(c: W.Client)
    requires W.ClientInvariant(c)
    ensures UserTexts(W.RemoveEmptyAssistant(c).state.messages) == UserTexts(c.state.messages)
  {
    W.RemovesTheLast(c);
    SettledTexts(c);
  }

  lemma CompletedKeepsTexts(c: W.Client, model: string)
    requires W.ClientInvariant(c)
    ensures UserTexts(W.DirectCompleted(c, model).state.messages) == UserTexts(c.state.messages)
  {
    if c.assistant.Some? {
      var messages, n := c.state.messages, |c.state.messages| - 1;
      W.UpdateLast(messages, c.messageCounter, "", model);
      assert messages == messages[..n] + [messages[n]];
      OneMoreText(messages[..n], messages[n]);
      OneMoreText(messages[..n], messages[n].(model := Some(model)));
    }
  }

  lemma AgentEventKeepsTexts(c: W.Client, event: ServerEvent)
    requires event.AgentEvent?
    ensures UserTexts(W.HandleAgentEvent(c, event).state.messages) == UserTexts(c.state.messages)
  {
    var messages := W.HandleAgentEvent(c, event).state.messages;
    if messages != c.state.messages {
      var m := messages[|messages| - 1];
      assert messages == c.state.messages + [m];
      OneMoreText(c.state.messages, m);
    }
  }

  lemma EventKeepsTexts(c: W.Client, event: ServerEvent)
    requires W.ClientInvariant(c) && c.state.connection == Sock.Connected
    ensures UserTexts(W.HandleServerEvent(c, event).state.messages) == UserTexts(c.state.messages)
  {
    if !event.Pong? && Some(event.request) == c.state.active {
      match event
      case Started(_, model) =>
        if c.state.mode == W.DirectMode {
          W.StartedWrites(c, model);
          SameSettled(c, W.DirectStarted(c, model));
        }
      case Chunk(_, content) =>
        if c.state.mode == W.DirectMode {
          W.ChunkWrites(c, content);
          SameSettled(c, W.DirectChunk(c, content));
        }
      case Completed(_, model) => CompletedKeepsTexts(c, model);
      case AgentEvent(_, _, _, _, _, _) => AgentEventKeepsTexts(c, event);
      case _ => RemovingKeepsTexts(c);
    }
  }

  // ---------------------------------------------------------------- every step keeps the questions

  lemma EventKeepsCounters(c: W.Client, event: ServerEvent)
    requires W.ClientInvariant(c) && c.state.connection == Sock.Connected
    ensures var d := W.HandleServerEvent(c, event);
            && d.requestCounter == c.requestCounter && d.conversationCounter == c.conversationCounter
            && d.state.conversation == c.state.conversation && d.state.mode == c.state.mode
            && (d.state.active.Some? ==> d.state.active == c.state.active && d.pending == c.pending)
  {
    W.RemovesTheLast(c);
  }

  lemma EventKeeps(app: W.App, event: ServerEvent, asked: seq<Question>)
    requires Invariant(app, asked) && Sock.CanSend(app.service)
    ensures Invariant(app.(client := W.HandleServerEvent(app.client, event)), asked)
  {
    EventKeepsKept(app.client, event, asked);
    W.ServerEventKeepsInvariant(app.client, event);
    Wire.EventKeepsInvariant(app, event);
  }

  lemma EventKeepsKept(c: W.Client, event: ServerEvent, asked: seq<Question>)
    requires W.ClientInvariant(c) && c.state.connection == Sock.Connected && Kept(c, asked)
    ensures Kept(W.HandleServerEvent(c, event), asked)
  {
    EventKeepsTexts(c, event);
    EventKeepsCounters(c, event);
    EventKeepsPlace(c, event, asked);
    EventKeepsExecution(c, event, asked);
    KeptAgain(c, W.HandleServerEvent(c, event), asked);
  }

  /** An event that leaves the request active without an answer leaves the transcript alone. */
  lemma EventKeepsPlace(c: W.Client, event: ServerEvent, asked: seq<Question>)
    requires W.ClientInvariant(c) && c.state.connection == Sock.Connected && StandsLast(c, asked)
    ensures StandsLast(W.HandleServerEvent(c, event), asked)
  {
    W.RemovesTheLast(c);
  }

  lemma EventKeepsExecution(c: W.Client, event: ServerEvent, asked: seq<Question>)
    requires W.ClientInvariant(c) && ExecutesAsked(c, asked)
    ensures
      var d := W.HandleServerEvent(c, event);
      d.state.conversation == c.state.conversation ==> ExecutesAsked(d, asked)
  {
    W.RemovesTheLast(c);
  }

  lemma KeptAgain(c: W.Client, d: W.Client, asked: seq<Question>)
    requires Kept(c, asked) && StandsLast(d, asked) && ExecutesAsked(d, asked)
    requires UserTexts(d.state.messages) == UserTexts(c.state.messages)
    requires d.requestCounter == c.requestCounter && d.conversationCounter == c.conversationCounter
    requires d.state.conversation == c.state.conversation && d.state.mode == c.state.mode
    requires d.state.active.Some? ==> d.state.active == c.state.active && d.pending == c.pending
    ensures Kept(d, asked)
  {
  }

  lemma SendingKeeps(s: Sock.Service, m: ClientMessage, asked: seq<Question>)
    requires AllAsked(s, asked) && Sock.CanSend(s) && IsAsked(m, asked)
    ensures AllAsked(Sock.Send(s, m), asked)
  {
    Wire.SendAdds(s, m);
    var t := Sock.Send(s, m);
    forall i: nat, j: nat | Wire.At(t, i, j)
      ensures IsAsked(Wire.MessageAt(t, i, j), asked)
    {
      assert Wire.SentAt(s, m, i, j);
    }
  }

  lemma PendingKeeps(app: W.App, asked: seq<Question>)
    requires W.ClientInvariant(app.client) || app.client.pending.Some?
    requires Kept(app.client, asked) && AllAsked(app.service, asked)
    requires app.client.pending.Some? ==> app.client.state.active.Some?
    ensures var b := W.SendPending(app); Kept(b.client, asked) && AllAsked(b.service, asked)
  {
    var c := app.client;
    if c.pending.Some? && c.state.connection == Sock.Connected && Sock.CanSend(app.service) {
      SendingKeeps(app.service, W.WireMessage(c.pending.value, c.state.conversation), asked);
    }
  }

  lemma ConnectionKeeps(app: W.App, value: Sock.ConnectionState, asked: seq<Question>)
    requires W.ClientInvariant(app.client) && Kept(app.client, asked) && AllAsked(app.service, asked)
    ensures var b := W.HandleConnection(app, value); Kept(b.client, asked) && AllAsked(b.service, asked)
  {
    var c := app.client.(state := app.client.state.(connection := value));
    if value == Sock.Connected {
      PendingKeeps(app.(client := c), asked);
    } else {
      RemovingKeepsTexts(app.client);
      W.RemovesTheLast(app.client);
    }
  }

  lemma {:induction false} DeliverKeeps(app: W.App, from: nat, asked: seq<Question>)
    requires W.AppReady(app, from) && Kept(app.client, asked) && AllAsked(app.service, asked)
    ensures var b := W.Deliver(app, from); Kept(b.client, asked) && AllAsked(b.service, asked)
    decreases |app.service.published| - from
  {
    if from < |app.service.published| {
      W.DeliverOne(app, from);
      var value := app.service.published[from];
      ConnectionKeeps(app, value, asked);
      var next := if value == app.client.state.connection then app else W.HandleConnection(app, value);
      DeliverKeeps(next, from + 1, asked);
    }
  }

  lemma UntouchedKeeps(s: Sock.Service, t: Sock.Service, asked: seq<Question>)
    requires AllAsked(s, asked) && forall r :: Wire.Untouched(s, t, r)
    ensures AllAsked(t, asked)
  {
    forall i: nat, j: nat | Wire.At(t, i, j)
      ensures IsAsked(Wire.MessageAt(t, i, j), asked)
    {
      var m := Wire.MessageAt(t, i, j);
      if !m.Ping? {
        assert Wire.Untouched(s, t, m.request) && Wire.Mentions(m, m.request);
      }
    }
  }

  lemma BrowserKeeps(app: W.App, step: Sock.Step, asked: seq<Question>)
    requires Invariant(app, asked) && W.Allowed(app, step)
    ensures var b := W.Next(app, W.Browser(step)); Kept(b.client, asked) && AllAsked(b.service, asked)
  {
    var t := Sock.Next(app.service, step);
    Wire.BrowserStep(app.service, step);
    UntouchedKeeps(app.service, t, asked);
    W.StepPublishesChain(app.service, step);
    Sock.NextKeepsInvariant(app.service, step);
    DeliverKeeps(app.(service := t), |app.service.published|, asked);
  }

  lemma LongerKeeps(s: Sock.Service, asked: seq<Question>, q: Question)
    requires AllAsked(s, asked)
    ensures AllAsked(s, asked + [q])
  {
    forall i: nat, j: nat | Wire.At(s, i, j)
      ensures IsAsked(Wire.MessageAt(s, i, j), asked + [q])
    {
      assert IsAsked(Wire.MessageAt(s, i, j), asked);
    }
  }

  lemma SubmittedKeeps(c: W.Client, query: string, asked: seq<Question>)
    requires W.ClientInvariant(c) && Kept(c, asked) && !c.state.running
    ensures Kept(W.Submitted(c, query), asked + [Question(query, c.state.mode, c.state.conversation)])
  {
    var d := W.Submitted(c, query);
    OneMoreText(c.state.messages, d.state.messages[|c.state.messages|]);
    OneMoreQuestion(asked, Question(query, c.state.mode, c.state.conversation), c.state.conversation);
  }

  lemma SubmitKeeps(app: W.App, query: string, constructs: bool, asked: seq<Question>)
    requires Invariant(app, asked) && 1 <= |query| <= 20000 && !app.client.state.running
    ensures
      var b := W.Submit(app, query, constructs);
      var now := asked + Asks(app, W.UserSubmits(query, constructs));
      Kept(b.client, now) && AllAsked(b.service, now)
  {
    var c := W.Submitted(app.client, query);
    var now := asked + Asks(app, W.UserSubmits(query, constructs));
    SubmittedKeeps(app.client, query, asked);
    LongerKeeps(app.service, asked, now[|asked|]);
    if c.state.connection == Sock.Connected {
      PendingKeeps(app.(client := c), now);
    } else {
      var step := Sock.CallConnect(constructs);
      Wire.BrowserStep(app.service, step);
      UntouchedKeeps(app.service, Sock.Next(app.service, step), now);
      W.ConnectIsReady(app, query, constructs);
      DeliverKeeps(W.App(c, Sock.Connect(app.service, constructs)), |app.service.published|, now);
    }
  }

  lemma CancelKeeps(app: W.App, asked: seq<Question>)
    requires Invariant(app, asked)
    ensures var b := W.Next(app, W.UserCancels); Kept(b.client, asked) && AllAsked(b.service, asked)
  {
    RemovingKeepsTexts(app.client);
    W.RemovesTheLast(app.client);
    if app.client.state.running && app.client.pending.None? && Sock.CanSend(app.service) {
      SendingKeeps(app.service, Cancel(app.client.state.active.value), asked);
    }
  }

  lemma ResetKeeps(app: W.App, asked: seq<Question>)
    requires Invariant(app, asked)
    ensures var b := W.Next(app, W.UserResets); Kept(b.client, asked) && AllAsked(b.service, asked)
  {
    NoneYet(asked, app.client.conversationCounter + 1);
    if app.client.state.running && Sock.CanSend(app.service) {
      SendingKeeps(app.service, Cancel(app.client.state.active.value), asked);
    }
  }

  lemma StepKeeps(app: W.App, step: W.Step, asked: seq<Question>)
    requires Invariant(app, asked)
    ensures Invariant(W.Next(app, step), asked + Asks(app, step))
  {
    assert asked + [] == asked;
    W.NextKeepsInvariant(app, step);
    match step
    case Receives(socket, event) =>
      if app.service.current == Some(socket) && Sock.CanSend(app.service) {
        EventKeeps(app, event, asked);
      }
    case UserSubmits(query, constructs) =>
      Wire.StepEvolves(app, step);
      if 1 <= |query| <= 20000 && !app.client.state.running {
        SubmitKeeps(app, query, constructs, asked);
      }
    case UserCancels =>
      Wire.StepEvolves(app, step);
      CancelKeeps(app, asked);
    case UserResets =>
      Wire.StepEvolves(app, step);
      ResetKeeps(app, asked);
    case Browser(move) =>
      Wire.StepEvolves(app, step);
      if W.Allowed(app, move) {
        BrowserKeeps(app, move, asked);
      }
    case _ => Wire.StepEvolves(app, step);
  }

  lemma {:induction false} RunKeeps(app: W.App, steps: seq<W.Step>, asked: seq<Question>)
    requires Invariant(app, asked)
    ensures Invariant(W.Run(app, steps), asked + AsksAll(app, steps))
    decreases |steps|
  {
    if steps == [] {
      assert asked + [] == asked;
    } else {
      var now, rest := Asks(app, steps[0]), AsksAll(W.Next(app, steps[0]), steps[1..]);
      StepKeeps(app, steps[0], asked);
      RunKeeps(W.Next(app, steps[0]), steps[1..], asked + now);
      JoinAsked(asked, now, rest);
    }
  }

  lemma JoinAsked(a: seq<Question>, b: seq<Question>, c: seq<Question>)
    ensures a + b + c == a + (b + c)
  {
  }

  lemma InitialInvariant()
    ensures Invariant(W.InitialApp, [])
  {
    W.InitialAppInvariant();
    Wire.InitialInvariant();
  }

  /**
   In every run the requests of the page are the questions the user asked, one for each, in order.
   Whatever is submitted under one of them, on whichever socket, is that question: as a chat, or as an
   agent execution in the conversation it was asked in, with four hops. The user's messages on the
   transcript are the questions of the current conversation, in order.
   */
  lemma QuestionsAreAsked(steps: seq<W.Step>)
    ensures
      var app := W.Run(W.InitialApp, steps); var asked := AsksAll(W.InitialApp, steps);
      && app.client.requestCounter == |asked|
      && AllAsked(app.service, asked)
      && UserTexts(app.client.state.messages) == Of(asked, app.client.state.conversation)
  {
    InitialInvariant();
    RunKeeps(W.InitialApp, steps, []);
    assert [] + AsksAll(W.InitialApp, steps) == AsksAll(W.InitialApp, steps);
  }

  // ---------------------------------------------------------------- questions do go out

  /** Asked on a connected page, a question goes out at once, behind what was sent before. */
  lemma AskedIsSent(app: W.App, query: string, constructs: bool)
    requires W.AppInvariant(app) && Sock.CanSend(app.service) && !app.client.state.running && 1 <= |query| <= 20000
    ensures
      var s := app.client.state; var id := app.service.current.value;
      var b := W.Next(app, W.UserSubmits(query, constructs));
      && Grew(app.service, b.service, id)
      && Puts(LastOn(b.service, id), app.client.requestCounter + 1, Question(query, s.mode, s.conversation))
      && b.client.state.running && b.client.pending.None?
  {
  }

  /**
   A question that is taken shows at once as the last message, with a new request and nothing left of
   the one before.
   */
  lemma AskedIsShown(app: W.App, query: string, constructs: bool)
    requires W.AppInvariant(app) && Sock.CanSend(app.service) && !app.client.state.running && 1 <= |query| <= 20000
    ensures
      var before := app.client; var s := W.Next(app, W.UserSubmits(query, constructs)).client.state;
      && s.messages ==
           before.state.messages + [W.Message(before.messageCounter + 1, W.User, query, None, [])]
      && s.running && s.error.None? && s.active == Some(WorkspaceId(before.requestCounter + 1))
      && s.mode == before.state.mode && s.conversation == before.state.conversation
      && if s.mode == W.DirectMode then s.execution.None? && s.lastModel.None?
         else
           && s.execution.Some? && s.execution.value.request == s.active.value && s.execution.value.status == W.Running
           && s.execution.value.events == [] && s.execution.value.errors == [] && s.execution.value.sources == []
           && s.execution.value.executionId.None? && s.execution.value.route.None?
  {
  }

  /** A waiting question goes out when the connection comes up. */
  lemma WaitingIsSent(app: W.App, id: nat, asked: seq<Question>)
    requires Invariant(app, asked) && app.client.pending.Some?
    requires app.service.current == Some(id) && app.service.sockets[id].ready == Sock.CONNECTING
    ensures
      var b := W.Next(app, W.Browser(Sock.SocketOpens(id)));
      && Grew(app.service, b.service, id)
      && Puts(LastOn(b.service, id), |asked|, asked[|asked| - 1])
      && b.client.state.running && b.client.pending.None? && b.client.state.connection == Sock.Connected
  {
    var t := Sock.Next(app.service, Sock.SocketOpens(id));
    var mid := app.(service := t);
    var n := |app.service.published|;
    assert t.published == app.service.published + [Sock.Connected];
    assert W.Deliver(mid, n) == W.Deliver(W.HandleConnection(mid, Sock.Connected), n + 1);
  }

  /** A reset leaves an empty conversation, and asks the server to stop a request that had gone out. */
  lemma ResetStartsOver(app: W.App)
    requires W.AppInvariant(app)
    ensures
      var before := app.client.state; var b := W.Next(app, W.UserResets); var after := b.client.state;
      && after.messages == [] && after.execution.None? && after.error.None? && after.lastModel.None?
      && !after.running && after.active.None? && b.client.pending.None? && b.client.assistant.None?
      && after.mode == before.mode && after.connection == before.connection
      && after.conversation == app.client.conversationCounter + 1 == b.client.conversationCounter
      && if before.running && app.client.pending.None? && Sock.CanSend(app.service) then
           && Grew(app.service, b.service, app.service.current.value)
           && LastOn(b.service, app.service.current.value) == Cancel(before.active.value)
         else b.service == app.service
  {
  }

  /** One message has been added to the log of one socket. */
  predicate Grew(s: Sock.Service, t: Sock.Service, id: nat) {
    && |t.sockets| == |s.sockets| && id < |s.sockets|
    && |t.sockets[id].sent| == |s.sockets[id].sent| + 1 && s.sockets[id].sent <= t.sockets[id].sent
    && forall i :: 0 <= i < |s.sockets| && i != id ==> t.sockets[i] == s.sockets[i]
  }

  function LastOn(s: Sock.Service, id: nat): ClientMessage
    requires id < |s.sockets| && s.sockets[id].sent != []
  {
    s.sockets[id].sent[|s.sockets[id].sent| - 1]
  }
}
