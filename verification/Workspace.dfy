/**
 The workspace page: a request state machine that feeds on the socket service's connection
 states and on the server's events.

 Client is the page's state, App the page together with the socket service it talks to. Every
 call, browser step and server event is a function on App; the class at the end of the file does
 the same on its fields.
 */
module Workspace {
  import opened Options
  import opened Protocol
  import Text
  import Sock = SocketService

  const MAX_QUERY_LENGTH: nat := 20000
  const REQUESTED_HOPS: nat := 4

  const QUERY_TOO_LONG := "Query cannot exceed 20,000 characters."
  const INTERRUPTED := "The real-time connection was interrupted. Orbyntiq is reconnecting."
  const UNABLE_TO_SEND := "Unable to send the request through the real-time connection."
  const AGENT_FAILED := "Multi-agent execution failed."

  datatype Mode = AgentMode | DirectMode

  datatype Role = User | Assistant

  datatype Message = Message(id: nat, role: Role, content: string, model: Option<string>, sources: seq<string>)

  datatype Status = Running | Succeeded | Aborted | Failed

  datatype WorkflowEvent = WorkflowEvent(sequence: nat, kind: WorkflowEventType, agent: Option<string>,
      payload: Payload)

  datatype Execution = Execution(
    request: RequestId,
    executionId: Option<string>,
    status: Status,
    route: Option<Route>,
    routeReason: Option<string>,
    hopCount: Option<int>,
    events: seq<WorkflowEvent>,
    sources: seq<string>,
    errors: seq<string>)

  /** The published record; every change replaces it. */
  datatype State = State(
    mode: Mode,
    messages: seq<Message>,
    connection: Sock.ConnectionState,
    running: bool,
    error: Option<string>,
    active: Option<RequestId>,
    conversation: nat,
    lastModel: Option<string>,
    execution: Option<Execution>)

  datatype Pending = Pending(request: RequestId, query: string, mode: Mode)

  datatype Client = Client(
    state: State,
    requestCounter: nat,
    messageCounter: nat,
    conversationCounter: nat,
    pending: Option<Pending>,
    assistant: Option<nat>)

  datatype App = App(client: Client, service: Sock.Service)

  function InitialState(mode: Mode, conversation: nat): State {
    State(mode, [], Sock.Disconnected, false, None, None, conversation, None, None)
  }

  const InitialApp := App(Client(InitialState(AgentMode, 1), 0, 0, 1, None, None), Sock.Initial)

  // ---------------------------------------------------------------- the page's private helpers

  function ClearActiveRequest(c: Client): Client {
    c.(pending := None, assistant := None, state := c.state.(active := None))
  }

  function PatchStatus(c: Client, status: Status): Client {
    match c.state.execution
    case None => c
    case Some(e) => c.(state := c.state.(execution := Some(e.(status := status))))
  }

  function Without(messages: seq<Message>, id: nat): seq<Message> {
    if messages == [] then []
    else if messages[0].id == id then Without(messages[1..], id)
    else [messages[0]] + Without(messages[1..], id)
  }

  /** messages.find by id. */
  function Find(messages: seq<Message>, id: nat): Option<Message> {
    if messages == [] then None
    else if messages[0].id == id then Some(messages[0])
    else Find(messages[1..], id)
  }

  function Appended(m: Message, id: nat, content: string): Message {
    if m.id == id then m.(content := m.content + content) else m
  }

  function WithContent(messages: seq<Message>, id: nat, content: string): seq<Message> {
    seq(|messages|, i requires 0 <= i < |messages| => Appended(messages[i], id, content))
  }

  function Stamped(m: Message, id: nat, model: string): Message {
    if m.id == id then m.(model := Some(model)) else m
  }

  function WithModel(messages: seq<Message>, id: nat, model: string): seq<Message> {
    seq(|messages|, i requires 0 <= i < |messages| => Stamped(messages[i], id, model))
  }

  function RemoveEmptyAssistant(c: Client): Client {
    match c.assistant
    case None => c
    case Some(id) =>
      match Find(c.state.messages, id)
      case None => c
      case Some(m) =>
        if m.content != "" then c else c.(state := c.state.(messages := Without(c.state.messages, id)))
  }

  function AddMessage(c: Client, role: Role, content: string, model: Option<string>, sources: seq<string>): Client {
    var id := c.messageCounter + 1;
    c.(messageCounter := id,
       state := c.state.(messages := c.state.messages + [Message(id, role, content, model, sources)]))
  }

  function EnsureAssistant(c: Client, model: Option<string>): (r: Client)
    ensures r.assistant.Some?
  {
    if c.assistant.Some? then c
    else AddMessage(c, Assistant, "", model, []).(assistant := Some(c.messageCounter + 1))
  }

  function Stop(c: Client, error: Option<string>): Client {
    var c := ClearActiveRequest(c);
    c.(state := c.state.(running := false, error := error))
  }

  function FinishCancelled(c: Client): Client {
    Stop(PatchStatus(RemoveEmptyAssistant(c), Aborted), c.state.error)
  }

  // ---------------------------------------------------------------- calls by the user

  function WireMessage(p: Pending, conversation: nat): ClientMessage {
    if p.mode == AgentMode then AgentExecute(p.request, p.query, conversation, REQUESTED_HOPS)
    else Chat(p.request, p.query)
  }

  function SendPending(app: App): (r: App)
    ensures r.service.published == app.service.published
  {
    var c := app.client;
    if c.pending.None? || c.state.connection != Sock.Connected then app
    else
      var p := c.pending.value;
      if Sock.CanSend(app.service) then
        App(c.(pending := None), Sock.Send(app.service, WireMessage(p, c.state.conversation)))
      else
        app.(client := Stop(PatchStatus(c.(pending := None), Failed), Some(UNABLE_TO_SEND)))
  }

  function HandleConnection(app: App, value: Sock.ConnectionState): (r: App)
    ensures r.service.published == app.service.published
  {
    var previous := app.client.state.connection;
    var c := app.client.(state := app.client.state.(connection := value));
    if value == Sock.Connected then SendPending(app.(client := c))
    else if value == Sock.Disconnected && previous == Sock.Connected && c.state.running && c.pending.None? then
      app.(client := Stop(PatchStatus(RemoveEmptyAssistant(c), Failed), Some(INTERRUPTED)))
    else app.(client := c)
  }

  /** Hands the page the connection states published from index `from` on, skipping repeats. */
  function Deliver(app: App, from: nat): App
    decreases |app.service.published| - from
  {
    if from >= |app.service.published| then app
    else
      var value := app.service.published[from];
      var next := if value == app.client.state.connection then app else HandleConnection(app, value);
      Deliver(next, from + 1)
  }

  function NewExecution(request: RequestId): Execution {
    Execution(request, None, Running, None, None, None, [], [], [])
  }

  function Submitted(c: Client, query: string): Client {
    var id := WorkspaceId(c.requestCounter + 1);
    var mode := c.state.mode;
    var c := AddMessage(c, User, query, None, []);
    c.(requestCounter := c.requestCounter + 1,
       pending := Some(Pending(id, query, mode)),
       assistant := None,
       state := c.state.(
         running := true,
         error := None,
         active := Some(id),
         lastModel := if mode == DirectMode then None else c.state.lastModel,
         execution := if mode == AgentMode then Some(NewExecution(id)) else None))
  }

  /** query is the text after trimming. */
  function Submit(app: App, query: string, constructs: bool): App {
    var c := app.client;
    if query == "" || c.state.running then app
    else if |query| > MAX_QUERY_LENGTH then
      app.(client := c.(state := c.state.(error := Some(QUERY_TOO_LONG))))
    else
      var c := Submitted(c, query);
      if c.state.connection == Sock.Connected then SendPending(app.(client := c))
      else Deliver(App(c, Sock.Connect(app.service, constructs)), |app.service.published|)
  }

  /** The boolean tells whether the socket service raised: nothing is caught here. */
  function CancelRequest(app: App): (App, bool) {
    var c := app.client;
    if !c.state.running || c.state.active.None? then (app, false)
    else if c.pending.Some? then (app.(client := FinishCancelled(c.(pending := None))), false)
    else if c.state.connection != Sock.Connected then (app, false)
    else if Sock.CanSend(app.service) then
      (app.(service := Sock.Send(app.service, Cancel(c.state.active.value))), false)
    else (app, true)
  }

  function ResetConversation(app: App): App {
    var c := app.client;
    var s :=
      if c.state.running && c.state.active.Some? && c.pending.None? && c.state.connection == Sock.Connected &&
         Sock.CanSend(app.service)
      then Sock.Send(app.service, Cancel(c.state.active.value))
      else app.service;
    var n := c.conversationCounter + 1;
    App(Client(InitialState(c.state.mode, n).(connection := c.state.connection),
               c.requestCounter, c.messageCounter, n, None, None),
        s)
  }

  function SetMode(app: App, mode: Mode): App {
    var c := app.client;
    if mode == c.state.mode || c.state.running then app
    else app.(client := c.(state := c.state.(mode := mode, error := None, execution := None)))
  }

  // ---------------------------------------------------------------- events of the server

  function DirectStarted(c: Client, model: string): Client {
    if c.state.mode != DirectMode then c
    else
      var c := EnsureAssistant(c, Some(model));
      c.(state := c.state.(lastModel := Some(model)))
  }

  function DirectChunk(c: Client, content: string): Client {
    if c.state.mode != DirectMode || content == "" then c
    else
      var c := EnsureAssistant(c, None);
      c.(state := c.state.(messages := WithContent(c.state.messages, c.assistant.value, content)))
  }

  function DirectCompleted(c: Client, model: string): Client {
    if c.state.mode != DirectMode then c
    else
      var messages :=
        if c.assistant.None? then c.state.messages
        else WithModel(c.state.messages, c.assistant.value, model);
      var c := Stop(c, None);
      c.(state := c.state.(messages := messages, lastModel := Some(model)))
  }

  function MergeAgentResult(e: Execution, p: Payload): Execution {
    e.(errors := if p.error.Some? && p.error.value !in e.errors then e.errors + [p.error.value] else e.errors,
       sources := e.sources + p.sources)
  }

  function CompleteAgentExecution(c: Client, e: Execution, p: Payload): Client {
    var e := e.(status := Succeeded,
                route := if p.route.Some? then p.route else e.route,
                hopCount := p.hopCount,
                sources := p.sources,
                errors := p.errors);
    var c := if p.finalResponse.Some? && p.finalResponse.value != ""
             then AddMessage(c, Assistant, p.finalResponse.value, None, e.sources)
             else c;
    var c := Stop(c, if e.errors != [] then Some(Text.Join(e.errors, ' ')) else None);
    c.(state := c.state.(execution := Some(e)))
  }

  function HandleAgentEvent(c: Client, event: ServerEvent): Client
    requires event.AgentEvent?
  {
    if c.state.mode != AgentMode || c.state.execution.None? then c
    else
      var p := event.payload;
      var e := c.state.execution.value;
      var e := e.(executionId := if event.execution != "" then Some(event.execution) else e.executionId,
                  events := e.events + [WorkflowEvent(event.sequence, event.kind, event.agent, p)]);
      match event.kind
      case ExecutionStarted => c.(state := c.state.(execution := Some(e.(status := Running))))
      case RoutingCompleted =>
        c.(state := c.state.(execution := Some(e.(route := p.route, routeReason := p.routeReason))))
      case AgentStarted => c.(state := c.state.(execution := Some(e)))
      case AgentResult => c.(state := c.state.(execution := Some(MergeAgentResult(e, p))))
      case ExecutionCompleted => CompleteAgentExecution(c, e, p)
      case ExecutionFailed =>
        var errors := if p.error.Some? then e.errors + [p.error.value] else e.errors;
        var c := Stop(c, Some(if errors != [] then errors[|errors| - 1] else AGENT_FAILED));
        c.(state := c.state.(execution := Some(e.(status := Failed, errors := errors))))
  }

  function HandleServerEvent(c: Client, event: ServerEvent): Client {
    if event.Pong? || Some(event.request) != c.state.active then c
    else
      match event
      case Started(_, model) => DirectStarted(c, model)
      case Chunk(_, content) => DirectChunk(c, content)
      case Completed(_, model) => DirectCompleted(c, model)
      case AgentEvent(_, _, _, _, _, _) => HandleAgentEvent(c, event)
      case Cancelled(_) => FinishCancelled(c)
      case Error(_, message) => Stop(PatchStatus(RemoveEmptyAssistant(c), Failed), Some(message))
      case Pong => c
  }

  // ---------------------------------------------------------------- runs

  /**
   What can happen to the page and its socket service. A page calls the service's connect only
   while it is not connected, and another page may share the service; a message reaches the page
   only through the current, open socket.
   */
  datatype Step =
    | UserSubmits(query: string, constructs: bool)
    | UserCancels
    | UserResets
    | UserSetsMode(mode: Mode)
    | UserClearsError
    | Browser(step: Sock.Step)
    | Receives(socket: nat, event: ServerEvent)

  predicate Allowed(app: App, step: Sock.Step) {
    step.CallConnect? ==> app.service.connection != Sock.Connected
  }

  function Next(app: App, step: Step): App {
    match step
    case UserSubmits(query, constructs) => Submit(app, query, constructs)
    case UserCancels => CancelRequest(app).0
    case UserResets => ResetConversation(app)
    case UserSetsMode(mode) => SetMode(app, mode)
    case UserClearsError => app.(client := app.client.(state := app.client.state.(error := None)))
    case Browser(step) =>
      if !Allowed(app, step) then app
      else Deliver(app.(service := Sock.Next(app.service, step)), |app.service.published|)
    case Receives(socket, event) =>
      if app.service.current == Some(socket) && Sock.CanSend(app.service)
      then app.(client := HandleServerEvent(app.client, event))
      else app
  }

  function Run(app: App, steps: seq<Step>): App
    decreases |steps|
  {
    if steps == [] then app else Run(Next(app, steps[0]), steps[1..])
  }

  // ---------------------------------------------------------------- the transcript

  ghost predicate Ordered(messages: seq<Message>, counter: nat) {
    && (forall i, j :: 0 <= i < j < |messages| ==> messages[i].id < messages[j].id)
    && (forall m <- messages :: m.id <= counter)
  }

  lemma {:induction false} FindLast(messages: seq<Message>, counter: nat)
    requires Ordered(messages, counter) && messages != []
    ensures var last := messages[|messages| - 1];
            && Find(messages, last.id) == Some(last)
            && Without(messages, last.id) == messages[..|messages| - 1]
  {
    var last := messages[|messages| - 1];
    if |messages| > 1 {
      FindLast(messages[1..], counter);
      assert messages[1..][..|messages| - 2] == messages[..|messages| - 1][1..];
    }
  }

  lemma UpdateLast(messages: seq<Message>, counter: nat, content: string, model: string)
    requires Ordered(messages, counter) && messages != []
    ensures var n := |messages| - 1; var last := messages[n];
            && WithContent(messages, last.id, content) == messages[..n] + [last.(content := last.content + content)]
            && WithModel(messages, last.id, model) == messages[..n] + [last.(model := Some(model))]
  {
  }

  // ---------------------------------------------------------------- the invariant

  ghost predicate Terminal(status: Status) {
    status != Running
  }

  ghost predicate ClientInvariant(c: Client) {
    var s := c.state;
    && (s.running <==> s.active.Some?)
    && (s.active.Some? ==> s.active.value == WorkspaceId(c.requestCounter))
    && (c.pending.Some? ==> s.active == Some(c.pending.value.request) && c.pending.value.mode == s.mode)
    && (s.running ==> (c.pending.None? <==> s.connection == Sock.Connected))
    && (s.mode == DirectMode ==> s.execution.None?)
    && (s.mode == AgentMode && s.running ==> s.execution.Some?)
    && (s.execution.Some? ==> (s.running <==> !Terminal(s.execution.value.status)))
    && (s.execution.Some? && s.running ==> Some(s.execution.value.request) == s.active)
    && Ordered(s.messages, c.messageCounter)
    && (c.assistant.Some? ==>
          && s.running && s.mode == DirectMode && c.pending.None?
          && s.messages != [] && s.messages[|s.messages| - 1].id == c.assistant.value
          && s.messages[|s.messages| - 1].role == Assistant)
  }

  ghost predicate AppInvariant(app: App) {
    && Sock.Invariant(app.service)
    && ClientInvariant(app.client)
    && app.client.state.connection == app.service.connection
  }

  lemma RemovesTheLast(c: Client)
    requires ClientInvariant(c)
    ensures RemoveEmptyAssistant(c).state.messages ==
              if c.assistant.Some? && c.state.messages[|c.state.messages| - 1].content == ""
              then c.state.messages[..|c.state.messages| - 1]
              else c.state.messages
    ensures RemoveEmptyAssistant(c) ==
              c.(state := c.state.(messages := RemoveEmptyAssistant(c).state.messages))
    ensures Ordered(RemoveEmptyAssistant(c).state.messages, c.messageCounter)
  {
    if c.assistant.Some? {
      FindLast(c.state.messages, c.messageCounter);
    }
  }

  /** The transcript without the answer still being written. */
  function Settled(c: Client): seq<Message> {
    if c.assistant.Some? && c.state.messages != [] then c.state.messages[..|c.state.messages| - 1] else c.state.messages
  }

  /** The text of the answer still being written. */
  function Draft(c: Client): string {
    if c.assistant.Some? && c.state.messages != [] then c.state.messages[|c.state.messages| - 1].content else ""
  }

  /** d is c with text written at the end of its draft, and nothing else about the request or the transcript changed. */
  ghost predicate Writes(c: Client, d: Client, text: string) {
    && ClientInvariant(d)
    && Settled(d) == Settled(c) && Draft(d) == Draft(c) + text
    && d.state.active == c.state.active && d.state.mode == c.state.mode && d.pending == c.pending
    && d.state.connection == c.state.connection
    && (c.assistant.Some? ==> d.assistant == c.assistant && d.messageCounter == c.messageCounter)
    && (c.assistant.None? && d.assistant.Some? ==> d.assistant.value == d.messageCounter == c.messageCounter + 1)
    && (d.assistant.None? ==> d.messageCounter == c.messageCounter)
  }

  /** Apart from the draft, d has no message that c did not have. */
  lemma WritesOnlyDraft(c: Client, d: Client, text: string, m: Message)
    requires Writes(c, d, text) && m in d.state.messages && d.assistant != Some(m.id)
    ensures m in c.state.messages
  {
    assert m in Settled(d);
  }

  lemma EnsureWrites(c: Client, model: Option<string>)
    requires ClientInvariant(c) && c.state.mode == DirectMode && c.state.running && c.pending.None?
    ensures Writes(c, EnsureAssistant(c, model), "")
  {
    assert Draft(c) + "" == Draft(c);
  }

  lemma StartedWrites(c: Client, model: string)
    requires ClientInvariant(c) && c.state.mode == DirectMode && c.state.running && c.pending.None?
    ensures Writes(c, DirectStarted(c, model), "") && DirectStarted(c, model).assistant.Some?
  {
    EnsureWrites(c, Some(model));
  }

  lemma AppendWrites(c: Client, text: string)
    requires ClientInvariant(c) && c.assistant.Some?
    ensures Writes(c, c.(state := c.state.(messages := WithContent(c.state.messages, c.assistant.value, text))), text)
  {
    UpdateLast(c.state.messages, c.messageCounter, text, "");
    var n := |c.state.messages| - 1;
    var last := c.state.messages[n];
    LastWrites(c, last.(content := last.content + text), text);
  }

  lemma LastKeepsOrder(messages: seq<Message>, counter: nat, m: Message)
    requires Ordered(messages, counter) && messages != [] && m.id == messages[|messages| - 1].id
    ensures Ordered(messages[..|messages| - 1] + [m], counter)
  {
    assert messages[|messages| - 1] in messages;
  }

  lemma LastWrites(c: Client, m: Message, text: string)
    requires ClientInvariant(c) && c.assistant.Some?
    requires var last := c.state.messages[|c.state.messages| - 1]; m == last.(content := last.content + text)
    ensures
      var messages := c.state.messages[..|c.state.messages| - 1] + [m];
      Writes(c, c.(state := c.state.(messages := messages)), text)
  {
    var init := c.state.messages[..|c.state.messages| - 1];
    var messages := init + [m];
    var d := c.(state := c.state.(messages := messages));
    LastKeepsOrder(c.state.messages, c.messageCounter, m);
    assert messages[..|messages| - 1] == init && messages[|messages| - 1] == m;
    assert ClientInvariant(d);
  }

  lemma ChunkWrites(c: Client, content: string)
    requires ClientInvariant(c) && c.state.mode == DirectMode && c.state.running && c.pending.None?
    ensures Writes(c, DirectChunk(c, content), content)
    ensures content != "" ==> DirectChunk(c, content).assistant.Some?
  {
    if content == "" {
      assert Draft(c) + "" == Draft(c);
    } else {
      var e := EnsureAssistant(c, None);
      EnsureWrites(c, None);
      assert Draft(c) + "" == Draft(c);
      AppendWrites(e, content);
    }
  }

  lemma CompletedKeeps(c: Client, model: string)
    requires ClientInvariant(c)
    ensures c.state.running && c.state.mode == DirectMode ==> ClientInvariant(DirectCompleted(c, model))
    ensures Settled(c) <= Settled(DirectCompleted(c, model))
  {
    if c.assistant.Some? {
      UpdateLast(c.state.messages, c.messageCounter, "", model);
    }
  }

  lemma AgentEventKeepsInvariant(c: Client, event: ServerEvent)
    requires ClientInvariant(c) && c.state.connection == Sock.Connected && c.state.running
    requires event.AgentEvent?
    ensures ClientInvariant(HandleAgentEvent(c, event))
  {
  }

  lemma ServerEventKeepsInvariant(c: Client, event: ServerEvent)
    requires ClientInvariant(c) && c.state.connection == Sock.Connected
    ensures ClientInvariant(HandleServerEvent(c, event))
    ensures HandleServerEvent(c, event).state.connection == c.state.connection
  {
    if !event.Pong? && Some(event.request) == c.state.active {
      match event
      case Started(_, model) =>
        if c.state.mode == DirectMode {
          StartedWrites(c, model);
        }
      case Chunk(_, content) =>
        if c.state.mode == DirectMode {
          ChunkWrites(c, content);
        }
      case Completed(_, model) => CompletedKeeps(c, model);
      case AgentEvent(_, _, _, _, _, _) => AgentEventKeepsInvariant(c, event);
      case _ => RemovesTheLast(c);
    }
  }

  lemma ConnectionKeepsInvariant(app: App, value: Sock.ConnectionState)
    requires ClientInvariant(app.client) && value != app.client.state.connection
    requires !(app.client.state.connection == Sock.Connected && value == Sock.Connecting)
    requires Sock.Invariant(app.service)
    ensures var r := HandleConnection(app, value);
            && ClientInvariant(r.client) && Sock.Invariant(r.service)
            && r.client.state.connection == value && r.service.connection == app.service.connection
  {
    RemovesTheLast(app.client);
  }

  /** Connected is never followed directly by Connecting. */
  ghost predicate Chain(previous: Sock.ConnectionState, values: seq<Sock.ConnectionState>)
    decreases |values|
  {
    values == [] ||
    (!(previous == Sock.Connected && values[0] == Sock.Connecting) && Chain(values[0], values[1..]))
  }

  ghost predicate Ends(previous: Sock.ConnectionState, values: seq<Sock.ConnectionState>, last: Sock.ConnectionState) {
    last == if values == [] then previous else values[|values| - 1]
  }

  lemma {:induction false} DeliverKeepsService(app: App, from: nat)
    requires from <= |app.service.published|
    ensures var t := Deliver(app, from).service;
            t.current == app.service.current && t.connection == app.service.connection &&
              |t.sockets| == |app.service.sockets|
    decreases |app.service.published| - from
  {
    if from < |app.service.published| {
      var value := app.service.published[from];
      DeliverKeepsService(if value == app.client.state.connection then app else HandleConnection(app, value), from + 1);
    }
  }

  lemma ShortChain(previous: Sock.ConnectionState, values: seq<Sock.ConnectionState>)
    requires values != [] ==> !(previous == Sock.Connected && values[0] == Sock.Connecting)
    requires |values| > 1 ==> Sock.Connected !in values
    ensures Chain(previous, values)
    decreases |values|
  {
    if values != [] {
      ShortChain(values[0], values[1..]);
    }
  }

  lemma OpenSocketPublishes(s: Sock.Service, constructs: bool)
    requires Sock.Invariant(s) && s.connection != Sock.Connected
    ensures var t := Sock.OpenSocket(s, constructs); var news := t.published[|s.published|..];
            && s.published <= t.published
            && Chain(s.connection, news) && Ends(s.connection, news, t.connection)
  {
    var t := Sock.OpenSocket(s, constructs);
    var news := t.published[|s.published|..];
    assert news == [] || news == [Sock.Connecting] || news == [Sock.Connecting, Sock.Disconnected]
        || news == [Sock.Connecting, Sock.Disconnected, Sock.Connecting];
    ShortChain(s.connection, news);
  }

  /** The states still to be delivered form a chain that ends in the service's own state. */
  ghost predicate AppReady(app: App, from: nat) {
    && ClientInvariant(app.client) && Sock.Invariant(app.service) && from <= |app.service.published|
    && Chain(app.client.state.connection, app.service.published[from..])
    && Ends(app.client.state.connection, app.service.published[from..], app.service.connection)
  }

  lemma DeliverOne(app: App, from: nat)
    requires AppReady(app, from) && from < |app.service.published|
    ensures var value := app.service.published[from];
            var next := if value == app.client.state.connection then app else HandleConnection(app, value);
            AppReady(next, from + 1) && Deliver(app, from) == Deliver(next, from + 1)
  {
    var rest, value := app.service.published[from..], app.service.published[from];
    assert rest[1..] == app.service.published[from + 1..] && rest[0] == value;
    if value != app.client.state.connection {
      ConnectionKeepsInvariant(app, value);
    }
  }

  lemma {:induction false} DeliverKeepsInvariant(app: App, from: nat)
    requires AppReady(app, from)
    ensures AppInvariant(Deliver(app, from))
    decreases |app.service.published| - from
  {
    if from < |app.service.published| {
      DeliverOne(app, from);
      var value := app.service.published[from];
      var next := if value == app.client.state.connection then app else HandleConnection(app, value);
      DeliverKeepsInvariant(next, from + 1);
    }
  }

  /** What one browser step publishes keeps to the chain and ends in the service's state. */
  lemma StepPublishesChain(s: Sock.Service, step: Sock.Step)
    requires Sock.Invariant(s)
    requires step.CallConnect? ==> s.connection != Sock.Connected
    ensures var t := Sock.Next(s, step); var news := t.published[|s.published|..];
            && s.published <= t.published
            && Chain(s.connection, news) && Ends(s.connection, news, t.connection)
  {
    match step
    case CallConnect(constructs) => OpenSocketPublishes(s.(deliberate := false, reconnect := false), constructs);
    case ReconnectFires(constructs) =>
      if s.reconnect {
        OpenSocketPublishes(s.(reconnect := false), constructs);
      }
    case _ =>
      var news := Sock.Next(s, step).published[|s.published|..];
      CallbacksPublish(s, step);
      ShortChain(s.connection, news);
  }

  /** connect is called on a connection whose socket is closing; both pages ask for the connection first. */
  predicate ConnectsWhileClosing(s: Sock.Service, step: Sock.Step) {
    step.CallConnect? && s.connection == Sock.Connected && !Sock.CurrentIs(s, {Sock.CONNECTING, Sock.OPEN})
  }

  /**
   What one step publishes ends in the service's state, and connecting comes directly after connected
   exactly when the step connects while the socket is closing.
   */
  lemma PublicationsChain(s: Sock.Service, step: Sock.Step)
    requires Sock.Invariant(s)
    ensures var t := Sock.Next(s, step); var news := t.published[|s.published|..];
            && s.published <= t.published && Ends(s.connection, news, t.connection)
            && (Chain(s.connection, news) <==> !ConnectsWhileClosing(s, step))
  {
    if step.CallConnect? && s.connection == Sock.Connected {
      var t := Sock.Next(s, step);
      var news := t.published[|s.published|..];
      if ConnectsWhileClosing(s, step) {
        assert news[0] == Sock.Connecting;
      } else {
        assert news == [];
      }
    } else {
      StepPublishesChain(s, step);
    }
  }

  /** A run of the service that does so. */
  lemma ConnectingAfterConnected()
    ensures
      var s := Sock.Run(Sock.Initial, [Sock.CallConnect(true), Sock.SocketOpens(0), Sock.SocketStartsClosing(0)]);
      && ConnectsWhileClosing(s, Sock.CallConnect(true))
      && Sock.Next(s, Sock.CallConnect(true)).published == s.published + [Sock.Connecting]
  {
    var steps := [Sock.CallConnect(true), Sock.SocketOpens(0), Sock.SocketStartsClosing(0)];
    var s1 := Sock.Next(Sock.Initial, steps[0]);
    var s2 := Sock.Next(s1, steps[1]);
    assert steps[1..][1..] == [Sock.SocketStartsClosing(0)] && steps[1..][1..][1..] == [];
    assert Sock.Run(Sock.Initial, steps) == Sock.Run(s1, steps[1..]) == Sock.Run(s2, steps[1..][1..]);
  }

  lemma CallbacksPublish(s: Sock.Service, step: Sock.Step)
    requires Sock.Invariant(s) && !step.CallConnect? && !step.ReconnectFires?
    ensures var t := Sock.Next(s, step); var news := t.published[|s.published|..];
            && s.published <= t.published
            && Ends(s.connection, news, t.connection)
            && (news != [] ==> news[0] != Sock.Connecting)
            && (|news| > 1 ==> Sock.Connected !in news)
  {
    var t := Sock.Next(s, step);
    match step
    case SocketCloses(id) =>
      if id < |s.sockets| {
        ClosePublishes(Sock.SetReady(s, id, Sock.CLOSED), id);
      }
    case CallDisconnect => OnePublished(s, t, Sock.Disconnected);
    case SocketOpens(id) =>
      if t.published != s.published {
        OnePublished(s, t, Sock.Connected);
      }
    case _ =>
  }

  lemma OnePublished(s: Sock.Service, t: Sock.Service, value: Sock.ConnectionState)
    requires t.published == s.published + [value] && t.connection == value
    ensures
      var news := t.published[|s.published|..];
      s.published <= t.published && news == [value] && Ends(s.connection, news, t.connection)
  {
  }

  lemma ClosePublishes(s: Sock.Service, id: nat)
    ensures var t := Sock.OnClose(s, id); var news := t.published[|s.published|..];
            && s.published <= t.published && Ends(s.connection, news, t.connection)
            && (news == [] || news == [Sock.Disconnected] || news == [Sock.Disconnected, Sock.Connecting])
  {
  }

  lemma SubmitKeepsInvariant(app: App, query: string, constructs: bool)
    requires AppInvariant(app)
    ensures AppInvariant(Submit(app, query, constructs))
  {
    if query != "" && !app.client.state.running && |query| <= MAX_QUERY_LENGTH &&
       app.service.connection != Sock.Connected
    {
      ConnectIsReady(app, query, constructs);
      DeliverKeepsInvariant(App(Submitted(app.client, query), Sock.Connect(app.service, constructs)),
        |app.service.published|);
    }
  }

  lemma ConnectIsReady(app: App, query: string, constructs: bool)
    requires AppInvariant(app) && !app.client.state.running && app.service.connection != Sock.Connected
    ensures AppReady(App(Submitted(app.client, query), Sock.Connect(app.service, constructs)), |app.service.published|)
  {
    StepPublishesChain(app.service, Sock.CallConnect(constructs));
    Sock.NextKeepsInvariant(app.service, Sock.CallConnect(constructs));
    assert Sock.Next(app.service, Sock.CallConnect(constructs)) == Sock.Connect(app.service, constructs);
  }

  lemma BrowserKeepsInvariant(app: App, step: Sock.Step)
    requires AppInvariant(app)
    ensures AppInvariant(Next(app, Browser(step)))
  {
    if Allowed(app, step) {
      StepPublishesChain(app.service, step);
      Sock.NextKeepsInvariant(app.service, step);
      DeliverKeepsInvariant(app.(service := Sock.Next(app.service, step)), |app.service.published|);
    }
  }

  lemma NextKeepsInvariant(app: App, step: Step)
    requires AppInvariant(app)
    ensures AppInvariant(Next(app, step))
  {
    match step
    case UserSubmits(query, constructs) => SubmitKeepsInvariant(app, query, constructs);
    case UserCancels => RemovesTheLast(app.client);
    case UserResets =>
    case UserSetsMode(_) =>
    case UserClearsError =>
    case Browser(step) => BrowserKeepsInvariant(app, step);
    case Receives(_, event) =>
      if Sock.CanSend(app.service) {
        ServerEventKeepsInvariant(app.client, event);
      }
  }

  lemma {:induction false} RunKeepsInvariant(app: App, steps: seq<Step>)
    requires AppInvariant(app)
    ensures AppInvariant(Run(app, steps))
    decreases |steps|
  {
    if steps != [] {
      NextKeepsInvariant(app, steps[0]);
      RunKeepsInvariant(Next(app, steps[0]), steps[1..]);
    }
  }

  lemma InitialAppInvariant()
    ensures AppInvariant(InitialApp)
  {
  }

  /**
   Every reachable state of the page: running means a request is active, a waiting request is the
   active one, a request that is running and no longer waiting has a connection, and an execution
   that is not running has come to an end.
   */
  lemma ReachableApp(steps: seq<Step>)
    ensures var app := Run(InitialApp, steps); var c := app.client; var s := c.state;
            && (s.running <==> s.active.Some?)
            && (c.pending.Some? ==> s.active == Some(c.pending.value.request))
            && (s.running && c.pending.None? ==>
                  s.connection == Sock.Connected && app.service.current.Some?)
            && (s.execution.Some? && !s.running ==> Terminal(s.execution.value.status))
            && s.connection == app.service.connection
  {
    InitialAppInvariant();
    RunKeepsInvariant(InitialApp, steps);
  }

  /** cancel never falls through its connection guard: a running request is finished on the spot
      when it is still waiting; otherwise the cancellation goes out, unless the socket is closing. */
  lemma CancelAlwaysActs(steps: seq<Step>)
    ensures var app := Run(InitialApp, steps); var (next, raised) := CancelRequest(app);
            app.client.state.running ==>
              if app.client.pending.Some? then !next.client.state.running && !raised
              else if raised then next == app && Sock.CurrentIs(app.service, {Sock.CLOSING})
              else
                && app.client.state.active.Some?
                && Sock.CanSend(app.service)
                && next == app.(service := Sock.Send(app.service, Cancel(app.client.state.active.value)))
  {
    InitialAppInvariant();
    RunKeepsInvariant(InitialApp, steps);
  }

  // ---------------------------------------------------------------- the life of one request

  predicate Ended(app: App, r: RequestId) {
    r.WorkspaceId? && 1 <= r.number <= app.client.requestCounter && app.client.state.active != Some(r)
  }

  /** A step that ends a request leaves no request active, and the request's execution, unless the
      conversation was thrown away, has a final status. */
  lemma EndIsTerminal(app: App, step: Step, r: RequestId)
    requires AppInvariant(app) && app.client.state.active == Some(r) && Next(app, step).client.state.active != Some(r)
    ensures var s := Next(app, step).client.state;
            && !s.running && s.active.None?
            && (s.execution.Some? ==> Terminal(s.execution.value.status))
            && (app.client.state.mode == AgentMode && !step.UserResets? ==>
                 s.execution.Some? && s.execution.value.request == r)
  {
    NextKeepsInvariant(app, step);
    StepKeepsExecution(app, step);
  }

  lemma {:induction false} DeliverKeepsExecution(app: App, from: nat)
    requires from <= |app.service.published|
    ensures var c, d := app.client, Deliver(app, from).client;
            && d.requestCounter == c.requestCounter
            && (d.state.active == c.state.active || d.state.active.None?)
            && (c.state.execution.Some? ==>
                 d.state.execution.Some? && d.state.execution.value.request == c.state.execution.value.request)
    decreases |app.service.published| - from
  {
    if from < |app.service.published| {
      var value := app.service.published[from];
      var next := if value == app.client.state.connection then app else HandleConnection(app, value);
      DeliverKeepsExecution(next, from + 1);
    }
  }

  /** While a request runs, a step other than a reset keeps its execution record, or ends it. */
  lemma StepKeepsExecution(app: App, step: Step)
    requires AppInvariant(app) && app.client.state.running
    ensures var c, d := app.client, Next(app, step).client;
            && d.requestCounter == c.requestCounter
            && (d.state.active == c.state.active || d.state.active.None?)
            && (c.state.execution.Some? && !step.UserResets? ==>
                  d.state.execution.Some? && d.state.execution.value.request == c.state.execution.value.request)
  {
    if step.Browser? && Allowed(app, step.step) {
      StepPublishesChain(app.service, step.step);
      DeliverKeepsExecution(app.(service := Sock.Next(app.service, step.step)), |app.service.published|);
    }
  }

  lemma IdleStep(app: App, step: Step)
    requires AppInvariant(app) && !app.client.state.running
    ensures var c, d := app.client, Next(app, step).client;
            && c.requestCounter <= d.requestCounter
            && (d.state.active.Some? ==> d.requestCounter == c.requestCounter + 1)
            && (d.state.active.None? ==> d.requestCounter <= c.requestCounter + 1)
  {
    if step.Browser? && Allowed(app, step.step) {
      StepPublishesChain(app.service, step.step);
      DeliverKeepsExecution(app.(service := Sock.Next(app.service, step.step)), |app.service.published|);
    } else if step.UserSubmits? && step.query != "" && |step.query| <= MAX_QUERY_LENGTH &&
              app.service.connection != Sock.Connected {
      StepPublishesChain(app.service, Sock.CallConnect(step.constructs));
      DeliverKeepsExecution(App(Submitted(app.client, step.query), Sock.Connect(app.service, step.constructs)),
                            |app.service.published|);
    }
    NextKeepsInvariant(app, step);
  }

  lemma EndedStays(app: App, step: Step, r: RequestId)
    requires AppInvariant(app) && Ended(app, r)
    ensures Ended(Next(app, step), r)
  {
    NextKeepsInvariant(app, step);
    if app.client.state.running {
      StepKeepsExecution(app, step);
    } else {
      IdleStep(app, step);
    }
  }

  /** How many times request r comes to an end in a run. */
  function Endings(app: App, steps: seq<Step>, r: RequestId): nat
    decreases |steps|
  {
    if steps == [] then 0
    else
      var next := Next(app, steps[0]);
      (if !Ended(app, r) && Ended(next, r) then 1 else 0) + Endings(next, steps[1..], r)
  }

  lemma {:induction false} EndingsCount(app: App, steps: seq<Step>, r: RequestId)
    requires AppInvariant(app)
    ensures Endings(app, steps, r) + (if Ended(app, r) then 1 else 0) == if Ended(Run(app, steps), r) then 1 else 0
    decreases |steps|
  {
    if steps != [] {
      var next := Next(app, steps[0]);
      NextKeepsInvariant(app, steps[0]);
      if Ended(app, r) {
        EndedStays(app, steps[0], r);
      }
      EndingsCount(next, steps[1..], r);
    }
  }

  /** In every run each request the page ever issued is still active or has ended exactly once. */
  lemma RequestsEndOnce(steps: seq<Step>, n: nat)
    requires 1 <= n <= Run(InitialApp, steps).client.requestCounter
    ensures Endings(InitialApp, steps, WorkspaceId(n)) ==
              if Run(InitialApp, steps).client.state.active == Some(WorkspaceId(n)) then 0 else 1
  {
    InitialAppInvariant();
    EndingsCount(InitialApp, steps, WorkspaceId(n));
  }

  /** After a request has ended, nothing the server says about it changes the page, however the run goes on. */
  lemma {:induction false} LateEventsChangeNothing(app: App, steps: seq<Step>, socket: nat, event: ServerEvent)
    requires AppInvariant(app) && !event.Pong? && Ended(app, event.request)
    ensures Next(Run(app, steps), Receives(socket, event)) == Run(app, steps)
    decreases |steps|
  {
    if steps != [] {
      NextKeepsInvariant(app, steps[0]);
      EndedStays(app, steps[0], event.request);
      LateEventsChangeNothing(Next(app, steps[0]), steps[1..], socket, event);
    }
  }

  /** The first end of a request decides: the second, failure or acknowledgement, changes nothing. */
  lemma FirstEndDecides(c: Client, failed: ServerEvent)
    requires ClientInvariant(c) && c.state.running && c.state.mode == AgentMode
    requires failed.AgentEvent? && failed.kind.ExecutionFailed? && Some(failed.request) == c.state.active
    ensures
      var d := HandleServerEvent(c, failed);
      && HandleServerEvent(d, Cancelled(failed.request)) == d
      && d.state.execution.Some? && d.state.execution.value.status == Failed
    ensures
      var d := HandleServerEvent(c, Cancelled(failed.request));
      && HandleServerEvent(d, failed) == d
      && d.state.execution.Some? && d.state.execution.value.status == Aborted
      && d.state.execution.value.request == failed.request
      && d.state.execution.value.events == c.state.execution.value.events
  {
    RemovesTheLast(c);
    assert HandleServerEvent(c, failed) == HandleAgentEvent(c, failed);
  }

  // ---------------------------------------------------------------- what the user is told at the end

  /** The text shown when an event ends the active request; a cancellation shows none of its own. */
  lemma EndsTellTheUser(app: App, socket: nat, event: ServerEvent)
    requires AppInvariant(app) && app.service.current == Some(socket) && Sock.CanSend(app.service)
    requires !event.Pong? && app.client.state.active == Some(event.request)
    ensures
      var before, after := app.client.state, Next(app, Receives(socket, event)).client.state;
      && (event.Error? ==> !after.running && after.error == Some(event.message))
      && (event.Cancelled? ==> !after.running && after.error == before.error)
      && (event.Completed? && before.mode == DirectMode ==>
            !after.running && after.error.None? && after.lastModel == Some(event.model))
      && (event.AgentEvent? && before.mode == AgentMode && event.kind.ExecutionCompleted? ==>
            && !after.running
            && after.error == if event.payload.errors == [] then None else Some(Text.Join(event.payload.errors, ' ')))
      && (event.AgentEvent? && before.mode == AgentMode && event.kind.ExecutionFailed? ==>
            && !after.running
            && var errors := before.execution.value.errors;
               after.error == if event.payload.error.Some? then event.payload.error
                 else if errors == [] then Some(AGENT_FAILED) else Some(errors[|errors| - 1]))
  {
    RemovesTheLast(app.client);
  }

  /** The model that answers is put on the answer when it begins and again when it is complete, and noted. */
  lemma ModelIsShown(app: App, socket: nat, event: ServerEvent)
    requires AppInvariant(app) && app.service.current == Some(socket) && Sock.CanSend(app.service)
    requires (event.Started? || event.Completed?) && app.client.state.active == Some(event.request)
    requires app.client.state.mode == DirectMode
    ensures
      var c, d := app.client, Next(app, Receives(socket, event)).client; var n := |d.state.messages|;
      && d.state.lastModel == Some(event.model)
      && (event.Started? ==>
            && n > 0 && d.assistant == Some(d.state.messages[n - 1].id)
            && if c.assistant.None? then d.state.messages[n - 1] == Message(c.messageCounter + 1, Assistant, "",
                   Some(event.model), []) && d.state.messages[..n - 1] == c.state.messages
               else d.state.messages == c.state.messages)
      && (event.Completed? && c.assistant.Some? ==>
            && n == |c.state.messages| > 0
            && d.state.messages == c.state.messages[n - 1 := c.state.messages[n - 1].(model := Some(event.model))])
  {
    var c := app.client;
    if c.assistant.Some? {
      UpdateLast(c.state.messages, c.messageCounter, "", event.model);
    }
  }

  /** A request that runs when its connection closes ends as failed, and the user is told why. */
  lemma DroppedConnectionTells(app: App, id: nat)
    requires AppInvariant(app) && app.client.state.running && app.client.pending.None?
    requires app.service.current == Some(id)
    ensures
      var b := Next(app, Browser(Sock.SocketCloses(id))).client.state;
      && !b.running && b.active.None? && b.error == Some(INTERRUPTED)
      && (b.execution.Some? ==> b.execution.value.status == Failed)
      && (app.client.state.execution.Some? <==> b.execution.Some?)
  {
    var n := |app.service.published|;
    var t := Sock.Next(app.service, Sock.SocketCloses(id));
    var mid := app.(service := t);
    var dropped := HandleConnection(mid, Sock.Disconnected);
    RemovesTheLast(app.client);
    Sock.DropIsRetried(app.service, id);
    assert t.published[n] == Sock.Disconnected;
    assert Deliver(mid, n) == Deliver(dropped, n + 1);
    OneMoreDelivered(dropped, n + 1);
  }

  /** What is left to hand over to a page that is not connected any more changes nothing about the request. */
  lemma {:induction false} OneMoreDelivered(app: App, from: nat)
    requires from <= |app.service.published| && !app.client.state.running && app.client.pending.None?
    ensures
      var b := Deliver(app, from).client.state;
      b == app.client.state.(connection := b.connection)
    decreases |app.service.published| - from
  {
    if from < |app.service.published| {
      var value := app.service.published[from];
      OneMoreDelivered(if value == app.client.state.connection then app else HandleConnection(app, value), from + 1);
    }
  }

  // ---------------------------------------------------------------- what an execution shows

  predicate IsLast(kind: WorkflowEventType) {
    kind.ExecutionCompleted? || kind.ExecutionFailed?
  }

  predicate IsAnswer(m: Message, p: Payload) {
    m.role == Assistant && Some(m.content) == p.finalResponse && m.sources == p.sources
  }

  /** The page holds the answer that a completion with payload p carries, if it carries one. */
  ghost predicate AnswerShown(messages: seq<Message>, p: Payload) {
    p.finalResponse.Some? && p.finalResponse.value != "" ==> exists m <- messages :: IsAnswer(m, p)
  }

  /** An execution has recorded at most one last event, and that one decides its status. */
  ghost predicate ShowsItsEvents(e: Execution, messages: seq<Message>) {
    var n := |e.events|;
    && (forall k :: 0 <= k < n - 1 ==> !IsLast(e.events[k].kind))
    && (n > 0 && e.events[n - 1].kind.ExecutionFailed? ==> e.status == Failed)
    && (e.status == Succeeded <==> n > 0 && e.events[n - 1].kind.ExecutionCompleted?)
    && (e.status == Succeeded ==> AnswerShown(messages, e.events[n - 1].payload))
  }

  /** The route and its reason, as the last routing among the events gave them. */
  function Routing(events: seq<WorkflowEvent>): (Option<Route>, Option<string>) {
    if events == [] then (None, None)
    else
      var last := events[|events| - 1];
      if last.kind.RoutingCompleted? then (last.payload.route, last.payload.routeReason)
      else Routing(events[..|events| - 1])
  }

  /** The sources of all agent results, one after the other. */
  function ResultSources(events: seq<WorkflowEvent>): seq<string> {
    if events == [] then []
    else
      var last := events[|events| - 1];
      ResultSources(events[..|events| - 1]) + (if last.kind.AgentResult? then last.payload.sources else [])
  }

  /** The errors of the agent results, each once, and behind them that of a failure. */
  function ResultErrors(events: seq<WorkflowEvent>): seq<string> {
    if events == [] then []
    else
      var last, before := events[|events| - 1], ResultErrors(events[..|events| - 1]);
      if last.payload.error.None? then before
      else if last.kind.ExecutionFailed? || (last.kind.AgentResult? && last.payload.error.value !in before)
      then before + [last.payload.error.value]
      else before
  }

  /**
   What the page shows of an execution is what its events say; a completion has the last word on all but
   the reason.
   */
  predicate FieldsShow(e: Execution) {
    var n := |e.events|;
    && e.routeReason == Routing(e.events).1
    && if n > 0 && e.events[n - 1].kind.ExecutionCompleted? then
         var p := e.events[n - 1].payload;
         && e.route == (if p.route.Some? then p.route else Routing(e.events).0)
         && e.hopCount == p.hopCount && e.sources == p.sources && e.errors == p.errors
       else
         && e.route == Routing(e.events).0 && e.hopCount.None?
         && e.sources == ResultSources(e.events) && e.errors == ResultErrors(e.events)
  }

  ghost predicate ExecutionFits(c: Client) {
    c.state.execution.Some? ==>
      var e := c.state.execution.value;
      && e.request.WorkspaceId? && 1 <= e.request.number <= c.requestCounter
      && ShowsItsEvents(e, c.state.messages) && FieldsShow(e)
  }

  /** The page has moved on without another event: at most the status of a running execution has changed. */
  ghost predicate SameRecord(c: Client, d: Client) {
    && d.requestCounter == c.requestCounter
    && (d.pending.Some? ==> c.pending.Some?)
    && (d.state.active.Some? ==> d.state.active == c.state.active)
    && match c.state.execution
       case None => d.state.execution.None?
       case Some(e) =>
         && d.state.execution.Some? && d.state.messages == c.state.messages
         && var f := d.state.execution.value;
            f == e.(status := f.status) &&
              (f.status == e.status || (e.status == Running && f.status in {Failed, Aborted}))
  }

  /** A request has just been submitted in agent mode. */
  ghost predicate NewRecord(c: Client, d: Client) {
    && !c.state.running && d.requestCounter == c.requestCounter + 1
    && d.state.execution.Some?
    && var f := d.state.execution.value;
       f == NewExecution(WorkspaceId(d.requestCounter)).(status := f.status) && f.status != Succeeded
  }

  lemma ConnectionKeepsRecord(app: App, value: Sock.ConnectionState)
    requires ClientInvariant(app.client)
    ensures SameRecord(app.client, HandleConnection(app, value).client)
  {
    RemovesTheLast(app.client);
  }

  lemma {:induction false} DeliverKeepsRecord(app: App, from: nat)
    requires AppReady(app, from)
    ensures SameRecord(app.client, Deliver(app, from).client)
    decreases |app.service.published| - from
  {
    if from < |app.service.published| {
      DeliverOne(app, from);
      var value := app.service.published[from];
      ConnectionKeepsRecord(app, value);
      DeliverKeepsRecord(if value == app.client.state.connection then app else HandleConnection(app, value), from + 1);
    }
  }

  lemma BrowserKeepsRecord(app: App, step: Sock.Step)
    requires AppInvariant(app)
    ensures SameRecord(app.client, Next(app, Browser(step)).client)
  {
    if Allowed(app, step) {
      StepPublishesChain(app.service, step);
      Sock.NextKeepsInvariant(app.service, step);
      DeliverKeepsRecord(app.(service := Sock.Next(app.service, step)), |app.service.published|);
    }
  }

  lemma SubmitRecords(app: App, query: string, constructs: bool)
    requires AppInvariant(app)
    ensures
      var c, d := app.client, Submit(app, query, constructs).client;
      SameRecord(c, d) || d.state.execution.None? || NewRecord(c, d)
  {
    if query != "" && !app.client.state.running && |query| <= MAX_QUERY_LENGTH {
      var c := Submitted(app.client, query);
      if c.state.connection == Sock.Connected {
        assert SameRecord(c, SendPending(app.(client := c)).client);
      } else {
        ConnectIsReady(app, query, constructs);
        DeliverKeepsRecord(App(c, Sock.Connect(app.service, constructs)), |app.service.published|);
      }
    }
  }

  /** What a step without a server event does to the record of the execution. */
  lemma QuietStep(app: App, step: Step)
    requires AppInvariant(app) && !step.Receives?
    ensures
      var c, d := app.client, Next(app, step).client;
      && c.requestCounter <= d.requestCounter
      && (SameRecord(c, d) || d.state.execution.None? || NewRecord(c, d))
  {
    match step
    case UserSubmits(query, constructs) =>
      SubmitRecords(app, query, constructs);
      StepKeepsCounter(app, step);
    case UserCancels => RemovesTheLast(app.client);
    case Browser(step) => BrowserKeepsRecord(app, step);
    case _ =>
  }

  lemma StepKeepsCounter(app: App, step: Step)
    requires AppInvariant(app)
    ensures app.client.requestCounter <= Next(app, step).client.requestCounter
  {
    if app.client.state.running {
      StepKeepsExecution(app, step);
    } else {
      IdleStep(app, step);
    }
  }

  lemma RecordFits(c: Client, d: Client)
    requires ExecutionFits(c) && c.requestCounter <= d.requestCounter
    requires SameRecord(c, d) || d.state.execution.None? || NewRecord(c, d)
    ensures ExecutionFits(d)
  {
  }

  /** One workflow event is recorded, and a last one ends the request with its own status. */
  lemma AgentEventShows(c: Client, event: ServerEvent)
    requires ClientInvariant(c) && c.state.running && c.state.mode == AgentMode && ExecutionFits(c)
    requires event.AgentEvent?
    ensures
      var d := HandleAgentEvent(c, event);
      && ExecutionFits(d) && d.state.execution.Some?
      && var e, f := c.state.execution.value, d.state.execution.value;
         && f.request == e.request && f.events == e.events + [Recorded(event)]
         && f.executionId == (if event.execution != "" then Some(event.execution) else e.executionId)
         && d.state.active == if IsLast(event.kind) then None else c.state.active
  {
    var e, d := c.state.execution.value, HandleAgentEvent(c, event);
    var f := d.state.execution.value;
    OneMoreEvent(e.events, Recorded(event), f.events);
    EventFields(e, f, Recorded(event));
    if event.kind.ExecutionCompleted? {
      CompletionShows(c, event);
    }
    assert ShowsItsEvents(f, d.state.messages);
  }

  lemma FieldsOfOneMore(events: seq<WorkflowEvent>, x: WorkflowEvent)
    ensures Routing(events + [x]) ==
      if x.kind.RoutingCompleted? then (x.payload.route, x.payload.routeReason) else Routing(events)
    ensures ResultSources(events + [x]) == ResultSources(events) + if x.kind.AgentResult? then x.payload.sources else []
    ensures ResultErrors(events + [x]) ==
      var before := ResultErrors(events);
      if x.payload.error.None? then before
      else if x.kind.ExecutionFailed? || (x.kind.AgentResult? && x.payload.error.value !in before)
      then before + [x.payload.error.value]
      else before
  {
    assert (events + [x])[..|events|] == events;
  }

  /** The fields of a running execution follow one more event. */
  lemma EventFields(e: Execution, f: Execution, x: WorkflowEvent)
    requires FieldsShow(e) && (e.events != [] ==> !IsLast(e.events[|e.events| - 1].kind))
    requires f.events == e.events + [x]
    requires
      var p := x.payload;
      match x.kind
      case RoutingCompleted => f == e.(route := p.route, routeReason := p.routeReason, events := f.events,
        executionId := f.executionId)
      case AgentResult => f == MergeAgentResult(e, p).(events := f.events, executionId := f.executionId)
      case ExecutionCompleted =>
        && f.route == (if p.route.Some? then p.route else e.route) && f.routeReason == e.routeReason
        && f.hopCount == p.hopCount && f.sources == p.sources && f.errors == p.errors
      case ExecutionFailed =>
        && f.errors == (if p.error.Some? then e.errors + [p.error.value] else e.errors) && f.hopCount == e.hopCount
        && f.sources == e.sources && f.route == e.route && f.routeReason == e.routeReason
      case _ => f == e.(events := f.events, executionId := f.executionId, status := f.status)
    ensures FieldsShow(f)
  {
    FieldsOfOneMore(e.events, x);
    SameFields(f, e.events, x);
  }

  /** What the fields of an execution should show behind one more event. */
  lemma SameFields(f: Execution, events: seq<WorkflowEvent>, x: WorkflowEvent)
    requires f.events == events + [x]
    requires f.routeReason == Routing(f.events).1
    requires
      if x.kind.ExecutionCompleted? then
        && f.route == (if x.payload.route.Some? then x.payload.route else Routing(f.events).0)
        && f.hopCount == x.payload.hopCount && f.sources == x.payload.sources && f.errors == x.payload.errors
      else
        && f.route == Routing(f.events).0 && f.hopCount.None?
        && f.sources == ResultSources(f.events) && f.errors == ResultErrors(f.events)
    ensures FieldsShow(f)
  {
    assert f.events[|f.events| - 1] == x;
  }

  lemma OneMoreEvent(events: seq<WorkflowEvent>, last: WorkflowEvent, all: seq<WorkflowEvent>)
    requires all == events + [last] && forall k :: 0 <= k < |events| ==> !IsLast(events[k].kind)
    ensures all[|all| - 1] == last && forall k :: 0 <= k < |all| - 1 ==> !IsLast(all[k].kind)
  {
  }

  function Recorded(event: ServerEvent): WorkflowEvent
    requires event.AgentEvent?
  {
    WorkflowEvent(event.sequence, event.kind, event.agent, event.payload)
  }

  lemma CompletionShows(c: Client, event: ServerEvent)
    requires event.AgentEvent? && event.kind.ExecutionCompleted?
    requires c.state.mode == AgentMode && c.state.execution.Some?
    ensures AnswerShown(HandleAgentEvent(c, event).state.messages, event.payload)
  {
    var p, messages := event.payload, HandleAgentEvent(c, event).state.messages;
    if p.finalResponse.Some? && p.finalResponse.value != "" {
      assert IsAnswer(messages[|messages| - 1], p) && messages[|messages| - 1] in messages;
    }
  }

  /** An error or an acknowledgement ends the active request with its own status and records nothing. */
  lemma EndShows(c: Client, event: ServerEvent)
    requires ClientInvariant(c) && c.state.mode == AgentMode
    requires (event.Error? || event.Cancelled?) && c.state.active == Some(event.request)
    ensures
      var d := HandleServerEvent(c, event);
      && d.state.active.None? && c.state.execution.Some? && d.state.execution.Some?
      && d.state.execution.value == c.state.execution.value.(status := if event.Error? then Failed else Aborted)
  {
    RemovesTheLast(c);
  }

  lemma EventShows(c: Client, event: ServerEvent)
    requires ClientInvariant(c) && c.state.connection == Sock.Connected && ExecutionFits(c)
    ensures ExecutionFits(HandleServerEvent(c, event))
  {
    if !event.Pong? && Some(event.request) == c.state.active && c.state.mode == AgentMode {
      if event.AgentEvent? {
        AgentEventShows(c, event);
      } else {
        RemovesTheLast(c);
        RecordFits(c, HandleServerEvent(c, event));
      }
    }
  }

  /** In direct mode no event brings an execution about. */
  lemma DirectEventShowsNone(c: Client, event: ServerEvent)
    requires ClientInvariant(c) && c.state.connection == Sock.Connected && c.state.mode == DirectMode
    ensures HandleServerEvent(c, event).state.execution.None?
  {
    RemovesTheLast(c);
  }

  lemma NextKeepsShown(app: App, step: Step)
    requires AppInvariant(app) && ExecutionFits(app.client)
    ensures ExecutionFits(Next(app, step).client)
  {
    if step.Receives? {
      if Sock.CanSend(app.service) {
        EventShows(app.client, step.event);
      }
    } else {
      QuietStep(app, step);
      RecordFits(app.client, Next(app, step).client);
    }
  }

  lemma {:induction false} RunKeepsShown(app: App, steps: seq<Step>)
    requires AppInvariant(app) && ExecutionFits(app.client)
    ensures ExecutionFits(Run(app, steps).client)
    decreases |steps|
  {
    if steps != [] {
      NextKeepsInvariant(app, steps[0]);
      NextKeepsShown(app, steps[0]);
      RunKeepsShown(Next(app, steps[0]), steps[1..]);
    }
  }

  /**
   In every run, an execution on the page has recorded at most one last event and nothing behind
   it. A recorded failure shows as failed; it has succeeded exactly when a completion was recorded,
   and then the page holds the answer that completion carried. Route, reason, hops, sources and errors
   are those the recorded events say.
   */
  lemma ExecutionsShowTheirEvents(steps: seq<Step>)
    ensures
      var s := Run(InitialApp, steps).client.state;
      s.execution.Some? ==> ShowsItsEvents(s.execution.value, s.messages) && FieldsShow(s.execution.value)
  {
    InitialAppInvariant();
    RunKeepsShown(InitialApp, steps);
  }

  /** e is the execution of a request that has ended, or of one that is no longer shown. */
  ghost predicate ShownOrGone(c: Client, e: Execution) {
    && e.request.WorkspaceId? && e.request.number <= c.requestCounter
    && c.state.active != Some(e.request)
    && (c.state.execution.Some? && c.state.execution.value.request == e.request ==> c.state.execution.value == e)
  }

  lemma ShownStays(app: App, step: Step, e: Execution)
    requires AppInvariant(app) && ShownOrGone(app.client, e) && e.status != Running
    ensures ShownOrGone(Next(app, step).client, e)
  {
    StepKeepsCounter(app, step);
    if !step.Receives? {
      QuietStep(app, step);
      NoNewActive(app, step, e.request);
    }
  }

  lemma NoNewActive(app: App, step: Step, r: RequestId)
    requires AppInvariant(app) && r.WorkspaceId? && r.number <= app.client.requestCounter &&
      app.client.state.active != Some(r)
    ensures Next(app, step).client.state.active != Some(r)
  {
    NextKeepsInvariant(app, step);
    if app.client.state.running {
      StepKeepsExecution(app, step);
    } else {
      IdleStep(app, step);
    }
  }

  /** Once a request has ended its execution never changes again, as long as the page shows it. */
  lemma {:induction false} EndedExecutionStays(app: App, steps: seq<Step>, e: Execution)
    requires AppInvariant(app) && ShownOrGone(app.client, e) && e.status != Running
    ensures ShownOrGone(Run(app, steps).client, e)
    decreases |steps|
  {
    if steps != [] {
      ShownStays(app, steps[0], e);
      NextKeepsInvariant(app, steps[0]);
      EndedExecutionStays(Next(app, steps[0]), steps[1..], e);
    }
  }

  // ---------------------------------------------------------------- what is written stays written

  lemma EventKeepsSettled(c: Client, event: ServerEvent)
    requires ClientInvariant(c) && c.state.connection == Sock.Connected
    ensures Settled(c) <= Settled(HandleServerEvent(c, event))
  {
    if !event.Pong? && Some(event.request) == c.state.active {
      match event
      case Started(_, model) =>
        if c.state.mode == DirectMode {
          StartedWrites(c, model);
        }
      case Chunk(_, content) =>
        if c.state.mode == DirectMode {
          ChunkWrites(c, content);
        }
      case Completed(_, model) => CompletedKeeps(c, model);
      case AgentEvent(_, _, _, _, _, _) =>
      case _ => RemovesTheLast(c);
    }
  }

  lemma ConnectionKeepsSettled(app: App, value: Sock.ConnectionState)
    requires ClientInvariant(app.client)
    ensures Settled(app.client) <= Settled(HandleConnection(app, value).client)
  {
    RemovesTheLast(app.client);
  }

  lemma {:induction false} DeliverKeepsSettled(app: App, from: nat)
    requires AppReady(app, from)
    ensures Settled(app.client) <= Settled(Deliver(app, from).client)
    decreases |app.service.published| - from
  {
    if from < |app.service.published| {
      DeliverOne(app, from);
      var value := app.service.published[from];
      ConnectionKeepsSettled(app, value);
      DeliverKeepsSettled(if value == app.client.state.connection then app else HandleConnection(app, value), from + 1);
    }
  }

  lemma SubmitKeepsSettled(app: App, query: string, constructs: bool)
    requires AppInvariant(app)
    ensures Settled(app.client) <= Settled(Submit(app, query, constructs).client)
  {
    if query != "" && !app.client.state.running && |query| <= MAX_QUERY_LENGTH &&
       app.service.connection != Sock.Connected
    {
      ConnectIsReady(app, query, constructs);
      DeliverKeepsSettled(App(Submitted(app.client, query), Sock.Connect(app.service, constructs)),
                          |app.service.published|);
    }
  }

  lemma BrowserKeepsSettled(app: App, step: Sock.Step)
    requires AppInvariant(app)
    ensures Settled(app.client) <= Settled(Next(app, Browser(step)).client)
  {
    if Allowed(app, step) {
      StepPublishesChain(app.service, step);
      Sock.NextKeepsInvariant(app.service, step);
      DeliverKeepsSettled(app.(service := Sock.Next(app.service, step)), |app.service.published|);
    }
  }

  lemma StepKeepsSettled(app: App, step: Step)
    requires AppInvariant(app) && !step.UserResets?
    ensures Settled(app.client) <= Settled(Next(app, step).client)
  {
    match step
    case UserSubmits(query, constructs) => SubmitKeepsSettled(app, query, constructs);
    case UserCancels => RemovesTheLast(app.client);
    case Browser(step) => BrowserKeepsSettled(app, step);
    case Receives(_, event) =>
      if Sock.CanSend(app.service) {
        EventKeepsSettled(app.client, event);
      }
    case _ =>
  }

  /** Until the conversation is reset, no message of a request that has ended is edited or removed. */
  lemma {:induction false} TranscriptOnlyGrows(app: App, steps: seq<Step>)
    requires AppInvariant(app) && forall step <- steps :: !step.UserResets?
    ensures Settled(app.client) <= Settled(Run(app, steps).client)
    decreases |steps|
  {
    if steps != [] {
      assert steps[0] in steps;
      StepKeepsSettled(app, steps[0]);
      NextKeepsInvariant(app, steps[0]);
      TranscriptOnlyGrows(Next(app, steps[0]), steps[1..]);
    }
  }

  // ---------------------------------------------------------------- the class

  class WorkspaceStateService {
    const websocket: Sock.WebSocketService
    var state: State
    var requestCounter: nat
    var messageCounter: nat
    var conversationCounter: nat
    var pendingRequest: Option<Pending>
    var activeAssistantMessageId: Option<nat>

    ghost function Page(): Client
      reads this
    {
      Client(state, requestCounter, messageCounter, conversationCounter, pendingRequest, activeAssistantMessageId)
    }

    ghost function View(): App
      reads this, websocket
    {
      App(Page(), websocket.View())
    }

    constructor (service: Sock.WebSocketService)
      requires service.View() == Sock.Initial
      ensures websocket == service && View() == InitialApp
    {
      websocket := service;
      state := InitialState(AgentMode, 1);
      requestCounter, messageCounter, conversationCounter := 0, 0, 1;
      pendingRequest, activeAssistantMessageId := None, None;
    }

    method DoClearActiveRequest()
      modifies this
      ensures Page() == ClearActiveRequest(old(Page()))
    {
      pendingRequest := None;
      activeAssistantMessageId := None;
      state := state.(active := None);
    }

    method PatchExecution(status: Status)
      modifies this
      ensures Page() == PatchStatus(old(Page()), status)
    {
      if state.execution.Some? {
        state := state.(execution := Some(state.execution.value.(status := status)));
      }
    }

    method DoRemoveEmptyAssistant()
      modifies this
      ensures Page() == RemoveEmptyAssistant(old(Page()))
    {
      if activeAssistantMessageId.None? {
        return;
      }
      var id := activeAssistantMessageId.value;
      var message := Find(state.messages, id);
      if message.None? || message.value.content != "" {
        return;
      }
      state := state.(messages := Without(state.messages, id));
    }

    method DoEnsureAssistant(model: Option<string>) returns (id: nat)
      modifies this
      ensures Page() == EnsureAssistant(old(Page()), model) && Some(id) == activeAssistantMessageId
    {
      if activeAssistantMessageId.Some? {
        return activeAssistantMessageId.value;
      }
      messageCounter := messageCounter + 1;
      id := messageCounter;
      activeAssistantMessageId := Some(id);
      state := state.(messages := state.messages + [Message(id, Assistant, "", model, [])]);
    }

    method DoFinishCancelled()
      modifies this
      ensures Page() == FinishCancelled(old(Page()))
    {
      DoRemoveEmptyAssistant();
      PatchExecution(Aborted);
      DoClearActiveRequest();
      state := state.(running := false);
    }

    method DoSendPending()
      requires Sock.Invariant(websocket.View())
      modifies this, websocket
      ensures View() == SendPending(old(View()))
    {
      if pendingRequest.None? || state.connection != Sock.Connected {
        return;
      }
      var pending := pendingRequest.value;
      pendingRequest := None;
      var threw := websocket.DoSend(WireMessage(pending, state.conversation));
      if threw {
        PatchExecution(Failed);
        DoClearActiveRequest();
        state := state.(running := false, error := Some(UNABLE_TO_SEND));
      }
    }

    method DoHandleConnection(value: Sock.ConnectionState)
      requires Sock.Invariant(websocket.View())
      modifies this, websocket
      ensures View() == HandleConnection(old(View()), value)
    {
      var previous := state.connection;
      state := state.(connection := value);
      if value == Sock.Connected {
        DoSendPending();
        return;
      }
      if value == Sock.Disconnected && previous == Sock.Connected && state.running && pendingRequest.None? {
        DoRemoveEmptyAssistant();
        PatchExecution(Failed);
        DoClearActiveRequest();
        state := state.(running := false, error := Some(INTERRUPTED));
      }
    }

    /** Runs the subscription over the connection states published from index `from` on. */
    method DeliverStates(from: nat)
      requires AppReady(View(), from)
      modifies this, websocket
      ensures View() == Deliver(old(View()), from) && AppInvariant(View())
    {
      var i := from;
      while i < |websocket.published|
        invariant 0 <= i <= |websocket.published|
        invariant AppReady(View(), i)
        invariant Deliver(View(), i) == Deliver(old(View()), from)
        decreases |websocket.published| - i
      {
        ghost var before := View();
        var value := websocket.published[i];
        if value != state.connection {
          DoHandleConnection(value);
        }
        DeliverOne(before, i);
        i := i + 1;
      }
      DeliverKeepsInvariant(View(), i);
    }

    /** The first half of submit: the user's message, the waiting request and a new execution record. */
    method RecordSubmission(query: string)
      modifies this
      ensures Page() == Submitted(old(Page()), query)
    {
      var mode := state.mode;
      requestCounter := requestCounter + 1;
      var id := WorkspaceId(requestCounter);
      messageCounter := messageCounter + 1;
      var userMessage := Message(messageCounter, User, query, None, []);
      var execution := if mode == AgentMode then Some(NewExecution(id)) else None;
      pendingRequest := Some(Pending(id, query, mode));
      activeAssistantMessageId := None;
      state := state.(
        messages := state.messages + [userMessage],
        running := true,
        error := None,
        active := Some(id),
        lastModel := if mode == DirectMode then None else state.lastModel,
        execution := execution);
    }

    method DoSubmit(query: string, constructs: bool)
      requires AppInvariant(View())
      modifies this, websocket
      ensures View() == Submit(old(View()), query, constructs) && AppInvariant(View())
    {
      ghost var before := View();
      SubmitKeepsInvariant(before, query, constructs);
      if query == "" || state.running {
        return;
      }
      if |query| > MAX_QUERY_LENGTH {
        state := state.(error := Some(QUERY_TOO_LONG));
        return;
      }
      RecordSubmission(query);
      if state.connection == Sock.Connected {
        DoSendPending();
        return;
      }
      var from := |websocket.published|;
      StepPublishesChain(before.service, Sock.CallConnect(constructs));
      websocket.DoConnect(constructs);
      DeliverStates(from);
    }

    method DoCancel() returns (raised: bool)
      requires AppInvariant(View())
      modifies this, websocket
      ensures (View(), raised) == CancelRequest(old(View())) && AppInvariant(View())
    {
      NextKeepsInvariant(View(), UserCancels);
      if !state.running || state.active.None? {
        return false;
      }
      if pendingRequest.Some? {
        pendingRequest := None;
        DoFinishCancelled();
        return false;
      }
      if state.connection != Sock.Connected {
        return false;
      }
      raised := websocket.DoSend(Cancel(state.active.value));
    }

    method DoReset()
      requires AppInvariant(View())
      modifies this, websocket
      ensures View() == ResetConversation(old(View())) && AppInvariant(View())
    {
      NextKeepsInvariant(View(), UserResets);
      if state.running && state.active.Some? && pendingRequest.None? && state.connection == Sock.Connected {
        var ignored := websocket.DoSend(Cancel(state.active.value));
      }
      pendingRequest := None;
      activeAssistantMessageId := None;
      conversationCounter := conversationCounter + 1;
      state := InitialState(state.mode, conversationCounter).(connection := state.connection);
    }

    method DoSetMode(mode: Mode)
      requires AppInvariant(View())
      modifies this
      ensures View() == SetMode(old(View()), mode) && AppInvariant(View())
    {
      if mode == state.mode || state.running {
        return;
      }
      state := state.(mode := mode, error := None, execution := None);
    }

    method DoCompleteAgentExecution(execution: Execution, payload: Payload)
      modifies this
      ensures Page() == CompleteAgentExecution(old(Page()), execution, payload)
    {
      var e := execution.(status := Succeeded);
      e := e.(route := if payload.route.Some? then payload.route else e.route);
      e := e.(hopCount := payload.hopCount, sources := payload.sources, errors := payload.errors);
      if payload.finalResponse.Some? && payload.finalResponse.value != "" {
        messageCounter := messageCounter + 1;
        var assistant := Message(messageCounter, Assistant, payload.finalResponse.value, None, e.sources);
        state := state.(messages := state.messages + [assistant]);
      }
      DoClearActiveRequest();
      state := state.(
        execution := Some(e),
        running := false,
        error := if |e.errors| > 0 then Some(Text.Join(e.errors, ' ')) else None);
    }

    method DoHandleAgentEvent(event: ServerEvent)
      requires event.AgentEvent?
      modifies this
      ensures Page() == HandleAgentEvent(old(Page()), event)
    {
      if state.mode != AgentMode || state.execution.None? {
        return;
      }
      var current := state.execution.value;
      var execution := current.(
        executionId := if event.execution != "" then Some(event.execution) else current.executionId,
        events := current.events + [WorkflowEvent(event.sequence, event.kind, event.agent, event.payload)]);
      match event.kind {
      case ExecutionStarted => execution := execution.(status := Running);
      case RoutingCompleted =>
        execution := execution.(route := event.payload.route, routeReason := event.payload.routeReason);
      case AgentStarted =>
      case AgentResult => execution := MergeAgentResult(execution, event.payload);
      case ExecutionCompleted =>
        DoCompleteAgentExecution(execution, event.payload);
        return;
      case ExecutionFailed =>
        execution := execution.(status := Failed);
        if event.payload.error.Some? {
          execution := execution.(errors := execution.errors + [event.payload.error.value]);
        }
        DoClearActiveRequest();
        var n := |execution.errors|;
        state := state.(
          execution := Some(execution),
          running := false,
          error := Some(if n > 0 then execution.errors[n - 1] else AGENT_FAILED));
        return;
      }
      state := state.(execution := Some(execution));
    }

    method DoHandleServerEvent(event: ServerEvent)
      modifies this
      ensures Page() == HandleServerEvent(old(Page()), event)
    {
      if event.Pong? {
        return;
      }
      if Some(event.request) != state.active {
        return;
      }
      match event
      case Started(_, model) =>
        if state.mode == DirectMode {
          var id := DoEnsureAssistant(Some(model));
          state := state.(lastModel := Some(model));
        }
      case Chunk(_, content) =>
        if state.mode == DirectMode && |content| > 0 {
          var id := DoEnsureAssistant(None);
          state := state.(messages := WithContent(state.messages, id, content));
        }
      case Completed(_, model) =>
        if state.mode == DirectMode {
          var messages := state.messages;
          if activeAssistantMessageId.Some? {
            messages := WithModel(messages, activeAssistantMessageId.value, model);
          }
          DoClearActiveRequest();
          state := state.(messages := messages, running := false, error := None, lastModel := Some(model));
        }
      case AgentEvent(_, _, _, _, _, _) => DoHandleAgentEvent(event);
      case Cancelled(_) => DoFinishCancelled();
      case Error(_, message) =>
        DoRemoveEmptyAssistant();
        PatchExecution(Failed);
        DoClearActiveRequest();
        state := state.(running := false, error := Some(message));
      case Pong =>
    }
  }
}
