/**
 One WebSocket connection on the server: a receive loop and the single background task it runs.

 The two are interleaved at their await points. A step of the machine is what happens between two
 awaits; a send is one step, and fails once the peer is gone. The log of sent events remembers who
 sent each one, so that what one task says can be told apart from what the loop says.
 */
module Server {
  import opened Options
  import opened Protocol
  import P = Provider

  const MODEL := "llm"
  const STREAM_FAILED := "LLM streaming request failed."
  const AGENT_FAILED := "Multi-agent execution failed."
  const INVALID_REQUEST := "Invalid WebSocket request."
  const NOT_FOUND := "No active stream found for request."
  const IN_PROGRESS := "Another stream is already active."
  const UNAVAILABLE := "Multi-agent service is unavailable."

  datatype Kind = ChatTask | AgentTask

  /** How a task came to its end: an exception raised while a cancelled task cleans up is answered with an error. */
  datatype End = Succeeded | Errored | Unwound(raised: bool) | Dropped

  datatype Status = Waiting | Streaming | Cancelling(started: bool) | Done(end: End)

  /**
   message is what the task was created for; cancelled is set once a cancellation is requested; log is
   everything the task itself has sent.
   */
  datatype Task = Task(
    kind: Kind,
    request: RequestId,
    message: ClientMessage,
    status: Status,
    cancelled: bool,
    stream: P.Stream,
    log: seq<ServerEvent>)

  /** Handler answers about no task in particular; About(t) acknowledges the cancellation of task t. */
  datatype Author = Handler | About(task: nat) | By(task: nat)

  datatype Sent = Sent(author: Author, event: ServerEvent)

  /** Where the receive loop stands. ack tells a cancellation asked for by the client from the final cleanup. */
  datatype Phase = Top | Receiving(idle: bool) | AwaitingCancel(task: nat, ack: bool) | Cleanup | Stopped

  datatype Conn = Conn(
    tasks: seq<Task>,
    active: Option<nat>,
    activeRequest: Option<RequestId>,
    phase: Phase,
    open: bool,
    sent: seq<Sent>)

  const Initial := Conn([], None, None, Top, true, [])

  predicate Finished(s: Conn, t: nat) {
    t < |s.tasks| && s.tasks[t].status.Done?
  }

  predicate Busy(s: Conn) {
    s.active.Some? && s.active.value < |s.tasks| && !Finished(s, s.active.value)
  }

  // ---------------------------------------------------------------- the receive loop

  /** A send by the loop; on a dead connection it raises and the loop goes to its cleanup. */
  function Reply(s: Conn, author: Author, event: ServerEvent): Conn {
    if s.open then s.(sent := s.sent + [Sent(author, event)], phase := Top) else s.(phase := Cleanup)
  }

  function Refuse(s: Conn, request: RequestId, message: string): Conn {
    Reply(s, Handler, Error(request, message))
  }

  function LoopTop(s: Conn): Conn {
    var s := if s.active.Some? && !Busy(s) then s.(active := None, activeRequest := None) else s;
    s.(phase := Receiving(!Busy(s)))
  }

  predicate IsSubmission(m: ClientMessage) {
    m.Chat? || m.AgentExecute?
  }

  /** The task for a submission, before it has taken its first step. */
  function NewTask(m: ClientMessage, stream: P.Stream): Task
    requires IsSubmission(m)
  {
    Task(if m.Chat? then ChatTask else AgentTask, m.request, m, Waiting, false, stream, [])
  }

  function CreateTask(s: Conn, m: ClientMessage, stream: P.Stream): Conn
    requires IsSubmission(m)
  {
    s.(tasks := s.tasks + [NewTask(m, stream)],
       active := Some(|s.tasks|),
       activeRequest := Some(m.request),
       phase := Top)
  }

  function SetTask(s: Conn, t: nat, task: Task): Conn
    requires t < |s.tasks|
  {
    s.(tasks := s.tasks[t := task])
  }

  function BeginCancel(s: Conn, ack: bool): Conn
    requires Busy(s)
  {
    var t := s.active.value;
    var task := s.tasks[t];
    SetTask(s, t,
      task.(status := Cancelling(task.status != Waiting), cancelled := true)).(phase := AwaitingCancel(t, ack))
  }

  /** A valid message; limits are the provider's retry settings, available whether agents can be run. */
  function Receive(s: Conn, m: ClientMessage, stream: P.Stream, available: bool): Conn {
    match m
    case Ping => Reply(s, Handler, Pong)
    case Cancel(request) =>
      if !Busy(s) || s.activeRequest != Some(request) then Refuse(s, request, NOT_FOUND)
      else BeginCancel(s, true)
    case AgentExecute(request, _, _, _) =>
      if Busy(s) then Refuse(s, request, IN_PROGRESS)
      else if !available then Refuse(s, request, UNAVAILABLE)
      else CreateTask(s, m, stream)
    case Chat(request, _) =>
      if Busy(s) then Refuse(s, request, IN_PROGRESS)
      else CreateTask(s, m, stream)
  }

  /** The loop goes on once the task it cancelled has unwound; a send that failed in the task is raised again here. */
  function AfterCancel(s: Conn, t: nat, ack: bool): Conn
    requires Finished(s, t)
  {
    if !ack then s.(phase := Stopped)
    else if s.tasks[t].status.end.Dropped? then s.(phase := Cleanup)
    else Reply(s.(active := None, activeRequest := None), About(t), Cancelled(s.tasks[t].request))
  }

  function EnterCleanup(s: Conn): Conn {
    if Busy(s) then BeginCancel(s, false) else s.(phase := Stopped)
  }

  // ---------------------------------------------------------------- the tasks

  /** A send by a task. */
  function Say(s: Conn, t: nat, event: ServerEvent): Conn
    requires t < |s.tasks|
  {
    SetTask(s, t, s.tasks[t].(log := s.tasks[t].log + [event])).(sent := s.sent + [Sent(By(t), event)])
  }

  function SetStatus(s: Conn, t: nat, status: Status): Conn
    requires t < |s.tasks|
  {
    SetTask(s, t, s.tasks[t].(status := status))
  }

  /** Say something and move on; when the peer is gone the task ends instead. */
  function SayThen(s: Conn, t: nat, event: ServerEvent, status: Status): Conn
    requires t < |s.tasks|
  {
    if s.open then SetStatus(Say(s, t, event), t, status) else SetStatus(s, t, Done(Dropped))
  }

  function TaskStarts(s: Conn, t: nat): Conn
    requires t < |s.tasks|
  {
    if s.tasks[t].kind == ChatTask then SayThen(s, t, Started(s.tasks[t].request, MODEL), Streaming)
    else SetStatus(s, t, Streaming)
  }

  /** The chunk one network event makes the provider yield, if any. */
  function NewChunk(stream: P.Stream, event: P.NetEvent): Option<string> {
    if stream.result.None? && event.Arrives? && event.line.Content? && event.line.text != ""
    then Some(event.line.text) else None
  }

  function ChatReads(s: Conn, t: nat, event: P.NetEvent): Conn
    requires t < |s.tasks| && P.WellFormed(s.tasks[t].stream)
  {
    var task := s.tasks[t];
    var s := SetTask(s, t, task.(stream := P.Next(task.stream, event)));
    match NewChunk(task.stream, event)
    case None => s
    case Some(text) => SayThen(s, t, Chunk(task.request, text), Streaming)
  }

  function ChatConcludes(s: Conn, t: nat): Conn
    requires t < |s.tasks| && s.tasks[t].stream.result.Some?
  {
    var task := s.tasks[t];
    if task.stream.result == Some(P.Returned)
    then SayThen(s, t, Completed(task.request, MODEL), Done(Succeeded))
    else SayThen(s, t, Error(task.request, STREAM_FAILED), Done(Errored))
  }

  /** The service swallows a failed delivery of a workflow event. */
  function AgentSays(s: Conn, t: nat, event: ServerEvent): Conn
    requires t < |s.tasks|
  {
    if s.open then Say(s, t, event) else s
  }

  /** A chat stream that takes a failure while it cleans up for one of the network, and tries again. */
  predicate CanRetry(stream: P.Stream) {
    && P.WellFormed(stream) && stream.result.None?
    && stream.produced[stream.attempt] == [] && stream.attempt < stream.maxRetries
  }

  /** A cancelled task goes on: the exception was replaced while cleaning up, and what replaced it was caught. */
  function TaskSurvives(s: Conn, t: nat): Conn
    requires t < |s.tasks| && (s.tasks[t].kind == ChatTask ==> CanRetry(s.tasks[t].stream))
  {
    var task := s.tasks[t];
    var stream := if task.kind == ChatTask then P.Retry(task.stream) else task.stream;
    SetTask(s, t, task.(stream := stream, status := Streaming))
  }

  /** A cancelled task ends; raised tells whether cleaning up raised something the task answers with an error. */
  function TaskUnwinds(s: Conn, t: nat, raised: bool): Conn
    requires t < |s.tasks| && s.tasks[t].status.Cancelling?
  {
    var task := s.tasks[t];
    if task.status.started && raised then
      SayThen(s, t, Error(task.request, if task.kind == ChatTask then STREAM_FAILED else AGENT_FAILED),
              Done(Unwound(true)))
    else SetStatus(s, t, Done(Unwound(false)))
  }

  // ---------------------------------------------------------------- runs

  /** Frames the peer sent before it left may still be received; the disconnect comes behind them. */
  datatype Step =
    | HandlerLoops
    | HandlerReceives(message: ClientMessage, maxRetries: int, baseDelay: real, available: bool)
    | HandlerReceivesInvalid(request: RequestId)
    | HandlerReceivesNoJson
    | HandlerTimesOut
    | HandlerSeesDisconnect
    | HandlerResumes
    | HandlerCleansUp
    | PeerLeaves
    | Starts(task: nat)
    | Reads(task: nat, event: P.NetEvent)
    | Concludes(task: nat)
    | Emits(task: nat, said: ServerEvent)
    | AgentReturns(task: nat)
    | AgentRaises(task: nat)
    | Survives(task: nat)
    | Unwinds(task: nat, raised: bool)

  /** The steps a task takes by itself. */
  predicate IsTaskStep(step: Step) {
    || step.Starts? || step.Reads? || step.Concludes? || step.Emits? || step.AgentReturns? || step.AgentRaises?
    || step.Survives? || step.Unwinds?
  }

  predicate IsWorkflowEvent(event: ServerEvent, request: RequestId) {
    event.AgentEvent? && event.request == request
  }

  predicate Live(s: Conn, t: nat, kind: Kind) {
    t < |s.tasks| && s.tasks[t].kind == kind && s.tasks[t].status == Streaming
  }

  /** A cancellation has reached the task while it was running, and it has not ended yet. */
  predicate CleansUp(s: Conn, t: nat) {
    t < |s.tasks| && s.tasks[t].status == Cancelling(true)
  }

  /** A running agent task reports its progress, a cancelled one its failure. */
  predicate MayEmit(s: Conn, t: nat) {
    t < |s.tasks| && s.tasks[t].kind == AgentTask && s.tasks[t].status in {Streaming, Cancelling(true)}
  }

  predicate MaySurvive(s: Conn, t: nat) {
    CleansUp(s, t) && (s.tasks[t].kind == ChatTask ==> CanRetry(s.tasks[t].stream))
  }

  /** A step that cannot be taken changes nothing. */
  function Next(s: Conn, step: Step): Conn {
    match step
    case HandlerLoops => if s.phase.Top? then LoopTop(s) else s
    case HandlerReceives(m, maxRetries, baseDelay, available) =>
      if s.phase.Receiving? then Receive(s, m, P.Start(maxRetries, baseDelay), available) else s
    case HandlerReceivesInvalid(request) =>
      if s.phase.Receiving? then Refuse(s, request, INVALID_REQUEST) else s
    case HandlerReceivesNoJson => if s.phase.Receiving? then s.(phase := Cleanup) else s
    case HandlerTimesOut => if s.phase == Receiving(true) then s.(open := false, phase := Cleanup) else s
    case HandlerSeesDisconnect => if s.phase.Receiving? && !s.open then s.(phase := Cleanup) else s
    case HandlerResumes =>
      if s.phase.AwaitingCancel? && Finished(s, s.phase.task) then AfterCancel(s, s.phase.task, s.phase.ack) else s
    case HandlerCleansUp => if s.phase.Cleanup? then EnterCleanup(s) else s
    case PeerLeaves => s.(open := false)
    case Starts(t) => if t < |s.tasks| && s.tasks[t].status == Waiting then TaskStarts(s, t) else s
    case Reads(t, event) =>
      if Live(s, t, ChatTask) && P.WellFormed(s.tasks[t].stream) && s.tasks[t].stream.result.None?
      then ChatReads(s, t, event) else s
    case Concludes(t) => if Live(s, t, ChatTask) && s.tasks[t].stream.result.Some? then ChatConcludes(s, t) else s
    case Emits(t, event) =>
      if MayEmit(s, t) && IsWorkflowEvent(event, s.tasks[t].request) then AgentSays(s, t, event) else s
    case AgentReturns(t) => if Live(s, t, AgentTask) then SetStatus(s, t, Done(Succeeded)) else s
    case AgentRaises(t) =>
      if Live(s, t, AgentTask) then SayThen(s, t, Error(s.tasks[t].request, AGENT_FAILED), Done(Errored)) else s
    case Survives(t) => if MaySurvive(s, t) then TaskSurvives(s, t) else s
    case Unwinds(t, raised) =>
      if t < |s.tasks| && s.tasks[t].status.Cancelling? then TaskUnwinds(s, t, raised) else s
  }

  // ---------------------------------------------------------------- what one task has said

  /** The events of the log written by task t. */
  function Own(sent: seq<Sent>, t: nat): seq<ServerEvent> {
    if sent == [] then []
    else
      var last := sent[|sent| - 1];
      Own(sent[..|sent| - 1], t) + (if last.author == By(t) then [last.event] else [])
  }

  /** How often the cancellation of task t was acknowledged. */
  function Acks(sent: seq<Sent>, t: nat): nat {
    if sent == [] then 0
    else Acks(sent[..|sent| - 1], t) + (if sent[|sent| - 1].author == About(t) then 1 else 0)
  }

  lemma Append(sent: seq<Sent>, x: Sent, t: nat)
    ensures Own(sent + [x], t) == Own(sent, t) + if x.author == By(t) then [x.event] else []
    ensures Acks(sent + [x], t) == Acks(sent, t) + if x.author == About(t) then 1 else 0
  {
    assert (sent + [x])[..|sent|] == sent;
  }

  function Chunks(request: RequestId, texts: seq<string>): seq<ServerEvent> {
    seq(|texts|, i requires 0 <= i < |texts| => Chunk(request, texts[i]))
  }

  /** What a chat task has said up to its last chunk. */
  function Opening(request: RequestId, stream: P.Stream): seq<ServerEvent> {
    [Started(request, MODEL)] + Chunks(request, P.Yielded(stream))
  }

  /** The whole log of a chat task follows from where it stands. */
  ghost predicate ChatLog(task: Task) {
    match task.status
    case Waiting => task.log == [] && P.Yielded(task.stream) == []
    case Streaming => task.log == Opening(task.request, task.stream)
    case Cancelling(started) => if started then task.log == Opening(task.request, task.stream) else task.log == []
    case Done(end) =>
      match end
      case Succeeded =>
        && task.stream.result == Some(P.Returned)
        && task.log == Opening(task.request, task.stream) + [Completed(task.request, MODEL)]
      case Errored =>
        && task.stream.result.Some? && task.stream.result != Some(P.Returned)
        && task.log == Opening(task.request, task.stream) + [Error(task.request, STREAM_FAILED)]
      case Unwound(raised) =>
        if raised then task.log == Opening(task.request, task.stream) + [Error(task.request, STREAM_FAILED)]
        else task.log == [] || task.log == Opening(task.request, task.stream)
      case Dropped => task.log <= Opening(task.request, task.stream)
  }

  predicate AllWorkflow(events: seq<ServerEvent>, request: RequestId) {
    forall event <- events :: IsWorkflowEvent(event, request)
  }

  /** An agent task reports workflow events about its own request, and behind them the error it ends with, if any. */
  predicate AgentLog(task: Task) {
    var n := |task.log|;
    if task.status in {Done(Errored), Done(Unwound(true))} then
      && n > 0 && task.log[n - 1] == Error(task.request, AGENT_FAILED)
      && AllWorkflow(task.log[..n - 1], task.request)
    else
      AllWorkflow(task.log, task.request) && (task.status == Waiting ==> n == 0)
  }

  ghost predicate TaskLog(task: Task) {
    if task.kind == ChatTask then ChatLog(task) else AgentLog(task)
  }

  predicate Awaited(s: Conn, t: nat) {
    s.phase.AwaitingCancel? && s.phase.task == t
  }

  /** A cancellation is acknowledged once the loop has stopped waiting for it, unless the loop is on its way out. */
  ghost predicate AcksFit(s: Conn, t: nat)
    requires t < |s.tasks|
  {
    var cancelled := s.tasks[t].cancelled;
    var leaving := t == |s.tasks| - 1 && (s.phase.Cleanup? || s.phase.Stopped?);
    && Acks(s.sent, t) <= 1
    && (!cancelled || Awaited(s, t) ==> Acks(s.sent, t) == 0)
    && (cancelled && !Awaited(s, t) && !leaving ==> Acks(s.sent, t) == 1)
  }

  ghost predicate TaskInvariant(s: Conn, t: nat)
    requires t < |s.tasks|
  {
    var task := s.tasks[t];
    && P.Invariant(task.stream) && P.CanRun(task.stream)
    && Own(s.sent, t) == task.log
    && (task.status == Done(Dropped) ==> !s.open)
    && AcksFit(s, t)
    && (Awaited(s, t) ==> task.cancelled)
    && (task.cancelled ==> task.status.Done? || Awaited(s, t))
    && (task.status == Waiting ==> !task.cancelled)
    && (task.status.Cancelling? || (task.status.Done? && task.status.end.Unwound?) ==> task.cancelled)
  }

  ghost predicate ActiveInvariant(s: Conn) {
    && (forall t :: 0 <= t < |s.tasks| - 1 ==> s.tasks[t].status.Done?)
    && (s.active.Some? ==> s.active.value == |s.tasks| - 1)
    && s.activeRequest == (if s.active.Some? then Some(s.tasks[s.active.value].request) else None)
    && (s.tasks != [] && !Finished(s, |s.tasks| - 1) ==> s.active.Some?)
    && (s.phase == Receiving(true) || s.phase.Stopped? ==> !Busy(s))
    && (s.phase.AwaitingCancel? ==> s.active == Some(s.phase.task))
  }

  /** Every entry of the log names a task that exists; an acknowledgement comes after its task has finished. */
  ghost predicate AuthorsInvariant(s: Conn) {
    forall i :: 0 <= i < |s.sent| ==> AuthorFits(s, s.sent[i])
  }

  /** What a task of each kind says, always about its own request. */
  predicate SaidBy(task: Task, event: ServerEvent) {
    && !event.Pong? && event.request == task.request
    && if task.kind == ChatTask then event.Started? || event.Chunk? || event.Completed? || event.Error?
       else event.AgentEvent? || event.Error?
  }

  predicate AuthorFits(s: Conn, x: Sent) {
    && (x.author.Handler? ==> x.event.Pong? || x.event.Error?)
    && (x.author.By? ==> x.author.task < |s.tasks| && SaidBy(s.tasks[x.author.task], x.event))
    && (x.author.About? ==>
          Finished(s, x.author.task) && x.event == Cancelled(s.tasks[x.author.task].request))
  }

  ghost predicate Base(s: Conn) {
    && (forall t :: 0 <= t < |s.tasks| ==> TaskInvariant(s, t))
    && ActiveInvariant(s)
    && AuthorsInvariant(s)
  }

  ghost predicate TaskLogs(s: Conn) {
    forall task <- s.tasks :: TaskLog(task)
  }

  ghost predicate Invariant(s: Conn) {
    Base(s) && TaskLogs(s)
  }

  lemma {:induction false} NothingOwn(s: Conn, sent: seq<Sent>, t: nat)
    requires forall i :: 0 <= i < |sent| ==> AuthorFits(s, sent[i])
    requires t >= |s.tasks|
    ensures Own(sent, t) == [] && Acks(sent, t) == 0
  {
    if sent != [] {
      assert AuthorFits(s, sent[|sent| - 1]);
      NothingOwn(s, sent[..|sent| - 1], t);
    }
  }

  // ---------------------------------------------------------------- the steps keep the invariant

  lemma ReplyKeepsBase(s: Conn, event: ServerEvent)
    requires Base(s) && s.phase.Receiving? && (event.Pong? || event.Error?)
    ensures Base(Reply(s, Handler, event))
  {
    forall t | 0 <= t < |s.tasks|
      ensures TaskInvariant(Reply(s, Handler, event), t)
    {
      assert TaskInvariant(s, t);
      Append(s.sent, Sent(Handler, event), t);
    }
  }

  lemma AfterCancelKeepsBase(s: Conn, t: nat, ack: bool)
    requires Base(s) && s.phase == AwaitingCancel(t, ack) && Finished(s, t)
    ensures Base(AfterCancel(s, t, ack))
  {
    var r := AfterCancel(s, t, ack);
    var x := Sent(About(t), Cancelled(s.tasks[t].request));
    forall u | 0 <= u < |s.tasks|
      ensures TaskInvariant(r, u)
    {
      assert TaskInvariant(s, u) && TaskInvariant(s, t);
      Append(s.sent, x, u);
    }
  }

  lemma CreateKeepsBase(s: Conn, m: ClientMessage, stream: P.Stream)
    requires IsSubmission(m) && Base(s) && s.phase.Receiving? && !Busy(s)
    requires P.Invariant(stream) && P.CanRun(stream)
    ensures Base(CreateTask(s, m, stream))
  {
    var r := CreateTask(s, m, stream);
    NothingOwn(s, s.sent, |s.tasks|);
    forall t | 0 <= t < |r.tasks|
      ensures TaskInvariant(r, t)
    {
      if t < |s.tasks| {
        assert TaskInvariant(s, t) && r.tasks[t] == s.tasks[t];
      }
    }
    forall i | 0 <= i < |r.sent|
      ensures AuthorFits(r, r.sent[i])
    {
      assert AuthorFits(s, s.sent[i]);
    }
  }

  lemma BeginCancelKeepsBase(s: Conn, ack: bool)
    requires Base(s) && Busy(s) && (s.phase.Receiving? || s.phase.Cleanup?)
    ensures Base(BeginCancel(s, ack))
  {
    var r := BeginCancel(s, ack);
    forall t | 0 <= t < |s.tasks|
      ensures TaskInvariant(r, t)
    {
      assert TaskInvariant(s, t);
    }
    forall i | 0 <= i < |r.sent|
      ensures AuthorFits(r, r.sent[i])
    {
      assert AuthorFits(s, s.sent[i]);
    }
  }

  /** Only the loop moved: no task and nothing in the log. */
  lemma PhaseKeepsBase(s: Conn, r: Conn)
    requires Base(s) && r.tasks == s.tasks && r.sent == s.sent && ActiveInvariant(r)
    requires s.phase == r.phase || s.phase.Receiving? || s.phase.Top? || (s.phase.Cleanup? && r.phase.Stopped?)
    requires r.phase == s.phase || r.phase.Receiving? || r.phase.Cleanup? || r.phase.Stopped?
    requires r.open ==> s.open
    ensures Base(r)
  {
    forall t | 0 <= t < |s.tasks|
      ensures TaskInvariant(r, t)
    {
      assert TaskInvariant(s, t);
    }
    forall i | 0 <= i < |r.sent|
      ensures AuthorFits(r, r.sent[i])
    {
      assert AuthorFits(s, s.sent[i]);
    }
  }

  predicate Advances(before: Status, after: Status) {
    match before
    case Waiting => after == Streaming || after == Done(Dropped)
    case Streaming => after == Streaming || after in {Done(Succeeded), Done(Errored), Done(Dropped)}
    case Cancelling(started) =>
      || (started && after in {before, Streaming, Done(Unwound(true))})
      || after in {Done(Unwound(false)), Done(Dropped)}
    case Done(_) => false
  }

  /** One task moves on, perhaps saying one thing. */
  lemma TaskKeepsBase(s: Conn, t: nat, stream: P.Stream, said: Option<ServerEvent>, status: Status)
    requires Base(s) && t < |s.tasks| && Advances(s.tasks[t].status, status)
    requires P.Invariant(stream) && P.CanRun(stream)
    requires status == Done(Dropped) ==> !s.open
    requires said.Some? ==> SaidBy(s.tasks[t], said.value)
    ensures Base(TaskMoves(s, t, stream, said, status))
  {
    var r := TaskMoves(s, t, stream, said, status);
    forall u | 0 <= u < |s.tasks|
      ensures TaskInvariant(r, u)
    {
      MoveKeepsTask(s, t, stream, said, status, u);
    }
    forall i | 0 <= i < |r.sent|
      ensures AuthorFits(r, r.sent[i])
    {
      assert i < |s.sent| ==> AuthorFits(s, s.sent[i]);
    }
  }

  lemma MoveKeepsTask(s: Conn, t: nat, stream: P.Stream, said: Option<ServerEvent>, status: Status, u: nat)
    requires t < |s.tasks| && u < |s.tasks| && TaskInvariant(s, u)
    requires Advances(s.tasks[t].status, status) && P.Invariant(stream) && P.CanRun(stream)
    requires status == Done(Dropped) ==> !s.open
    ensures TaskInvariant(TaskMoves(s, t, stream, said, status), u)
  {
    if said.Some? {
      Append(s.sent, Sent(By(t), said.value), u);
    } else {
      assert s.sent + [] == s.sent && s.tasks[t].log + [] == s.tasks[t].log;
    }
  }

  function Log(said: Option<ServerEvent>): seq<ServerEvent> {
    if said.Some? then [said.value] else []
  }

  function News(t: nat, said: Option<ServerEvent>): seq<Sent> {
    if said.Some? then [Sent(By(t), said.value)] else []
  }

  function TaskMoves(s: Conn, t: nat, stream: P.Stream, said: Option<ServerEvent>, status: Status): Conn
    requires t < |s.tasks|
  {
    var task := s.tasks[t].(stream := stream, log := s.tasks[t].log + Log(said), status := status);
    s.(tasks := s.tasks[t := task], sent := s.sent + News(t, said))
  }

  lemma SayThenMoves(s: Conn, t: nat, event: ServerEvent, status: Status)
    requires t < |s.tasks|
    ensures SayThen(s, t, event, status) ==
              if s.open then TaskMoves(s, t, s.tasks[t].stream, Some(event), status)
              else TaskMoves(s, t, s.tasks[t].stream, None, Done(Dropped))
    ensures SetStatus(s, t, status) == TaskMoves(s, t, s.tasks[t].stream, None, status)
    ensures AgentSays(s, t, event) ==
              TaskMoves(s, t, s.tasks[t].stream, if s.open then Some(event) else None, s.tasks[t].status)
  {
    assert s.tasks[t].log + [] == s.tasks[t].log;
    assert s.sent + [] == s.sent;
    assert s.tasks[t := s.tasks[t]] == s.tasks;
    var spoken := s.tasks[t].(log := s.tasks[t].log + [event]);
    assert s.tasks[t := spoken][t := spoken.(status := status)] == s.tasks[t := spoken.(status := status)];
  }

  lemma ReceiveKeepsBase(s: Conn, m: ClientMessage, stream: P.Stream, available: bool)
    requires Base(s) && s.phase.Receiving? && P.Invariant(stream) && P.CanRun(stream)
    ensures Base(Receive(s, m, stream, available))
  {
    match m
    case Ping => ReplyKeepsBase(s, Pong);
    case Cancel(request) =>
      if Busy(s) && s.activeRequest == Some(request) {
        BeginCancelKeepsBase(s, true);
      } else {
        ReplyKeepsBase(s, Error(request, NOT_FOUND));
      }
    case _ => SubmissionKeepsBase(s, m, stream, available);
  }

  lemma SubmissionKeepsBase(s: Conn, m: ClientMessage, stream: P.Stream, available: bool)
    requires Base(s) && s.phase.Receiving? && P.Invariant(stream) && P.CanRun(stream)
    requires IsSubmission(m)
    ensures Base(Receive(s, m, stream, available))
  {
    if Busy(s) {
      ReplyKeepsBase(s, Error(m.request, IN_PROGRESS));
    } else if m.AgentExecute? && !available {
      ReplyKeepsBase(s, Error(m.request, UNAVAILABLE));
    } else {
      CreateKeepsBase(s, m, stream);
    }
  }

  lemma CleanupKeepsBase(s: Conn)
    requires Base(s) && s.phase.Cleanup?
    ensures Base(EnterCleanup(s))
  {
    if Busy(s) {
      BeginCancelKeepsBase(s, false);
    } else {
      PhaseKeepsBase(s, s.(phase := Stopped));
    }
  }

  lemma HandlerKeepsBase(s: Conn, step: Step)
    requires Base(s)
    requires !IsTaskStep(step)
    ensures Base(Next(s, step))
  {
    match step
    case HandlerReceives(m, maxRetries, baseDelay, available) =>
      if s.phase.Receiving? {
        ReceiveKeepsBase(s, m, P.Start(maxRetries, baseDelay), available);
      }
    case HandlerReceivesInvalid(request) =>
      if s.phase.Receiving? {
        ReplyKeepsBase(s, Error(request, INVALID_REQUEST));
      }
    case HandlerResumes =>
      if s.phase.AwaitingCancel? && Finished(s, s.phase.task) {
        AfterCancelKeepsBase(s, s.phase.task, s.phase.ack);
      }
    case HandlerCleansUp =>
      if s.phase.Cleanup? {
        CleanupKeepsBase(s);
      }
    case _ => PhaseKeepsBase(s, Next(s, step));
  }

  /** One move of task t, as a step that leads from s to r. */
  ghost predicate IsMove(s: Conn, r: Conn, t: nat, stream: P.Stream, said: Option<ServerEvent>, status: Status) {
    && t < |s.tasks|
    && r == TaskMoves(s, t, stream, said, status)
    && Advances(s.tasks[t].status, status)
    && P.Invariant(stream) && P.CanRun(stream)
    && (status == Done(Dropped) ==> !s.open)
    && TaskLog(r.tasks[t])
    && (said.Some? ==> s.open && SaidBy(s.tasks[t], said.value))
    && StreamGrows(s.tasks[t].stream, stream)
  }

  ghost predicate StreamGrows(a: P.Stream, b: P.Stream) {
    P.Yielded(a) <= P.Yielded(b) && (a.result.Some? ==> b == a)
  }

  lemma ReadingMove(s: Conn, t: nat, event: P.NetEvent)
    returns (stream: P.Stream, said: Option<ServerEvent>, status: Status)
    requires Invariant(s) && Live(s, t, ChatTask) && s.tasks[t].stream.result.None?
    ensures IsMove(s, Next(s, Reads(t, event)), t, stream, said, status)
  {
    var task := s.tasks[t];
    assert TaskInvariant(s, t) && task in s.tasks;
    stream := P.Next(task.stream, event);
    P.NextKeepsInvariant(task.stream, event);
    ReadingChunk(task.stream, event);
    var m := SetTask(s, t, task.(stream := stream));
    match NewChunk(task.stream, event)
    case None =>
      said, status := None, Streaming;
      MoveOf(s, m, t, None, Streaming);
    case Some(text) =>
      var chunk := Chunk(task.request, text);
      assert Opening(task.request, stream) == Opening(task.request, task.stream) + [chunk];
      said, status := if s.open then Some(chunk) else None, if s.open then Streaming else Done(Dropped);
      SayThenMoves(m, t, chunk, Streaming);
      MoveOf(s, m, t, said, status);
  }

  lemma ReadingChunk(stream: P.Stream, event: P.NetEvent)
    requires P.Invariant(stream) && stream.result.None? && P.CanRun(stream)
    ensures var chunk := NewChunk(stream, event);
            P.Yielded(P.Next(stream, event)) == P.Yielded(stream) + if chunk.Some? then [chunk.value] else []
  {
    P.NextKeepsInvariant(stream, event);
    P.YieldedIsLastAttempt(stream);
    P.YieldedIsLastAttempt(P.Next(stream, event));
  }

  /** Changing the stream first and moving afterwards is one move. */
  lemma MoveOf(s: Conn, m: Conn, t: nat, said: Option<ServerEvent>, status: Status)
    requires t < |s.tasks| && t < |m.tasks| && m == s.(tasks := s.tasks[t := s.tasks[t].(stream := m.tasks[t].stream)])
    ensures TaskMoves(m, t, m.tasks[t].stream, said, status) == TaskMoves(s, t, m.tasks[t].stream, said, status)
    ensures TaskMoves(s, t, m.tasks[t].stream, None, s.tasks[t].status) == m
  {
    assert s.tasks[t].log + [] == s.tasks[t].log && s.sent + [] == s.sent;
  }

  /** Saying something, or dropping out when nobody listens, is a move. */
  lemma SayingMove(s: Conn, t: nat, event: ServerEvent, next: Status)
    returns (said: Option<ServerEvent>, status: Status)
    requires Invariant(s) && t < |s.tasks| && Advances(s.tasks[t].status, next)
    requires TaskLog(s.tasks[t].(status := Done(Dropped)))
    requires next != Done(Dropped) && SaidBy(s.tasks[t], event)
    requires TaskLog(s.tasks[t].(log := s.tasks[t].log + [event], status := next))
    ensures IsMove(s, SayThen(s, t, event, next), t, s.tasks[t].stream, said, status)
  {
    assert TaskInvariant(s, t) && s.tasks[t] in s.tasks;
    SayThenMoves(s, t, event, next);
    said, status := if s.open then Some(event) else None, if s.open then next else Done(Dropped);
  }

  lemma TaskStepMoves(s: Conn, step: Step)
    returns (stream: P.Stream, said: Option<ServerEvent>, status: Status)
    requires Invariant(s)
    requires IsTaskStep(step)
    requires Next(s, step) != s
    ensures IsMove(s, Next(s, step), step.task, stream, said, status)
  {
    var t := step.task;
    stream := s.tasks[t].stream;
    match step
    case Reads(_, event) => stream, said, status := ReadingMove(s, t, event);
    case Starts(_) => said, status := StartingMove(s, t);
    case Concludes(_) => said, status := ConcludingMove(s, t);
    case Emits(_, event) => said, status := EmittingMove(s, t, event);
    case AgentReturns(_) => said, status := ReturningMove(s, t);
    case AgentRaises(_) => said, status := RaisingMove(s, t);
    case Survives(_) => stream, said, status := SurvivingMove(s, t);
    case Unwinds(_, raised) => said, status := UnwindingMove(s, t, raised);
  }

  lemma StartingMove(s: Conn, t: nat) returns (said: Option<ServerEvent>, status: Status)
    requires Invariant(s) && t < |s.tasks| && s.tasks[t].status == Waiting
    ensures IsMove(s, Next(s, Starts(t)), t, s.tasks[t].stream, said, status)
  {
    var task := s.tasks[t];
    assert TaskInvariant(s, t) && task in s.tasks;
    if task.kind == ChatTask {
      assert Chunks(task.request, []) == [];
      said, status := SayingMove(s, t, Started(task.request, MODEL), Streaming);
    } else {
      said, status := None, Streaming;
      SayThenMoves(s, t, Pong, Streaming);
    }
  }

  lemma ConcludingMove(s: Conn, t: nat) returns (said: Option<ServerEvent>, status: Status)
    requires Invariant(s) && Live(s, t, ChatTask) && s.tasks[t].stream.result.Some?
    ensures IsMove(s, Next(s, Concludes(t)), t, s.tasks[t].stream, said, status)
  {
    var task := s.tasks[t];
    assert TaskInvariant(s, t) && task in s.tasks;
    if task.stream.result == Some(P.Returned) {
      said, status := SayingMove(s, t, Completed(task.request, MODEL), Done(Succeeded));
    } else {
      said, status := SayingMove(s, t, Error(task.request, STREAM_FAILED), Done(Errored));
    }
  }

  lemma EmittingMove(s: Conn, t: nat, event: ServerEvent) returns (said: Option<ServerEvent>, status: Status)
    requires Invariant(s) && MayEmit(s, t) && IsWorkflowEvent(event, s.tasks[t].request)
    ensures IsMove(s, Next(s, Emits(t, event)), t, s.tasks[t].stream, said, status)
  {
    assert TaskInvariant(s, t) && s.tasks[t] in s.tasks;
    said, status := if s.open then Some(event) else None, s.tasks[t].status;
    SayThenMoves(s, t, event, Streaming);
  }

  lemma ReturningMove(s: Conn, t: nat) returns (said: Option<ServerEvent>, status: Status)
    requires Invariant(s) && Live(s, t, AgentTask)
    ensures IsMove(s, Next(s, AgentReturns(t)), t, s.tasks[t].stream, said, status)
  {
    assert TaskInvariant(s, t) && s.tasks[t] in s.tasks;
    said, status := None, Done(Succeeded);
    SayThenMoves(s, t, Pong, Done(Succeeded));
  }

  lemma RaisingMove(s: Conn, t: nat) returns (said: Option<ServerEvent>, status: Status)
    requires Invariant(s) && Live(s, t, AgentTask)
    ensures IsMove(s, Next(s, AgentRaises(t)), t, s.tasks[t].stream, said, status)
  {
    var task := s.tasks[t];
    assert TaskInvariant(s, t) && task in s.tasks;
    assert (task.log + [Error(task.request, AGENT_FAILED)])[..|task.log|] == task.log;
    said, status := SayingMove(s, t, Error(task.request, AGENT_FAILED), Done(Errored));
  }

  lemma SurvivingMove(s: Conn, t: nat)
    returns (stream: P.Stream, said: Option<ServerEvent>, status: Status)
    requires Invariant(s) && MaySurvive(s, t)
    ensures IsMove(s, Next(s, Survives(t)), t, stream, said, status)
  {
    var task := s.tasks[t];
    assert TaskInvariant(s, t) && task in s.tasks;
    stream, said, status := task.stream, None, Streaming;
    if task.kind == ChatTask {
      stream := P.Retry(task.stream);
      P.RetryKeepsInvariant(task.stream);
      P.YieldedIsLastAttempt(task.stream);
      P.YieldedIsLastAttempt(stream);
    }
    assert task.log + [] == task.log && s.sent + [] == s.sent;
  }

  lemma UnwindingMove(s: Conn, t: nat, raised: bool) returns (said: Option<ServerEvent>, status: Status)
    requires Invariant(s) && t < |s.tasks| && s.tasks[t].status.Cancelling?
    ensures IsMove(s, Next(s, Unwinds(t, raised)), t, s.tasks[t].stream, said, status)
  {
    var task := s.tasks[t];
    assert TaskInvariant(s, t) && task in s.tasks;
    var event := Error(task.request, if task.kind == ChatTask then STREAM_FAILED else AGENT_FAILED);
    if task.status.started && raised {
      UnwoundLogs(task);
      said, status := SayingMove(s, t, event, Done(Unwound(true)));
    } else {
      said, status := None, Done(Unwound(false));
      SayThenMoves(s, t, event, Done(Unwound(false)));
    }
  }

  /** The log of a running task that answers its cancellation with an error, or drops out when nobody is there. */
  lemma UnwoundLogs(task: Task)
    requires TaskLog(task) && task.status == Cancelling(true)
    ensures TaskLog(task.(status := Done(Dropped)))
    ensures
      var event := Error(task.request, if task.kind == ChatTask then STREAM_FAILED else AGENT_FAILED);
      TaskLog(task.(log := task.log + [event], status := Done(Unwound(true))))
  {
    assert (task.log + [Error(task.request, AGENT_FAILED)])[..|task.log|] == task.log;
  }

  lemma NextKeepsInvariant(s: Conn, step: Step)
    requires Invariant(s)
    ensures Invariant(Next(s, step))
  {
    if IsTaskStep(step) {
      MoveKeepsInvariant(s, step);
    } else {
      HandlerKeepsBase(s, step);
      HandlerKeepsTaskLogs(s, step);
    }
  }

  lemma MoveKeepsInvariant(s: Conn, step: Step)
    requires Invariant(s)
    requires IsTaskStep(step)
    ensures Invariant(Next(s, step))
  {
    if Next(s, step) != s {
      var stream, said, status := TaskStepMoves(s, step);
      TaskKeepsBase(s, step.task, stream, said, status);
    }
  }

  lemma BeginCancelKeepsTaskLogs(s: Conn, ack: bool)
    requires Invariant(s) && Busy(s) && !s.phase.AwaitingCancel?
    ensures TaskLogs(BeginCancel(s, ack))
  {
    var t, r := s.active.value, BeginCancel(s, ack);
    assert s.tasks[t] in s.tasks && TaskInvariant(s, t);
    assert TaskLog(r.tasks[t]);
    forall task | task in r.tasks
      ensures task in s.tasks || task == r.tasks[t]
    {
    }
  }

  lemma CreateKeepsTaskLogs(s: Conn, m: ClientMessage, stream: P.Stream)
    requires IsSubmission(m) && TaskLogs(s) && P.Yielded(stream) == []
    ensures TaskLogs(CreateTask(s, m, stream))
  {
    var r := CreateTask(s, m, stream);
    forall task | task in r.tasks
      ensures task in s.tasks || task == NewTask(m, stream)
    {
    }
  }

  lemma ReceiveKeepsTaskLogs(s: Conn, m: ClientMessage, stream: P.Stream, available: bool)
    requires Invariant(s) && s.phase.Receiving? && P.Yielded(stream) == []
    ensures TaskLogs(Receive(s, m, stream, available))
  {
    match m
    case Ping =>
    case Cancel(_) =>
      if Busy(s) {
        BeginCancelKeepsTaskLogs(s, true);
      }
    case _ => CreateKeepsTaskLogs(s, m, stream);
  }

  lemma NothingYielded(maxRetries: int, baseDelay: real)
    ensures P.Yielded(P.Start(maxRetries, baseDelay)) == []
  {
    P.ConcatOfEmpties([[]]);
  }

  lemma HandlerKeepsTaskLogs(s: Conn, step: Step)
    requires Invariant(s)
    requires !IsTaskStep(step)
    ensures TaskLogs(Next(s, step))
  {
    match step
    case HandlerReceives(m, maxRetries, baseDelay, available) =>
      if s.phase.Receiving? {
        NothingYielded(maxRetries, baseDelay);
        ReceiveKeepsTaskLogs(s, m, P.Start(maxRetries, baseDelay), available);
      }
    case HandlerCleansUp =>
      if s.phase.Cleanup? && Busy(s) {
        BeginCancelKeepsTaskLogs(s, false);
      }
    case _ =>
  }

  function Run(s: Conn, steps: seq<Step>): Conn
    decreases |steps|
  {
    if steps == [] then s else Run(Next(s, steps[0]), steps[1..])
  }

  lemma {:induction false} RunKeepsInvariant(s: Conn, steps: seq<Step>)
    requires Invariant(s)
    ensures Invariant(Run(s, steps))
    decreases |steps|
  {
    if steps != [] {
      NextKeepsInvariant(s, steps[0]);
      RunKeepsInvariant(Next(s, steps[0]), steps[1..]);
    }
  }

  lemma InitialInvariant()
    ensures Invariant(Initial)
  {
  }

  // ---------------------------------------------------------------- what every connection guarantees

  /** At most one task is unfinished; it is the last one created, and the loop's two variables name it. */
  lemma OneTaskAtATime(steps: seq<Step>, t: nat)
    requires t < |Run(Initial, steps).tasks| && !Finished(Run(Initial, steps), t)
    ensures var s := Run(Initial, steps);
            && s.active == Some(t) && s.activeRequest == Some(s.tasks[t].request)
            && (forall u :: 0 <= u < |s.tasks| && !Finished(s, u) ==> u == t)
            && s.phase != Receiving(true) && !s.phase.Stopped?
  {
    InitialInvariant();
    RunKeepsInvariant(Initial, steps);
    var s := Run(Initial, steps);
    assert Busy(s);
  }

  // ---------------------------------------------------------------- what one message does

  ghost predicate NoneUnfinished(s: Conn) {
    forall t :: 0 <= t < |s.tasks| ==> Finished(s, t)
  }

  /** The loop answers and takes the next message; on a dead connection it leaves instead. No task notices. */
  predicate OnlyAnswers(s: Conn, n: Conn, event: ServerEvent) {
    && n.tasks == s.tasks && n.open == s.open
    && n.sent == s.sent + (if s.open then [Sent(Handler, event)] else [])
    && n.phase == (if s.open then Top else Cleanup)
  }

  /** Task t alone is asked to stop, and the loop waits for it; nothing is sent yet. */
  predicate OnlyCancels(s: Conn, n: Conn, t: nat, ack: bool) {
    && t < |s.tasks| == |n.tasks| && n.open == s.open && n.sent == s.sent && n.phase == AwaitingCancel(t, ack)
    && n.tasks[t] == s.tasks[t].(cancelled := true, status := Cancelling(s.tasks[t].status == Streaming))
    && forall u :: 0 <= u < |s.tasks| && u != t ==> n.tasks[u] == s.tasks[u]
  }

  lemma Reached(steps: seq<Step>)
    ensures Invariant(Run(Initial, steps))
  {
    InitialInvariant();
    RunKeepsInvariant(Initial, steps);
  }

  /** The one unfinished task of a connection has been asked to stop only while the loop waits for it. */
  lemma UnfinishedTask(s: Conn, t: nat)
    requires Invariant(s) && t < |s.tasks| && !Finished(s, t)
    ensures Busy(s) && s.active == Some(t) && s.activeRequest == Some(s.tasks[t].request)
    ensures !s.phase.AwaitingCancel? ==> s.tasks[t].status in {Waiting, Streaming} && !s.tasks[t].cancelled
  {
    assert TaskInvariant(s, t);
  }

  lemma BusyHasUnfinished(s: Conn)
    requires Invariant(s)
    ensures Busy(s) <==> !NoneUnfinished(s)
  {
    if exists t :: 0 <= t < |s.tasks| && !Finished(s, t) {
      var t :| 0 <= t < |s.tasks| && !Finished(s, t);
      UnfinishedTask(s, t);
    }
  }

  /**
   In every run, a cancellation stops the unfinished task of the request it names and touches no
   other; when there is no such task, it is answered as not found and every task stays as it is.
   */
  lemma CancelStopsItsRequest(steps: seq<Step>, r: RequestId, maxRetries: int, baseDelay: real, available: bool)
    requires Run(Initial, steps).phase.Receiving?
    ensures
      var s := Run(Initial, steps);
      var n := Next(s, HandlerReceives(Cancel(r), maxRetries, baseDelay, available));
      && (forall t :: 0 <= t < |s.tasks| && !Finished(s, t) && s.tasks[t].request == r ==> OnlyCancels(s, n, t, true))
      && ((forall t :: 0 <= t < |s.tasks| && s.tasks[t].request == r ==> Finished(s, t)) ==>
            OnlyAnswers(s, n, Error(r, NOT_FOUND)))
  {
    var s := Run(Initial, steps);
    Reached(steps);
    forall t | 0 <= t < |s.tasks| && !Finished(s, t)
      ensures Busy(s) && s.active == Some(t) && s.activeRequest == Some(s.tasks[t].request)
      ensures s.tasks[t].status in {Waiting, Streaming}
    {
      UnfinishedTask(s, t);
    }
  }

  /** n has a task for submission m, not yet begun, behind those of s. */
  predicate OnlyCreates(s: Conn, n: Conn, m: ClientMessage, stream: P.Stream) {
    && |n.tasks| == |s.tasks| + 1 && n.tasks[..|s.tasks|] == s.tasks && n.open == s.open && n.sent == s.sent
    && n.phase == Top
    && var task := n.tasks[|s.tasks|];
       && task.message == m && !m.Ping? && task.request == m.request && (task.kind == ChatTask <==> m.Chat?)
       && task.status == Waiting && !task.cancelled && task.stream == stream && task.log == []
  }

  /**
   In every run, a submission is turned down while a task is unfinished, an agent execution also when
   no agents are available; any other gets a task of its own, which holds the whole message.
   */
  lemma SubmissionIsServed(steps: seq<Step>, m: ClientMessage, maxRetries: int, baseDelay: real, available: bool)
    requires Run(Initial, steps).phase.Receiving? && (m.Chat? || m.AgentExecute?)
    ensures
      var s := Run(Initial, steps);
      var n := Next(s, HandlerReceives(m, maxRetries, baseDelay, available));
      if !NoneUnfinished(s) then OnlyAnswers(s, n, Error(m.request, IN_PROGRESS))
      else if m.AgentExecute? && !available then OnlyAnswers(s, n, Error(m.request, UNAVAILABLE))
      else OnlyCreates(s, n, m, P.Start(maxRetries, baseDelay))
  {
    Reached(steps);
    BusyHasUnfinished(Run(Initial, steps));
  }

  /** The idle timeout runs exactly while every task is finished. */
  lemma IdleMeansFinished(steps: seq<Step>)
    requires Run(Initial, steps).phase.Top?
    ensures
      var s := Run(Initial, steps); var n := Next(s, HandlerLoops);
      && n.tasks == s.tasks && n.sent == s.sent && n.open == s.open
      && n.phase.Receiving? && (n.phase.idle <==> NoneUnfinished(s))
  {
    Reached(steps);
    BusyHasUnfinished(Run(Initial, steps));
  }

  /** A frame that is JSON but not valid is answered; one that is not JSON, or the peer's leaving, ends the loop. */
  lemma BadFrames(steps: seq<Step>, request: RequestId)
    requires Run(Initial, steps).phase.Receiving?
    ensures
      var s := Run(Initial, steps);
      && OnlyAnswers(s, Next(s, HandlerReceivesInvalid(request)), Error(request, INVALID_REQUEST))
      && Next(s, HandlerReceivesNoJson) == s.(phase := Cleanup)
      && Next(s, HandlerSeesDisconnect) == if s.open then s else s.(phase := Cleanup)
  {
  }

  /**
   The loop goes on when the task it waits for has finished, and not before: with the acknowledgement of
   that task if a client asked for it and the peer is there to hear it, and otherwise on its way out.
   */
  lemma ResumeAcknowledges(steps: seq<Step>)
    requires Run(Initial, steps).phase.AwaitingCancel?
    ensures
      var s := Run(Initial, steps); var n := Next(s, HandlerResumes); var t := s.phase.task;
      if !Finished(s, t) then n == s
      else
        && n.tasks == s.tasks && n.open == s.open
        && if s.phase.ack && s.open then
             && n.sent == s.sent + [Sent(About(t), Cancelled(s.tasks[t].request))]
             && n.phase == Top && n.active.None? && n.activeRequest.None?
           else n.sent == s.sent && n.phase == if s.phase.ack then Cleanup else Stopped
  {
    Reached(steps);
    var s := Run(Initial, steps);
    assert s.phase.task < |s.tasks| ==> TaskInvariant(s, s.phase.task);
  }

  /** A loop on its way out cancels the task that is still unfinished and waits for it, and sends nothing more. */
  lemma CleanupStopsTheTask(steps: seq<Step>)
    requires Run(Initial, steps).phase.Cleanup?
    ensures
      var s := Run(Initial, steps); var n := Next(s, HandlerCleansUp);
      && (forall t :: 0 <= t < |s.tasks| && !Finished(s, t) ==> OnlyCancels(s, n, t, false))
      && (NoneUnfinished(s) ==> n == s.(phase := Stopped))
  {
    var s := Run(Initial, steps);
    Reached(steps);
    BusyHasUnfinished(s);
    forall t | 0 <= t < |s.tasks| && !Finished(s, t)
      ensures s.active == Some(t) && s.tasks[t].status in {Waiting, Streaming}
    {
      UnfinishedTask(s, t);
    }
  }

  /** A chat task that survives its cancellation has counted it as a failed attempt, and makes the next one. */
  lemma SurvivorTriesAgain(steps: seq<Step>, t: nat)
    requires MaySurvive(Run(Initial, steps), t) && Run(Initial, steps).tasks[t].kind == ChatTask
    ensures
      var a := Run(Initial, steps).tasks[t].stream; var b := Next(Run(Initial, steps), Survives(t)).tasks[t].stream;
      && b.attempt == a.attempt + 1 <= b.maxRetries == a.maxRetries && b.result.None?
      && P.Yielded(a) == P.Yielded(b) == [] && |b.sleeps| == |a.sleeps| + 1
  {
    Reached(steps);
    var s := Run(Initial, steps);
    assert TaskInvariant(s, t);
    P.RetryKeepsInvariant(s.tasks[t].stream);
    P.YieldedIsLastAttempt(s.tasks[t].stream);
    P.YieldedIsLastAttempt(P.Retry(s.tasks[t].stream));
  }

  // ---------------------------------------------------------------- acknowledgements answer cancellations

  /**
   Step number k receives the cancellation of the request of task t, unfinished then; sent says how much
   was sent by then.
   */
  ghost predicate Cancels(steps: seq<Step>, k: nat, t: nat, r: RequestId, sent: nat)
    requires k < |steps|
  {
    var s := Run(Initial, steps[..k]);
    && steps[k].HandlerReceives? && steps[k].message == Cancel(r) && s.phase.Receiving?
    && t < |s.tasks| && !Finished(s, t) && s.tasks[t].request == r && |s.sent| <= sent
  }

  ghost predicate IsCancelled(steps: seq<Step>, t: nat, r: RequestId, sent: nat) {
    exists k :: 0 <= k < |steps| && Cancels(steps, k, t, r, sent)
  }

  lemma LaterStillCancelled(steps: seq<Step>, step: Step, t: nat, r: RequestId, sent: nat, more: nat)
    requires IsCancelled(steps, t, r, sent) && sent <= more
    ensures IsCancelled(steps + [step], t, r, more)
  {
    var k :| 0 <= k < |steps| && Cancels(steps, k, t, r, sent);
    assert (steps + [step])[..k] == steps[..k];
    assert Cancels(steps + [step], k, t, r, more);
  }

  ghost predicate AcksAnswer(steps: seq<Step>, s: Conn) {
    && (s.phase.AwaitingCancel? && s.phase.ack && s.phase.task < |s.tasks| ==>
          IsCancelled(steps, s.phase.task, s.tasks[s.phase.task].request, |s.sent|))
    && (forall i :: 0 <= i < |s.sent| && s.sent[i].author.About? && s.sent[i].author.task < |s.tasks| ==>
          IsCancelled(steps, s.sent[i].author.task, s.tasks[s.sent[i].author.task].request, i))
  }

  /**
   The loop begins to wait, for a client, only by receiving the cancellation; it acknowledges only what
   it waited for.
   */
  lemma WhoIsAwaited(s: Conn, step: Step)
    requires Invariant(s)
    ensures
      var n := Next(s, step);
      && |s.tasks| <= |n.tasks| && s.sent <= n.sent
      && (forall t :: 0 <= t < |s.tasks| ==> n.tasks[t].request == s.tasks[t].request)
      && (n.phase.AwaitingCancel? && n.phase.ack && n.phase != s.phase ==>
            && step.HandlerReceives? && s.phase.Receiving? && n.phase.task < |s.tasks| && !Finished(s, n.phase.task)
            && step.message == Cancel(s.tasks[n.phase.task].request))
      && (forall i :: |s.sent| <= i < |n.sent| && n.sent[i].author.About? ==>
            s.phase == AwaitingCancel(n.sent[i].author.task, true) && n.sent[i].author.task < |s.tasks|)
  {
    if IsTaskStep(step) {
      if Next(s, step) != s {
        var stream, said, status := TaskStepMoves(s, step);
        MoveAwaitsNobody(s, Next(s, step), step.task, stream, said, status);
      }
    } else if step.HandlerReceives? && s.phase.Receiving? {
      ReceivingAwaits(s, step);
    } else {
      LoopMoves(s, step);
    }
  }

  lemma MoveAwaitsNobody(s: Conn, n: Conn, t: nat, stream: P.Stream, said: Option<ServerEvent>, status: Status)
    requires IsMove(s, n, t, stream, said, status)
    ensures
      && |s.tasks| == |n.tasks| && s.sent <= n.sent && n.phase == s.phase
      && (forall u :: 0 <= u < |s.tasks| ==> n.tasks[u].request == s.tasks[u].request)
      && (forall i :: |s.sent| <= i < |n.sent| ==> !n.sent[i].author.About?)
  {
  }

  lemma ReceivingAwaits(s: Conn, step: Step)
    requires Invariant(s) && step.HandlerReceives? && s.phase.Receiving?
    ensures
      var n := Next(s, step);
      && |s.tasks| <= |n.tasks| && s.sent <= n.sent
      && (forall t :: 0 <= t < |s.tasks| ==> n.tasks[t].request == s.tasks[t].request)
      && (n.phase.AwaitingCancel? ==>
            && n.phase.task < |s.tasks| && !Finished(s, n.phase.task)
            && step.message == Cancel(s.tasks[n.phase.task].request))
      && (forall i :: |s.sent| <= i < |n.sent| ==> !n.sent[i].author.About?)
  {
    var news := ReceivingAdds(s, step.message, step.maxRetries, step.baseDelay, step.available);
  }

  lemma LoopMoves(s: Conn, step: Step)
    requires Invariant(s) && !IsTaskStep(step) && !(step.HandlerReceives? && s.phase.Receiving?)
    ensures
      var n := Next(s, step);
      && |s.tasks| == |n.tasks| && s.sent <= n.sent
      && (forall t :: 0 <= t < |s.tasks| ==> n.tasks[t].request == s.tasks[t].request)
      && (n.phase.AwaitingCancel? && n.phase.ack ==> n.phase == s.phase)
      && (forall i :: |s.sent| <= i < |n.sent| && n.sent[i].author.About? ==>
            s.phase == AwaitingCancel(n.sent[i].author.task, true) && n.sent[i].author.task < |s.tasks|)
  {
  }

  lemma StepAcksAnswer(steps: seq<Step>, step: Step)
    requires var s := Run(Initial, steps); Invariant(s) && AcksAnswer(steps, s)
    ensures AcksAnswer(steps + [step], Next(Run(Initial, steps), step))
  {
    var s := Run(Initial, steps);
    var n := Next(s, step);
    var all := steps + [step];
    WhoIsAwaited(s, step);
    assert all[..|steps|] == steps;
    if n.phase.AwaitingCancel? && n.phase.ack && n.phase.task < |n.tasks| {
      var t := n.phase.task;
      if n.phase == s.phase {
        assert t < |s.tasks|;
        LaterStillCancelled(steps, step, t, s.tasks[t].request, |s.sent|, |n.sent|);
      } else {
        assert Cancels(all, |steps|, t, n.tasks[t].request, |n.sent|);
      }
    }
    forall i | 0 <= i < |n.sent| && n.sent[i].author.About? && n.sent[i].author.task < |n.tasks|
      ensures IsCancelled(all, n.sent[i].author.task, n.tasks[n.sent[i].author.task].request, i)
    {
      var t := n.sent[i].author.task;
      if i < |s.sent| {
        assert AuthorFits(s, s.sent[i]);
        LaterStillCancelled(steps, step, t, s.tasks[t].request, i, i);
      } else {
        LaterStillCancelled(steps, step, t, s.tasks[t].request, |s.sent|, i);
      }
    }
  }

  lemma {:induction false} RunAcksAnswer(steps: seq<Step>)
    ensures AcksAnswer(steps, Run(Initial, steps))
    decreases |steps|
  {
    if steps != [] {
      var n := |steps| - 1;
      RunAcksAnswer(steps[..n]);
      Reached(steps[..n]);
      StepAcksAnswer(steps[..n], steps[n]);
      RunConcat(Initial, steps[..n], [steps[n]]);
      RunSome(Run(Initial, steps[..n]), [steps[n]]);
      assert steps == steps[..n] + [steps[n]];
    }
  }

  /**
   Every acknowledgement answers a cancellation of its own request: at some step before it was sent,
   when the task it speaks of was unfinished, the loop received Cancel with that task's request.
   */
  lemma AcksAnswerCancels(steps: seq<Step>, i: nat, t: nat)
    requires i < |Run(Initial, steps).sent| && Run(Initial, steps).sent[i].author == About(t)
    ensures
      var s := Run(Initial, steps);
      && t < |s.tasks| && s.sent[i].event == Cancelled(s.tasks[t].request)
      && exists k :: 0 <= k < |steps| && Cancels(steps, k, t, s.tasks[t].request, i)
  {
    Reached(steps);
    RunAcksAnswer(steps);
    assert AuthorFits(Run(Initial, steps), Run(Initial, steps).sent[i]);
  }

  /** Own events of a chat task: started, then the provider's chunks in order, then at most one end. */
  lemma ChatTaskProtocol(steps: seq<Step>, t: nat)
    requires t < |Run(Initial, steps).tasks| && Run(Initial, steps).tasks[t].kind == ChatTask
    ensures var s := Run(Initial, steps); var task := s.tasks[t]; var own := Own(s.sent, t);
            var opening := Opening(task.request, task.stream);
            && (own <= opening + [Completed(task.request, MODEL)] ||
                 own <= opening + [Error(task.request, STREAM_FAILED)])
            && (Completed(task.request, MODEL) in own ==>
                  own == opening + [Completed(task.request, MODEL)] && task.stream.result == Some(P.Returned))
  {
    InitialInvariant();
    RunKeepsInvariant(Initial, steps);
    var s := Run(Initial, steps);
    assert TaskInvariant(s, t) && s.tasks[t] in s.tasks;
    NoEndInOpening(s.tasks[t].request, s.tasks[t].stream);
  }

  /** Own events of an agent task: workflow events about its request, and at most one error, at their end. */
  lemma AgentTaskProtocol(steps: seq<Step>, t: nat)
    requires t < |Run(Initial, steps).tasks| && Run(Initial, steps).tasks[t].kind == AgentTask
    ensures
      var s := Run(Initial, steps); var task := s.tasks[t]; var own := Own(s.sent, t); var n := |own|;
      && (forall j :: 0 <= j < n ==>
           IsWorkflowEvent(own[j], task.request) || (j == n - 1 && own[j] == Error(task.request, AGENT_FAILED)))
      && (n > 0 && own[n - 1].Error? <==> task.status in {Done(Errored), Done(Unwound(true))})
  {
    Reached(steps);
    var s := Run(Initial, steps);
    assert TaskInvariant(s, t) && s.tasks[t] in s.tasks;
    var log := s.tasks[t].log;
    assert |log| > 0 ==> log[|log| - 1] in log;
  }

  predicate IsEnd(event: ServerEvent) {
    event.Completed? || event.Error?
  }

  lemma NoEndInOpening(request: RequestId, stream: P.Stream)
    ensures forall event <- Opening(request, stream) :: !IsEnd(event)
  {
  }

  /** r continues s: news are appended, only unfinished tasks spoke, and finished tasks are as they were. */
  ghost predicate Continues(s: Conn, r: Conn, news: seq<Sent>) {
    && r.sent == s.sent + news
    && (forall x <- news :: x.author.By? ==> x.author.task < |s.tasks| && !Finished(s, x.author.task))
    && (|news| <= 1 || forall x <- news :: x.author.By?)
    && |s.tasks| <= |r.tasks|
    && (forall t :: 0 <= t < |s.tasks| && Finished(s, t) ==> r.tasks[t] == s.tasks[t])
  }

  lemma ReplyContinues(s: Conn, author: Author, event: ServerEvent)
    requires !author.By?
    ensures Continues(s, Reply(s, author, event), if s.open then [Sent(author, event)] else [])
  {
  }

  lemma HandlerContinues(s: Conn, step: Step) returns (news: seq<Sent>)
    requires Invariant(s)
    requires !IsTaskStep(step)
    ensures Continues(s, Next(s, step), news)
  {
    var r := Next(s, step);
    news := [];
    assert s.sent + [] == s.sent;
    match step
    case HandlerReceives(m, _, _, available) =>
      if s.phase.Receiving? && r.sent != s.sent {
        var event := if m.Ping? then Pong else r.sent[|s.sent|].event;
        ReplyContinues(s, Handler, event);
        news := [Sent(Handler, event)];
      }
    case HandlerReceivesInvalid(request) =>
      if s.phase.Receiving? {
        ReplyContinues(s, Handler, Error(request, INVALID_REQUEST));
        news := if s.open then [Sent(Handler, Error(request, INVALID_REQUEST))] else [];
      }
    case HandlerResumes =>
      if r.sent != s.sent {
        news := [r.sent[|s.sent|]];
      }
    case _ =>
  }

  lemma MoveContinues(s: Conn, r: Conn, t: nat, stream: P.Stream, said: Option<ServerEvent>, status: Status)
    requires IsMove(s, r, t, stream, said, status)
    ensures Continues(s, r, News(t, said))
  {
  }

  lemma StepContinues(s: Conn, step: Step) returns (news: seq<Sent>)
    requires Invariant(s)
    ensures Continues(s, Next(s, step), news)
  {
    if IsTaskStep(step) {
      assert s.sent + [] == s.sent;
      news := [];
      if Next(s, step) != s {
        var stream, said, status := TaskStepMoves(s, step);
        news := News(step.task, said);
        MoveContinues(s, Next(s, step), step.task, stream, said, status);
      }
    } else {
      news := HandlerContinues(s, step);
    }
  }

  /** After the cancellation of a task has been acknowledged, the log holds nothing more from it. */
  ghost predicate QuietAfterAck(sent: seq<Sent>) {
    forall i, j :: 0 <= i < j < |sent| && sent[i].author.About? ==> sent[j].author != By(sent[i].author.task)
  }

  lemma StepKeepsQuiet(s: Conn, step: Step)
    requires Invariant(s) && QuietAfterAck(s.sent)
    ensures QuietAfterAck(Next(s, step).sent)
  {
    var n := Next(s, step);
    var news := StepContinues(s, step);
    forall i, j | 0 <= i < j < |n.sent| && n.sent[i].author.About?
      ensures n.sent[j].author != By(n.sent[i].author.task)
    {
      if j >= |s.sent| {
        assert n.sent[j] in news;
        if i < |s.sent| {
          assert AuthorFits(s, s.sent[i]);
        }
      }
    }
  }

  lemma {:induction false} CancelledMeansSilent(s: Conn, steps: seq<Step>)
    requires Invariant(s) && QuietAfterAck(s.sent)
    ensures QuietAfterAck(Run(s, steps).sent)
    decreases |steps|
  {
    if steps != [] {
      StepKeepsQuiet(s, steps[0]);
      NextKeepsInvariant(s, steps[0]);
      CancelledMeansSilent(Next(s, steps[0]), steps[1..]);
    }
  }

  /** Whatever a task says, a report of its failure for one, it says before its cancellation is acknowledged. */
  lemma ReportsPrecedeAck(steps: seq<Step>, i: nat, t: nat)
    requires var s := Run(Initial, steps); i < |s.sent| && s.sent[i].author == About(t)
    ensures var s := Run(Initial, steps);
            && Finished(s, t)
            && (forall j :: 0 <= j < |s.sent| && s.sent[j].author == By(t) ==> j < i)
            && Own(s.sent[..i], t) == s.tasks[t].log
  {
    InitialInvariant();
    RunKeepsInvariant(Initial, steps);
    CancelledMeansSilent(Initial, steps);
    var s := Run(Initial, steps);
    SaidBeforeAck(s, i, t);
  }

  lemma SaidBeforeAck(s: Conn, i: nat, t: nat)
    requires Invariant(s) && QuietAfterAck(s.sent) && i < |s.sent| && s.sent[i].author == About(t)
    ensures Finished(s, t)
    ensures forall j :: 0 <= j < |s.sent| && s.sent[j].author == By(t) ==> j < i
    ensures Own(s.sent[..i], t) == s.tasks[t].log
  {
    assert AuthorFits(s, s.sent[i]) && TaskInvariant(s, t);
    OwnEndsBefore(s.sent, i, t);
  }

  /** Nothing of task t stands from position i on. */
  lemma {:induction false} OwnEndsBefore(sent: seq<Sent>, i: nat, t: nat)
    requires i <= |sent| && forall j :: i <= j < |sent| ==> sent[j].author != By(t)
    ensures Own(sent[..i], t) == Own(sent, t)
    decreases |sent|
  {
    if i < |sent| {
      OwnEndsBefore(sent[..|sent| - 1], i, t);
      assert sent[..|sent| - 1][..i] == sent[..i];
    } else {
      assert sent[..i] == sent;
    }
  }

  /** A finished task never speaks again. */
  lemma {:induction false} FinishedIsSilent(s: Conn, steps: seq<Step>, t: nat)
    requires Invariant(s) && Finished(s, t)
    ensures var r := Run(s, steps);
            s.sent <= r.sent && Finished(r, t) && r.tasks[t] == s.tasks[t] && Own(r.sent, t) == Own(s.sent, t)
    decreases |steps|
  {
    if steps != [] {
      var news := StepContinues(s, steps[0]);
      NextKeepsInvariant(s, steps[0]);
      FinishedIsSilent(Next(s, steps[0]), steps[1..], t);
    }
    RunKeepsInvariant(s, steps);
    assert TaskInvariant(s, t);
    assert TaskInvariant(Run(s, steps), t);
  }

  function Ends(events: seq<ServerEvent>): nat {
    if events == [] then 0
    else (if IsEnd(events[0]) then 1 else 0) + Ends(events[1..])
  }

  lemma {:induction false} EndsOfConcat(a: seq<ServerEvent>, b: seq<ServerEvent>)
    ensures Ends(a + b) == Ends(a) + Ends(b)
  {
    if a == [] {
      assert a + b == b;
    } else {
      assert (a + b)[1..] == a[1..] + b;
      EndsOfConcat(a[1..], b);
    }
  }

  lemma {:induction false} NoEnds(events: seq<ServerEvent>)
    requires forall event <- events :: !IsEnd(event)
    ensures Ends(events) == 0
  {
    if events != [] {
      NoEnds(events[1..]);
    }
  }

  /** A cancelled task that was running has the last word after all: it answers with an error, or goes on. */
  predicate Escapes(s: Conn, step: Step, t: nat) {
    (step == Unwinds(t, true) && CleansUp(s, t)) || (step == Survives(t) && MaySurvive(s, t))
  }

  predicate EscapesIn(s: Conn, steps: seq<Step>, t: nat)
    decreases |steps|
  {
    steps != [] && (Escapes(s, steps[0], t) || EscapesIn(Next(s, steps[0]), steps[1..], t))
  }

  /** Where a task stands that has escaped its cancellation. */
  predicate Escaped(task: Task) {
    task.cancelled && (task.status == Streaming || (task.status.Done? && task.status.end != Unwound(false)))
  }

  lemma StepEscapes(s: Conn, step: Step, t: nat)
    requires Invariant(s) && Next(s, step).open && t < |Next(s, step).tasks|
    ensures s.open
    ensures Escaped(Next(s, step).tasks[t]) <==> (t < |s.tasks| && Escaped(s.tasks[t])) || Escapes(s, step, t)
  {
    if !IsTaskStep(step) {
      HandlerEscapes(s, step, t);
    } else if Next(s, step) == s {
      EscapingMoves(s, step, t);
    } else {
      OneTaskSteps(s, step);
      if step.task == t {
        TaskEscapes(s, step);
      }
    }
  }

  lemma TaskEscapes(s: Conn, step: Step)
    requires IsTaskStep(step) && step.task < |s.tasks| && Next(s, step) != s && s.open && Invariant(s)
    requires step.task < |Next(s, step).tasks|
    ensures Escaped(Next(s, step).tasks[step.task]) <==> Escaped(s.tasks[step.task]) || Escapes(s, step, step.task)
  {
    assert TaskInvariant(s, step.task);
    if s.tasks[step.task].status.Cancelling? {
      CleaningEnd(s, step);
    } else {
      RunningEnd(s, step);
    }
  }

  lemma OneTaskSteps(s: Conn, step: Step)
    requires Invariant(s) && IsTaskStep(step) && Next(s, step) != s
    ensures var r := Next(s, step);
            && step.task < |s.tasks| == |r.tasks| && r.open == s.open
            && forall u :: 0 <= u < |s.tasks| && u != step.task ==> r.tasks[u] == s.tasks[u]
  {
    var stream, said, status := TaskStepMoves(s, step);
  }

  lemma EscapingMoves(s: Conn, step: Step, t: nat)
    ensures Escapes(s, step, t) ==> Next(s, step) != s
  {
    assert Escapes(s, step, t) ==> Next(s, step).tasks[t].status != s.tasks[t].status;
  }

  lemma HandlerEscapes(s: Conn, step: Step, t: nat)
    requires Invariant(s) && !IsTaskStep(step) && t < |Next(s, step).tasks|
    ensures Next(s, step).open ==> s.open
    ensures Escaped(Next(s, step).tasks[t]) <==> t < |s.tasks| && Escaped(s.tasks[t])
  {
    if t < |s.tasks| {
      assert TaskInvariant(s, t);
    }
  }

  /** How a step of an open connection leaves a cancelled task that takes it. */
  lemma CleaningEnd(s: Conn, step: Step)
    requires IsTaskStep(step) && step.task < |s.tasks| && Next(s, step) != s && s.open
    requires s.tasks[step.task].status.Cancelling?
    ensures step.task < |Next(s, step).tasks|
    ensures var a, b := s.tasks[step.task], Next(s, step).tasks[step.task];
            && b.cancelled == a.cancelled
            && if Escapes(s, step, step.task) then b.status in {Streaming, Done(Unwound(true))}
               else b.status in {a.status, Done(Unwound(false))}
  {
  }

  /** How a step of an open connection leaves any other task. */
  lemma RunningEnd(s: Conn, step: Step)
    requires IsTaskStep(step) && step.task < |s.tasks| && Next(s, step) != s && s.open
    requires !s.tasks[step.task].status.Cancelling?
    ensures step.task < |Next(s, step).tasks|
    ensures var a, b := s.tasks[step.task], Next(s, step).tasks[step.task];
            && b.cancelled == a.cancelled && !Escapes(s, step, step.task)
            && a.status in {Waiting, Streaming} && b.status in {Streaming, Done(Succeeded), Done(Errored)}
  {
  }

  lemma {:induction false} RunEscapes(s: Conn, steps: seq<Step>, t: nat)
    requires Invariant(s) && Run(s, steps).open && t < |Run(s, steps).tasks|
    ensures s.open
    ensures Escaped(Run(s, steps).tasks[t]) <==> (t < |s.tasks| && Escaped(s.tasks[t])) || EscapesIn(s, steps, t)
    decreases |steps|
  {
    if steps != [] {
      var n := Next(s, steps[0]);
      NextKeepsInvariant(s, steps[0]);
      RunEscapes(n, steps[1..], t);
      if t < |n.tasks| {
        StepEscapes(s, steps[0], t);
      } else {
        StaysOpen(s, steps[0]);
      }
    }
  }

  /** A connection that is open was open before, and tasks are not lost. */
  lemma StaysOpen(s: Conn, step: Step)
    requires Invariant(s) && Next(s, step).open
    ensures s.open && |s.tasks| <= |Next(s, step).tasks|
  {
    var news := StepContinues(s, step);
  }

  /**
   While the connection is open and served, every finished chat task has been given exactly one of
   completed, error and cancelled; two exactly when, on the way, a running task escaped its
   cancellation, by an error or by going on.
   */
  lemma OneOutcomePerChat(steps: seq<Step>, t: nat)
    requires var s := Run(Initial, steps);
             && s.open && (s.phase.Top? || s.phase.Receiving?)
             && Finished(s, t) && s.tasks[t].kind == ChatTask
    ensures var s := Run(Initial, steps);
            Ends(Own(s.sent, t)) + Acks(s.sent, t) == if EscapesIn(Initial, steps, t) then 2 else 1
  {
    InitialInvariant();
    RunKeepsInvariant(Initial, steps);
    RunEscapes(Initial, steps, t);
    var s := Run(Initial, steps);
    assert TaskInvariant(s, t) && s.tasks[t] in s.tasks;
    EndsOfLog(s.tasks[t]);
  }

  /** The log of a finished chat task ends with an outcome unless the task was cancelled quietly. */
  lemma EndsOfLog(task: Task)
    requires ChatLog(task) && task.status.Done? && task.status.end != Dropped
    ensures Ends(task.log) == if task.status.end == Unwound(false) then 0 else 1
  {
    var opening := Opening(task.request, task.stream);
    NoEndInOpening(task.request, task.stream);
    NoEnds(opening);
    EndsOfConcat(opening, [Completed(task.request, MODEL)]);
    EndsOfConcat(opening, [Error(task.request, STREAM_FAILED)]);
    assert Ends([Completed(task.request, MODEL)]) == 1 && Ends([Error(task.request, STREAM_FAILED)]) == 1;
  }

  // ---------------------------------------------------------------- two runs with two outcomes

  /** Request r is submitted, started and cancelled while it runs. */
  function CancelledChat(r: RequestId): seq<Step> {
    [HandlerLoops, HandlerReceives(Chat(r, "hello"), 1, 1.0, true), Starts(0),
     HandlerLoops, HandlerReceives(Cancel(r), 1, 1.0, true)]
  }

  const RaisingEnd := [Unwinds(0, true), HandlerResumes]

  const LateAnswer := [Survives(0), Reads(0, P.Arrives(P.DoneWithoutMessage)), Concludes(0), HandlerResumes]

  lemma {:induction false} RunConcat(s: Conn, a: seq<Step>, b: seq<Step>)
    ensures Run(s, a + b) == Run(Run(s, a), b)
    decreases |a|
  {
    if a == [] {
      assert a + b == b;
    } else {
      assert (a + b)[1..] == a[1..] + b;
      RunConcat(Next(s, a[0]), a[1..], b);
    }
  }

  lemma RunSome(s: Conn, steps: seq<Step>)
    requires steps != []
    ensures Run(s, steps) == Run(Next(s, steps[0]), steps[1..])
  {
  }

  function Cleaning(r: RequestId): Conn {
    var task := Task(ChatTask, r, Chat(r, "hello"), Cancelling(true), true, P.Start(1, 1.0), [Started(r, MODEL)]);
    Conn([task], Some(0), Some(r), AwaitingCancel(0, true), true, [Sent(By(0), Started(r, MODEL))])
  }

  lemma SoleTaskSays(s: Conn, event: ServerEvent, status: Status)
    requires |s.tasks| == 1 && s.open
    ensures SayThen(s, 0, event, status) ==
              s.(tasks := [s.tasks[0].(log := s.tasks[0].log + [event], status := status)],
                 sent := s.sent + [Sent(By(0), event)])
  {
  }

  lemma AfterCancelledChat(r: RequestId)
    ensures Run(Initial, CancelledChat(r)) == Cleaning(r)
  {
    var steps := CancelledChat(r);
    var s1 := Next(Initial, steps[0]);
    var s2 := Next(s1, steps[1]);
    var s3 := Next(s2, steps[2]);
    RunSome(Initial, steps);
    RunSome(s1, steps[1..]);
    RunSome(s2, steps[1..][1..]);
    assert steps[1..][1..][1..] == steps[3..];
    var waiting := NewTask(Chat(r, "hello"), P.Start(1, 1.0));
    assert s2 == Conn([waiting], Some(0), Some(r), Top, true, []);
    SoleTaskSays(s2, Started(r, MODEL), Streaming);
    assert [] + [Started(r, MODEL)] == [Started(r, MODEL)];
    var running := waiting.(log := [Started(r, MODEL)], status := Streaming);
    assert s3 == Conn([running], Some(0), Some(r), Top, true, [Sent(By(0), Started(r, MODEL))]);
    var s4 := Next(s3, steps[3]);
    assert s4 == s3.(phase := Receiving(false));
    var cancelling := running.(status := Cancelling(true), cancelled := true);
    assert Next(s4, steps[4]) == SetTask(s4, 0, cancelling).(phase := AwaitingCancel(0, true));
    assert s4.tasks[0 := cancelling] == [cancelling];
    assert Next(s4, steps[4]) == Cleaning(r);
    RunSome(s3, steps[3..]);
    RunSome(s4, steps[3..][1..]);
    assert steps[3..][1..][1..] == [];
  }

  /** A request answered with an error, and one answered to the end, both acknowledged as cancelled behind it. */
  lemma TwoOutcomes(r: RequestId)
    ensures
      Run(Initial, CancelledChat(r) + RaisingEnd).sent ==
        [Sent(By(0), Started(r, MODEL)), Sent(By(0), Error(r, STREAM_FAILED)), Sent(About(0), Cancelled(r))]
    ensures
      Run(Initial, CancelledChat(r) + LateAnswer).sent ==
        [Sent(By(0), Started(r, MODEL)), Sent(By(0), Completed(r, MODEL)), Sent(About(0), Cancelled(r))]
  {
    AfterCancelledChat(r);
    RunConcat(Initial, CancelledChat(r), RaisingEnd);
    RunConcat(Initial, CancelledChat(r), LateAnswer);
    RaisingEndRuns(r);
    LateAnswerRuns(Cleaning(r));
    LateAnswerEnds(r);
  }

  lemma RaisingEndRuns(r: RequestId)
    ensures
      Run(Cleaning(r), RaisingEnd).sent ==
        [Sent(By(0), Started(r, MODEL)), Sent(By(0), Error(r, STREAM_FAILED)), Sent(About(0), Cancelled(r))]
  {
    RunSome(Cleaning(r), RaisingEnd);
    assert RaisingEnd[1..] == [HandlerResumes];
  }

  lemma LateAnswerEnds(r: RequestId)
    ensures
      Next(Next(Next(Next(Cleaning(r), LateAnswer[0]), LateAnswer[1]), LateAnswer[2]), LateAnswer[3]).sent ==
        [Sent(By(0), Started(r, MODEL)), Sent(By(0), Completed(r, MODEL)), Sent(About(0), Cancelled(r))]
  {
    var s := Cleaning(r);
    var again := P.Retry(P.Start(1, 1.0));
    var task := s.tasks[0].(status := Streaming, stream := again);
    assert Next(s, LateAnswer[0]) == s.(tasks := [task]);
    var read := task.(stream := again.(result := Some(P.Returned)));
    assert Next(s.(tasks := [task]), LateAnswer[1]) == s.(tasks := [read]);
    SoleTaskSays(s.(tasks := [read]), Completed(r, MODEL), Done(Succeeded));
  }

  lemma LateAnswerRuns(s: Conn)
    ensures
      Run(s, LateAnswer) ==
        Next(Next(Next(Next(s, LateAnswer[0]), LateAnswer[1]), LateAnswer[2]), LateAnswer[3])
  {
    RunSome(s, LateAnswer);
    RunSome(Next(s, LateAnswer[0]), LateAnswer[1..]);
    assert LateAnswer[1..][1..][1..] == [HandlerResumes];
  }

  // ---------------------------------------------------------------- a run that reports and then acknowledges

  function FailureOf(r: RequestId): ServerEvent {
    AgentEvent(r, "x", 1, ExecutionFailed, None, Payload(None, None, Some("cancelled"), [], None, [], None))
  }

  /** Agent request r is submitted, started and cancelled, and reports its failure while it unwinds. */
  function CancelledAgent(r: RequestId): seq<Step> {
    [HandlerLoops, HandlerReceives(AgentExecute(r, "hello", 1, 4), 1, 1.0, true), Starts(0),
     HandlerLoops, HandlerReceives(Cancel(r), 1, 1.0, true)]
  }

  function ReportingEnd(r: RequestId): seq<Step> {
    [Emits(0, FailureOf(r)), Unwinds(0, false), HandlerResumes]
  }

  function CleaningAgent(r: RequestId): Conn {
    var task := Task(AgentTask, r, AgentExecute(r, "hello", 1, 4), Cancelling(true), true, P.Start(1, 1.0), []);
    Conn([task], Some(0), Some(r), AwaitingCancel(0, true), true, [])
  }

  lemma AfterCancelledAgent(r: RequestId)
    ensures Run(Initial, CancelledAgent(r)) == CleaningAgent(r)
  {
    var steps := CancelledAgent(r);
    var s1 := Next(Initial, steps[0]);
    var s2 := Next(s1, steps[1]);
    RunSome(Initial, steps);
    RunSome(s1, steps[1..]);
    assert steps[1..][1..] == steps[2..];
    var waiting := NewTask(AgentExecute(r, "hello", 1, 4), P.Start(1, 1.0));
    assert s2 == Conn([waiting], Some(0), Some(r), Top, true, []);
    var s3 := Next(s2, steps[2]);
    assert s3 == s2.(tasks := [waiting.(status := Streaming)]);
    var s4 := Next(s3, steps[3]);
    assert s4 == s3.(phase := Receiving(false));
    RunSome(s2, steps[2..]);
    RunSome(s3, steps[2..][1..]);
    assert steps[2..][1..][1..] == [steps[4]];
    RunSome(s4, [steps[4]]);
    assert Next(s4, steps[4]).tasks == CleaningAgent(r).tasks;
  }

  /** A cancelled agent request reports its failure first, and is acknowledged behind it. */
  lemma FailureBeforeAck(r: RequestId)
    ensures
      Run(Initial, CancelledAgent(r) + ReportingEnd(r)).sent ==
        [Sent(By(0), FailureOf(r)), Sent(About(0), Cancelled(r))]
  {
    AfterCancelledAgent(r);
    RunConcat(Initial, CancelledAgent(r), ReportingEnd(r));
    ReportingEndRuns(CleaningAgent(r), r);
    ReportingEndEnds(r);
  }

  lemma ReportingEndRuns(s: Conn, r: RequestId)
    ensures
      var steps := ReportingEnd(r);
      Run(s, steps) == Next(Next(Next(s, steps[0]), steps[1]), steps[2])
  {
    var steps := ReportingEnd(r);
    RunSome(s, steps);
    RunSome(Next(s, steps[0]), steps[1..]);
    assert steps[1..][1..] == [HandlerResumes];
    RunSome(Next(Next(s, steps[0]), steps[1]), [HandlerResumes]);
  }

  lemma ReportingEndEnds(r: RequestId)
    ensures
      var steps := ReportingEnd(r);
      Next(Next(Next(CleaningAgent(r), steps[0]), steps[1]), steps[2]).sent ==
        [Sent(By(0), FailureOf(r)), Sent(About(0), Cancelled(r))]
  {
    var s := CleaningAgent(r);
    assert s.tasks[0].log + [FailureOf(r)] == [FailureOf(r)];
    var task := s.tasks[0].(log := [FailureOf(r)]);
    var said := s.(tasks := [task], sent := [Sent(By(0), FailureOf(r))]);
    assert Next(s, Emits(0, FailureOf(r))) == said;
    assert Next(said, Unwinds(0, false)) == said.(tasks := [task.(status := Done(Unwound(false)))]);
  }

  /** The idle timeout closes a connection that waits with nothing running, and does nothing to any other. */
  lemma TimeoutInterruptsNothing(steps: seq<Step>)
    ensures
      var s := Run(Initial, steps); var n := Next(s, HandlerTimesOut);
      if s.phase.Receiving? && s.phase.idle then
        && NoneUnfinished(s)
        && n.tasks == s.tasks && n.sent == s.sent && !n.open && n.phase == Cleanup
      else n == s
  {
    InitialInvariant();
    RunKeepsInvariant(Initial, steps);
    var s := Run(Initial, steps);
    assert s.tasks != [] && !Finished(s, |s.tasks| - 1) ==> Busy(s);
  }

  // ---------------------------------------------------------------- how tasks grow

  ghost predicate TaskGrows(a: Task, b: Task) {
    && b.kind == a.kind && b.request == a.request && b.message == a.message
    && StreamGrows(a.stream, b.stream) && a.log <= b.log
  }

  /** The tasks of r are those of s, further along, and news is what was said meanwhile. */
  ghost predicate Grown(s: Conn, r: Conn, news: seq<Sent>) {
    && |r.tasks| == |s.tasks| && r.sent == s.sent + news
    && (forall t :: 0 <= t < |s.tasks| ==> TaskGrows(s.tasks[t], r.tasks[t]))
    && (forall x <- news :: !x.author.Handler?)
  }

  predicate IsReceive(step: Step) {
    step.HandlerReceives? || step.HandlerReceivesInvalid?
  }

  lemma MoveGrows(s: Conn, r: Conn, t: nat, stream: P.Stream, said: Option<ServerEvent>, status: Status)
    returns (news: seq<Sent>)
    requires IsMove(s, r, t, stream, said, status)
    ensures Grown(s, r, news)
  {
    news := News(t, said);
  }

  lemma CleanupGrows(s: Conn)
    ensures Grown(s, EnterCleanup(s), [])
  {
  }

  /** Outside of receiving a message no task is created and the loop answers nothing of its own accord. */
  lemma TasksGrow(s: Conn, step: Step) returns (news: seq<Sent>)
    requires Invariant(s) && !IsReceive(step)
    ensures Grown(s, Next(s, step), news)
  {
    var r := Next(s, step);
    assert Grown(s, s, []);
    news := [];
    if r != s {
      if IsTaskStep(step) {
        var stream, said, status := TaskStepMoves(s, step);
        news := MoveGrows(s, r, step.task, stream, said, status);
      } else if step.HandlerResumes? {
        news := r.sent[|s.sent|..];
      } else if step.HandlerCleansUp? {
        CleanupGrows(s);
      }
    }
  }

  /** r has the tasks of s, further along, and perhaps one more for m; news answers m. */
  ghost predicate Received(s: Conn, r: Conn, m: ClientMessage, news: seq<Sent>) {
    && r.sent == s.sent + news
    && (forall x <- news :: x.author.Handler? && (x.event.Pong? || (!m.Ping? && x.event.request == m.request)))
    && |s.tasks| <= |r.tasks| <= |s.tasks| + 1
    && (forall t :: 0 <= t < |s.tasks| ==> TaskGrows(s.tasks[t], r.tasks[t]))
    && (|r.tasks| > |s.tasks| ==>
          var task := r.tasks[|s.tasks|];
          && (m.Chat? || m.AgentExecute?) && task.message == m && task.request == m.request
          && (task.kind == ChatTask <==> m.Chat?))
  }

  lemma ReplyReceived(s: Conn, m: ClientMessage, event: ServerEvent) returns (news: seq<Sent>)
    requires event.Pong? || (!m.Ping? && !event.Pong? && event.request == m.request)
    ensures Received(s, Reply(s, Handler, event), m, news)
  {
    news := if s.open then [Sent(Handler, event)] else [];
  }

  lemma CancelReceived(s: Conn, m: ClientMessage)
    requires Busy(s)
    ensures Received(s, BeginCancel(s, true), m, [])
  {
  }

  lemma SubmissionReceived(s: Conn, m: ClientMessage, stream: P.Stream)
    requires IsSubmission(m)
    ensures Received(s, CreateTask(s, m, stream), m, [])
  {
  }

  /** What receiving message m adds: a task for it, or one answer about it. */
  lemma ReceivingAdds(s: Conn, m: ClientMessage, maxRetries: int, baseDelay: real, available: bool)
      returns (news: seq<Sent>)
    requires Invariant(s) && s.phase.Receiving?
    ensures Received(s, Next(s, HandlerReceives(m, maxRetries, baseDelay, available)), m, news)
  {
    news := [];
    match m
    case Ping => news := ReplyReceived(s, m, Pong);
    case Cancel(request) =>
      if !Busy(s) || s.activeRequest != Some(request) {
        news := ReplyReceived(s, m, Error(request, NOT_FOUND));
      } else {
        CancelReceived(s, m);
      }
    case Chat(request, _) =>
      if Busy(s) {
        news := ReplyReceived(s, m, Error(request, IN_PROGRESS));
      } else {
        SubmissionReceived(s, m, P.Start(maxRetries, baseDelay));
      }
    case AgentExecute(request, _, _, _) =>
      if Busy(s) {
        news := ReplyReceived(s, m, Error(request, IN_PROGRESS));
      } else if !available {
        news := ReplyReceived(s, m, Error(request, UNAVAILABLE));
      } else {
        SubmissionReceived(s, m, P.Start(maxRetries, baseDelay));
      }
  }
}
