/**
 From one execution of the multi-agent service to the page: what the service attempts to report,
 what of it the agent task sends, and what the page has made of it.
 */
module AgentAnswers {
  import opened AgentMode
  import opened Conversations
  import opened EndToEnd
  import opened Options
  import opened Protocol
  import M = MultiAgent
  import E = MultiAgentEvents
  import H = MultiAgentHistory
  import Q = Questions
  import R = MultiAgentResults
  import S = Server
  import Sock = SocketService
  import W = Workspace
  import Wire

  /** A payload as the page reads it; seen says what it finds in the result of an agent. */
  function PayloadOf(d: M.Details, seen: string -> Payload): Payload {
    match d
    case StartDetails(_, _) => Payload(None, None, None, [], None, [], None)
    case RouteDetails(route, reason) => Payload(Some(route), reason, None, [], None, [], None)
    case AgentDetails(route) => Payload(Some(route), None, None, [], None, [], None)
    case ResultDetails(body) => seen(body)
    case CompletedDetails(route, hopCount, response, errors, sources) =>
      Payload(Some(route), None, None, sources, Some(hopCount), errors, Some(response))
    case FailedDetails(error) => Payload(None, None, Some(error), [], None, [], None)
  }

  function NoteOf(e: M.Event, seen: string -> Payload): W.WorkflowEvent {
    W.WorkflowEvent(e.sequence, e.body.kind, e.body.agent, PayloadOf(e.body.details, seen))
  }

  /** What the page records of the events attempted, when those whose number is in lost are not sent. */
  function NotesOf(events: seq<M.Event>, lost: set<nat>, seen: string -> Payload): seq<W.WorkflowEvent> {
    if events == [] then []
    else
      var n := |events| - 1;
      NotesOf(events[..n], lost, seen) + (if n in lost then [] else [NoteOf(events[n], seen)])
  }

  /**
   The task runs this execution for the query and the hops of its message. Its workflow events are
   those the execution attempts to report, up to the moment the peer leaves; a delivery that raises
   or that a cancellation interrupts may or may not have been sent.
   */
  ghost predicate Relays(task: S.Task, s: M.Setup, lost: set<nat>, seen: string -> Payload) {
    && task.kind == S.AgentTask && s.callback
    && task.message.AgentExecute? && s.query == task.message.query && s.maxHops == task.message.maxHops
    && (forall k <- lost :: !s.callbackOutcomes(k).Delivered?)
    && Notes(task.log) <= NotesOf(M.Executed(s).attempted, lost, seen)
  }

  lemma {:induction false} NoneLost(events: seq<M.Event>, seen: string -> Payload, k: nat)
    requires k < |events|
    ensures |NotesOf(events, {}, seen)| == |events| && NotesOf(events, {}, seen)[k] == NoteOf(events[k], seen)
  {
    var n := |events| - 1;
    if k < n {
      NoneLost(events[..n], seen, k);
    } else if n > 0 {
      NoneLost(events[..n], seen, n - 1);
    }
  }

  /** A recorded event is one of those attempted. */
  lemma {:induction false} NoteOfSome(events: seq<M.Event>, lost: set<nat>, seen: string -> Payload, j: nat)
      returns (k: nat)
    requires j < |NotesOf(events, lost, seen)|
    ensures k < |events| && k !in lost && NotesOf(events, lost, seen)[j] == NoteOf(events[k], seen)
  {
    var n := |events| - 1;
    if j < |NotesOf(events[..n], lost, seen)| {
      k := NoteOfSome(events[..n], lost, seen, j);
    } else {
      k := n;
    }
  }

  // ---------------------------------------------------------------- one task for one request

  /** All tasks for a request of the page are one task, whatever the connection. */
  lemma OneTaskAnywhere(s: System, i: nat, t: nat, k: nat, u: nat)
    requires Invariant(s) && i < |s.links| && k < |s.links|
    requires t < |s.links[i].conn.tasks| && u < |s.links[k].conn.tasks|
    requires s.links[i].conn.tasks[t].request == s.links[k].conn.tasks[u].request
    requires s.links[i].conn.tasks[t].request.WorkspaceId?
    ensures i == k && t == u
  {
    var service, l, m := s.app.service, s.links[i], s.links[k];
    var r := l.conn.tasks[t].request;
    assert LinkInvariant(l, service.sockets[i].sent) && LinkInvariant(m, service.sockets[k].sent);
    assert OriginFits(l, service.sockets[i].sent, t) && OriginFits(m, service.sockets[k].sent, u);
    assert Wire.At(service, i, l.origins[t]) && Wire.At(service, k, m.origins[u]);
    assert Wire.Submits(Wire.MessageAt(service, i, l.origins[t]), r);
    assert Wire.Submits(Wire.MessageAt(service, k, m.origins[u]), r);
    assert Wire.SentOnce(service, WorkspaceId(r.number));
    OneTaskPerRequest(service, i, l, t, u);
  }

  /** The execution on the page belongs to this task, which relays this execution of the service. */
  ghost predicate ShownBy(s: System, e: W.Execution, i: nat, t: nat, run: M.Setup, lost: set<nat>,
      seen: string -> Payload) {
    && s.app.client.state.execution == Some(e)
    && i < |s.links| && t < |s.links[i].conn.tasks| && s.links[i].conn.tasks[t].request == e.request
    && Relays(s.links[i].conn.tasks[t], run, lost, seen)
  }

  lemma ToldByTask(s: System, e: W.Execution, i: nat, t: nat, run: M.Setup, lost: set<nat>, seen: string -> Payload)
    requires AgentInvariant(s) && ShownBy(s, e, i, t, run, lost, seen)
    ensures e.events <= NotesOf(M.Executed(run).attempted, lost, seen)
  {
    if e.events != [] {
      var k, u :| 0 <= k < |s.links| && 0 <= u < |s.links[k].conn.tasks| && Tells(s.links[k].conn.tasks[u], e);
      OneTaskAnywhere(s, i, t, k, u);
    }
  }

  /** The numbers recorded of a well-numbered log increase, each at least the place it is recorded at. */
  lemma {:induction false} NotesIncrease(events: seq<M.Event>, lost: set<nat>, seen: string -> Payload)
    requires E.WellNumbered(events)
    ensures
      var notes := NotesOf(events, lost, seen);
      && |notes| <= |events|
      && (forall j :: 0 <= j < |notes| ==> j <= notes[j].sequence < |events|)
      && (forall j, k :: 0 <= j < k < |notes| ==> notes[j].sequence < notes[k].sequence)
  {
    if events != [] {
      var n := |events| - 1;
      var before := NotesOf(events[..n], lost, seen);
      NotesIncrease(events[..n], lost, seen);
      assert NotesOf(events, lost, seen) == before + if n in lost then [] else [NoteOf(events[n], seen)];
    }
  }

  /**
   In every run, what the page has recorded of an agent request is a beginning of what the service
   attempted to report and was not lost on the way; when nothing was lost nothing is missing in it.
   Unless the execution is one of the misnumbered ones its numbers increase, and are 0, 1, 2, ... when
   nothing was lost.
   */
  lemma PageFollowsExecution(
      steps: seq<Step>, e: W.Execution, i: nat, t: nat, run: M.Setup, lost: set<nat>, seen: string -> Payload)
    requires ShownBy(Run(Initial, steps), e, i, t, run, lost, seen)
    ensures e.events <= NotesOf(M.Executed(run).attempted, lost, seen)
    ensures lost == {} ==>
      var attempted := M.Executed(run).attempted;
      && |e.events| <= |attempted|
      && forall k :: 0 <= k < |e.events| ==>
           e.events[k] == NoteOf(attempted[k], seen) && (!E.Misnumbered(run) ==> e.events[k].sequence == k)
    ensures !E.Misnumbered(run) ==>
      forall j, k :: 0 <= j < k < |e.events| ==> e.events[j].sequence < e.events[k].sequence
  {
    Reachable(steps);
    ToldByTask(Run(Initial, steps), e, i, t, run, lost, seen);
    E.CallbackNumbering(run);
    RecordedOf(M.Executed(run).attempted, lost, seen, e.events);
  }

  lemma RecordedOf(attempted: seq<M.Event>, lost: set<nat>, seen: string -> Payload, events: seq<W.WorkflowEvent>)
    requires events <= NotesOf(attempted, lost, seen)
    ensures lost == {} ==>
      && |events| <= |attempted|
      && forall k :: 0 <= k < |events| ==>
           events[k] == NoteOf(attempted[k], seen) && (E.WellNumbered(attempted) ==> events[k].sequence == k)
    ensures E.WellNumbered(attempted) ==>
      forall j, k :: 0 <= j < k < |events| ==> events[j].sequence < events[k].sequence
  {
    NothingIsMissing(attempted, lost, seen, events);
    if E.WellNumbered(attempted) {
      NotesIncrease(attempted, lost, seen);
    }
  }

  lemma NothingIsMissing(attempted: seq<M.Event>, lost: set<nat>, seen: string -> Payload, events: seq<W.WorkflowEvent>)
    requires events <= NotesOf(attempted, lost, seen)
    ensures lost == {} ==>
      |events| <= |attempted| && forall k :: 0 <= k < |events| ==> events[k] == NoteOf(attempted[k], seen)
  {
    if lost == {} {
      LengthOfNotes(attempted, seen);
      forall k | 0 <= k < |events|
        ensures events[k] == NoteOf(attempted[k], seen)
      {
        NoneLost(attempted, seen, k);
      }
    }
  }

  lemma LengthOfNotes(events: seq<M.Event>, seen: string -> Payload)
    ensures |NotesOf(events, {}, seen)| == |events|
  {
    if events != [] {
      NoneLost(events, seen, 0);
    }
  }

  /**
   In every run, when an agent request shows as completed, the service came to a result, and the
   page holds its response with its sources, and shows its route, hops, sources and errors. That
   result is what the execution returned, unless a cancellation hit the delivery of the very last
   event.
   */
  lemma AnswerIsReturned(
      steps: seq<Step>, e: W.Execution, i: nat, t: nat, run: M.Setup, lost: set<nat>, seen: string -> Payload)
    requires ShownBy(Run(Initial, steps), e, i, t, run, lost, seen) && e.status == W.Succeeded
    ensures H.FinalVerdict(run).Good?
    ensures
      var x := H.FinalVerdict(run).execution; var n := |M.Executed(run).attempted|;
      && (exists m <- Run(Initial, steps).app.client.state.messages ::
            m.role == W.Assistant && m.content == x.response && m.sources == x.sources)
      && e.route == Some(x.route) && e.hopCount == Some(x.hopCount) && e.sources == x.sources && e.errors == x.errors
      && n > 0
      && M.Executed(run).outcome == if run.callbackOutcomes(n - 1).Interrupted? then M.CancelledOut else M.Returned(x)
  {
    var s := Run(Initial, steps);
    Reachable(steps);
    ToldByTask(s, e, i, t, run, lost, seen);
    AnswerOfRun(s.app.client.state.messages, e, run, lost, seen);
  }

  /** State x of the graph is on the page: its answer as a message, and the rest on the execution. */
  ghost predicate OnThePage(messages: seq<W.Message>, e: W.Execution, x: M.GraphState) {
    && (exists m <- messages :: m.role == W.Assistant && R.Tells(x.finalResponse, m.content) && m.sources == x.sources)
    && x.route.Some? && e.route == x.route && e.hopCount == Some(x.hopCount)
    && e.sources == x.sources && e.errors == x.errors
  }

  /**
   In every run, when an agent request shows as completed, what the page shows is the last state of the
   graph that was run for the question asked under that request, which is on the transcript: its answer
   without the whitespace around it, and its route, hops, sources and errors.
   */
  lemma AnswerIsTheGraphs(
      steps: seq<Step>, e: W.Execution, i: nat, t: nat, run: M.Setup, lost: set<nat>, seen: string -> Payload, k: nat)
    requires ShownBy(Run(Initial, steps), e, i, t, run, lost, seen) && e.status == W.Succeeded
    requires R.LastAt(run.graph.items, k)
    ensures
      var messages := Run(Initial, steps).app.client.state.messages; var asked := AsksIn(Initial, steps);
      && OnThePage(messages, e, run.graph.items[k].state)
      && e.request.WorkspaceId? && 1 <= e.request.number <= |asked|
      && var q := asked[e.request.number - 1].query;
         && run.query == q && run.maxHops == 4
         && exists u <- messages :: u.role == W.User && u.content == q
  {
    var s, asked := Run(Initial, steps), AsksIn(Initial, steps);
    var messages := s.app.client.state.messages;
    AnswerIsReturned(steps, e, i, t, run, lost, seen);
    R.GoodConveys(run, k);
    ConveyedIsShown(messages, e, H.FinalVerdict(run).execution, run.graph.items[k].state, run.request);
    EveryRunAsks(steps);
    AskedOfTask(s, e, asked, i, t, run, lost, seen);
  }

  lemma ConveyedIsShown(messages: seq<W.Message>, e: W.Execution, x: M.Execution, state: M.GraphState, request: string)
    requires R.Conveys(x, state, request)
    requires exists m <- messages :: m.role == W.Assistant && m.content == x.response && m.sources == x.sources
    requires e.route == Some(x.route) && e.hopCount == Some(x.hopCount)
    requires e.sources == x.sources && e.errors == x.errors
    ensures OnThePage(messages, e, state)
  {
    var m :| m in messages && m.role == W.Assistant && m.content == x.response && m.sources == x.sources;
    assert R.Tells(state.finalResponse, m.content);
  }

  /** The execution of a task was run for the question asked under its request. */
  lemma AskedOfTask(s: System, e: W.Execution, asked: seq<Q.Question>, i: nat, t: nat, run: M.Setup, lost: set<nat>,
      seen: string -> Payload)
    requires AskedInvariant(s, asked) && ShownBy(s, e, i, t, run, lost, seen)
    ensures e.request.WorkspaceId? && 1 <= e.request.number <= |asked|
    ensures
      var q := asked[e.request.number - 1].query;
      && run.query == q && run.maxHops == 4
      && exists u <- s.app.client.state.messages :: u.role == W.User && u.content == q
  {
    TaskIsAsked(s, asked, i, t);
    QuestionIsThere(s.app.client, asked);
  }

  /** The question of the execution on the page is on the transcript. */
  lemma QuestionIsThere(c: W.Client, asked: seq<Q.Question>)
    requires Q.Kept(c, asked) && c.state.execution.Some?
    ensures
      var r := c.state.execution.value.request;
      && r.WorkspaceId? && 1 <= r.number <= |asked|
      && exists u <- c.state.messages :: u.role == W.User && u.content == asked[r.number - 1].query
  {
    var n := c.state.execution.value.request.number;
    OfTheConversation(asked, n - 1, c.state.conversation);
    TextIsThere(c.state.messages, asked[n - 1].query);
  }

  lemma {:induction false} OfTheConversation(asked: seq<Q.Question>, k: nat, conversation: nat)
    requires k < |asked| && asked[k].conversation == conversation
    ensures asked[k].query in Q.Of(asked, conversation)
    decreases |asked|
  {
    if k < |asked| - 1 {
      OfTheConversation(asked[..|asked| - 1], k, conversation);
    }
  }

  lemma {:induction false} TextIsThere(messages: seq<W.Message>, text: string)
    requires text in Q.UserTexts(messages)
    ensures exists u <- messages :: u.role == W.User && u.content == text
    decreases |messages|
  {
    var n := |messages| - 1;
    if messages[n].role == W.User && messages[n].content == text {
      assert messages[n] in messages;
    } else {
      TextIsThere(messages[..n], text);
    }
  }

  lemma AnswerOfRun(messages: seq<W.Message>, e: W.Execution, run: M.Setup, lost: set<nat>, seen: string -> Payload)
    requires W.ShowsItsEvents(e, messages) && W.FieldsShow(e) && e.status == W.Succeeded
    requires run.callback && e.events <= NotesOf(M.Executed(run).attempted, lost, seen)
    ensures H.FinalVerdict(run).Good? && M.Executed(run).attempted != []
    ensures
      var x := H.FinalVerdict(run).execution; var n := |M.Executed(run).attempted|;
      && (exists m <- messages :: m.role == W.Assistant && m.content == x.response && m.sources == x.sources)
      && e.route == Some(x.route) && e.hopCount == Some(x.hopCount) && e.sources == x.sources && e.errors == x.errors
      && M.Executed(run).outcome == if run.callbackOutcomes(n - 1).Interrupted? then M.CancelledOut else M.Returned(x)
  {
    var p := e.events[|e.events| - 1].payload;
    CompletionRecorded(run, lost, seen, e.events);
    assert W.AnswerShown(messages, p);
    var m :| m in messages && W.IsAnswer(m, p);
  }

  /** A completion the page has recorded carries the result of the execution. */
  lemma CompletionRecorded(run: M.Setup, lost: set<nat>, seen: string -> Payload, events: seq<W.WorkflowEvent>)
    requires run.callback && events <= NotesOf(M.Executed(run).attempted, lost, seen)
    requires events != [] && events[|events| - 1].kind.ExecutionCompleted?
    ensures H.FinalVerdict(run).Good? && M.Executed(run).attempted != []
    ensures
      var x := H.FinalVerdict(run).execution; var n := |M.Executed(run).attempted|;
      var p := events[|events| - 1].payload;
      && p.finalResponse == Some(x.response) && x.response != "" && p.sources == x.sources
      && p.route == Some(x.route) && p.hopCount == Some(x.hopCount) && p.errors == x.errors
      && M.Executed(run).outcome == if run.callbackOutcomes(n - 1).Interrupted? then M.CancelledOut else M.Returned(x)
  {
    var k := NoteOfSome(M.Executed(run).attempted, lost, seen, |events| - 1);
    E.CompletionIsTheResult(run, k);
  }

  /** A recorded event is one the execution attempted to report, and says what such an event says. */
  lemma RecordedSays(run: M.Setup, lost: set<nat>, seen: string -> Payload, events: seq<W.WorkflowEvent>, j: nat)
      returns (k: nat)
    requires events <= NotesOf(M.Executed(run).attempted, lost, seen) && j < |events|
    ensures k < |M.Executed(run).attempted| && events[j] == NoteOf(M.Executed(run).attempted[k], seen)
    ensures R.EventSays(run, M.Executed(run).attempted[k].body)
  {
    k := NoteOfSome(M.Executed(run).attempted, lost, seen, j);
    R.EventsSay(run, M.Executed(run).attempted[k]);
  }

  /** What the page shows of an execution, and where it comes from. */
  lemma ShownEvents(
      steps: seq<Step>, e: W.Execution, i: nat, t: nat, run: M.Setup, lost: set<nat>, seen: string -> Payload)
    requires ShownBy(Run(Initial, steps), e, i, t, run, lost, seen)
    ensures e.events <= NotesOf(M.Executed(run).attempted, lost, seen)
    ensures W.FieldsShow(e) && W.ShowsItsEvents(e, Run(Initial, steps).app.client.state.messages)
  {
    Reachable(steps);
    ToldByTask(Run(Initial, steps), e, i, t, run, lost, seen);
  }

  /**
   In every run, when the page has recorded the failure of an agent request, the execution shows as
   failed, and the last of its errors is the reason the execution failed for.
   */
  lemma FailureIsExplained(
      steps: seq<Step>, e: W.Execution, i: nat, t: nat, run: M.Setup, lost: set<nat>, seen: string -> Payload)
    requires ShownBy(Run(Initial, steps), e, i, t, run, lost, seen)
    requires e.events != [] && e.events[|e.events| - 1].kind.ExecutionFailed?
    ensures e.status == W.Failed && e.errors != [] && R.Reason(run, e.errors[|e.errors| - 1])
  {
    ShownEvents(steps, e, i, t, run, lost, seen);
    RecordedFailure(run, lost, seen, e);
  }

  lemma RecordedFailure(run: M.Setup, lost: set<nat>, seen: string -> Payload, e: W.Execution)
    requires W.FieldsShow(e) && e.events <= NotesOf(M.Executed(run).attempted, lost, seen)
    requires e.events != [] && e.events[|e.events| - 1].kind.ExecutionFailed?
    ensures e.errors != [] && R.Reason(run, e.errors[|e.errors| - 1])
  {
    var k := RecordedSays(run, lost, seen, e.events, |e.events| - 1);
    FailureNoted(M.Executed(run).attempted[k], seen);
    LastErrorShown(e);
  }

  /** What the page notes of a reported failure is its error. */
  lemma FailureNoted(event: M.Event, seen: string -> Payload)
    requires event.body.kind.ExecutionFailed? && event.body.details.FailedDetails?
    ensures NoteOf(event, seen).payload.error == Some(event.body.details.error)
  {
  }

  lemma LastErrorShown(e: W.Execution)
    requires W.FieldsShow(e) && e.events != []
    requires e.events[|e.events| - 1].kind.ExecutionFailed? && e.events[|e.events| - 1].payload.error.Some?
    ensures e.errors != [] && e.errors[|e.errors| - 1] == e.events[|e.events| - 1].payload.error.value
  {
  }

  /** The routing an execution shows was recorded. */
  lemma {:induction false} ShownRouting(events: seq<W.WorkflowEvent>) returns (j: nat)
    requires exists event <- events :: event.kind.RoutingCompleted?
    ensures j < |events| && events[j].kind.RoutingCompleted?
    ensures W.Routing(events) == (events[j].payload.route, events[j].payload.routeReason)
  {
    j := |events| - 1;
    if !events[j].kind.RoutingCompleted? {
      var event :| event in events && event.kind.RoutingCompleted?;
      assert event in events[..j];
      j := ShownRouting(events[..j]);
    }
  }

  /** In every run, the route and its reason on the page, once recorded, are those of some state of the graph. */
  lemma RoutingIsTheGraphs(
      steps: seq<Step>, e: W.Execution, i: nat, t: nat, run: M.Setup, lost: set<nat>, seen: string -> Payload)
      returns (k: nat)
    requires ShownBy(Run(Initial, steps), e, i, t, run, lost, seen)
    requires exists event <- e.events :: event.kind.RoutingCompleted?
    ensures k < |run.graph.items| && run.graph.items[k].State?
    ensures
      var x := run.graph.items[k].state;
      && x.route.Some? && e.routeReason == x.routeReason
      && (!e.events[|e.events| - 1].kind.ExecutionCompleted? ==> e.route == x.route)
  {
    ShownEvents(steps, e, i, t, run, lost, seen);
    var j := ShownRouting(e.events);
    var n := RecordedSays(run, lost, seen, e.events, j);
    var body := M.Executed(run).attempted[n].body;
    k :| 0 <= k < |run.graph.items| && R.StateSays(run.graph.items[k], body);
  }

  /**
   In every run, when the acknowledgement finds an agent request still active, so that it shows as
   aborted, and its task has sent what its execution attempted, then the execution did not get as far
   as reporting its end, or the delivery of its last event was lost. It had not begun, or the write or
   the report of an accepted result was cancelled, or the write of its failure was.
   */
  lemma AbortedMeansUnwritten(
      steps: seq<Step>, i: nat, t: nat, run: M.Setup, lost: set<nat>, seen: string -> Payload)
    requires AckIsNext(Run(Initial, steps), i, t)
    requires
      var task := Run(Initial, steps).links[i].conn.tasks[t];
      Relays(task, run, lost, seen) && Notes(task.log) == NotesOf(M.Executed(run).attempted, lost, seen)
    ensures
      || !H.Begun(run)
      || (H.FinalVerdict(run).Good? && (!E.ResultWritten(run) || E.ClosingCut(run)))
      || (!H.FinalVerdict(run).Good? && E.FailureWriteCancelled(run))
      || |M.Executed(run).attempted| - 1 in lost
  {
    AbortedMeansNoReport(steps, i, t);
    NotesInProgress(Run(Initial, steps).links[i].conn.tasks[t].log);
    if E.ReportsItsEnd(run) {
      EndIsRecorded(run, lost, seen);
    }
  }

  /** A reported end that is not lost is recorded. */
  lemma EndIsRecorded(run: M.Setup, lost: set<nat>, seen: string -> Payload)
    requires E.ReportsItsEnd(run)
    ensures M.Executed(run).attempted != []
    ensures |M.Executed(run).attempted| - 1 !in lost ==>
      exists note <- NotesOf(M.Executed(run).attempted, lost, seen) :: W.IsLast(note.kind)
  {
    E.EndIsReported(run);
    E.CallbackNumbering(run);
    EndIsLast(M.Executed(run).attempted);
    LastNote(M.Executed(run).attempted, lost, seen);
  }

  lemma EndIsLast(attempted: seq<M.Event>)
    requires E.TerminalLast(attempted)
    requires E.Attempted(attempted, ExecutionFailed) || E.Attempted(attempted, ExecutionCompleted)
    ensures attempted != [] && E.Terminal(attempted[|attempted| - 1].body)
  {
    var e :| e in attempted && E.Terminal(e.body);
    var k :| 0 <= k < |attempted| && attempted[k] == e;
  }

  lemma LastNote(events: seq<M.Event>, lost: set<nat>, seen: string -> Payload)
    requires events != []
    ensures |events| - 1 !in lost ==> NoteOf(events[|events| - 1], seen) in NotesOf(events, lost, seen)
  {
  }

  lemma {:induction false} NotesInProgress(events: seq<ServerEvent>)
    requires forall event <- events :: InProgress(event)
    ensures forall note <- Notes(events) :: !W.IsLast(note.kind)
  {
    if events != [] {
      assert events[|events| - 1] in events;
      NotesInProgress(events[..|events| - 1]);
    }
  }
}
