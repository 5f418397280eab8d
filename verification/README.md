# Orbyntiq in Dafny

A model of the protocol cores of Orbyntiq and proofs about them. Each source component is a
module; components that change state step by step are classes or methods proved equal to a
specification function, and the properties are proved of that function over all inputs and runs.

- `Protocol`, `Text`: the messages on the WebSocket; Python's strip, split and join.
- `SocketService`, `Workspace`: the browser side, a reconnecting socket with timers, and the page's
  request state machine composed with it.
- `Provider`, `Server`: the Ollama retry loops, and one WebSocket connection as a machine in which a
  receive loop and its background task interleave at their awaits.
- `Wire`, `Questions`: what the page puts on its sockets, and what the user asked.
- `EndToEnd`, `Conversations`, `DirectMode`, `AgentMode`: page, sockets, connections and provider
  together; what a user reads in each mode, and under which question.
- `MultiAgent`, `MultiAgentHistory`, `MultiAgentEvents`, `MultiAgentResults`, `MultiAgentRefinement`: one
  execution of the multi-agent service, its persisted history, its callback events, what of the graph it
  passes on, and its two event-producing branches.
- `AgentAnswers`: from one execution of the service, through its connection, to the page.
- `AgentGraph`, `GraphAnswers`, `GraphedExecution`, `GraphedAnswers`: the compiled agent graph, what it
  answers, the service on top of it, and the whole way from a reply to the page.
- `Documents`, `Chunking`, `Ingestion`, `Inventory`, `KnowledgeBase`: from files to chunks to the
  vector index and back to the list of documents.
- `RedisKeys`, `RedisStores`: key building, and four stores sharing one Redis.

Run `dafny verify dfyconfig.toml`, or pass all `.dfy` files to `dafny verify`.

## What the proofs found

Each point is a property that the code does not have on all inputs: the lemma named first shows it on
an input, the others say exactly when it holds.

- A cancellation that lands inside the delivery of a streamed workflow event leaves
  `callback_sequence` where it was, so the failure event repeats that number
  (`InterruptedDeliveryRepeatsItsNumber`); the two checks after the graph report with
  `next_sequence`, which repeats number 1 once anything was streamed (`BlankAnswerRepeatsANumber`).
  Condition: `CallbackNumbering`; over the compiled graph, `GraphNumbering`.
- The streaming branch refines the batch branch unless some state has a result before it has a route
  (`EarlyResultBreaksTheOrder`). Condition: `LiveRefinesBatch`. The compiled graph meets it.
- A final response that is null becomes the text `None` and passes the no-response check
  (`NullAnswerPasses`). Condition: `NoResponseExactly`, `ReturnedUnlessNull`. The compiled graph never
  ends with one (`GraphIsNeverRejected`).
- A chat task can get two outcomes: an error or even the whole answer, and then a cancelled event
  (`TwoOutcomes`). Condition: `OneOutcomePerChat`.
- An execution whose result could not be written can leave its document completed
  (`UnwrittenEitherWay`). Condition: `UnwrittenResult`.
- A cancelled agent request can show failed: its failure event comes first (`FailureBeforeAck`) and
  decides (`CancelledAgentShowsFailed`). It shows aborted when its task has said no end
  (`AbortedMeansNoReport`).
- An execution need not report its end: one cancellation in the writes or the delivery of its start, in
  the writes of its result or in the reports behind it leaves without a failure event
  (`CancelledAtTheStart`, `CancelledResult`, `CancelledReport`); while the graph runs it takes a second
  one, in the write of the failure. Condition: `EndIsReported`; what this means on the page:
  `AbortedMeansUnwritten`; what it leaves in the document: `DocumentIsFinalExactly`.
- The socket service publishes connecting directly after connected when connect is called while its
  socket is closing (`ConnectingAfterConnected`). Condition: `PublicationsChain`; the pages never do so.
- Chunk ids follow the casefolded path, deletion the exact one. Two paths that differ in case only and
  hold the same content overwrite each other's points (`TwinIsTakenOver`, `TwinsOverwrite`).
  Condition: `OthersUntouched`.
- The order of the payloads shows in the inventory when payloads of one document disagree on its
  metadata (`FirstNameIsShown`). Condition: `OrderMattersOnlyOnDisagreement`.
- A chunk window can lie inside the one before it (`WindowInsideWindow`). Condition: `NestedWindows`;
  it takes an overlap of at least half the chunk size.

## Assumptions

- Each send is one atomic step, asyncio interleaves at awaits only, and a socket delivers in order.
- Name-based UUIDs (section 5.5 of RFC 9562) are injective and, like SHA-256 digests, contain no colon.
- An upsert or a delete of the vector index is atomic; so is a Redis transaction.
- The collection does not change while it is scrolled.
- A LangGraph run in values mode yields its input state and then the state after each node.

## Model

| member | source | states |
|---|---|---|
| SocketService.ReachableService | frontend/src/app/core/services/websocket.service.ts:72-320 | over every order of calls, browser callbacks and timers: a heartbeat means connected, connected means a current socket and no reconnect timer, a pending reconnect timer means no deliberate disconnect and no socket that is connecting or open |
| SocketService.StaleCallbacksChangeNothing | frontend/src/app/core/services/websocket.service.ts:186-240 | whatever a socket that has been replaced still reports, in any number of steps, no field of the service changes |
| SocketService.TimersBetweenResets | frontend/src/app/core/services/websocket.service.ts:242-271 | between two resets the scheduled waits are exactly the next entries of the doubling, capped sequence |
| SocketService.BackoffIsBounded | frontend/src/app/core/services/websocket.service.ts:242-271 | between two resets at most 5 reconnects are scheduled and together they wait at most 11 500 ms |
| SocketService.DropIsRetried | frontend/src/app/core/services/websocket.service.ts:223-271 | a close of the current socket that nobody asked for, with no timer pending and fewer than five attempts used, leaves a pending timer, one more attempt, connecting published, and exactly one more wait, min(500 * 2^attempts, 4000); otherwise no wait is added |
| SocketService.TimerOpensOrRetries | frontend/src/app/core/services/websocket.service.ts:157-271 | a pending timer that fires opens a socket, or is started again with the next wait when the constructor throws and an attempt is left |
| SocketService.ConnectOpens | frontend/src/app/core/services/websocket.service.ts:72-240 | connect opens a socket unless a live one is there, or starts a timer when the constructor throws and an attempt is left |
| SocketService.OpenStartsHeartbeat | frontend/src/app/core/services/websocket.service.ts:186-198 | an open of the current socket publishes connected, starts the heartbeat and gives back all five attempts |
| SocketService.HeartbeatPings | frontend/src/app/core/services/websocket.service.ts:290-305 | while the heartbeat runs on an open socket, each firing adds one ping to that socket and changes nothing else |
| SocketService.HeartbeatStops | frontend/src/app/core/services/websocket.service.ts:215-221 | while connected the heartbeat runs until its own socket reports an error |
| SocketService.DisconnectStopsAll | frontend/src/app/core/services/websocket.service.ts:79-101 | disconnect leaves no heartbeat, no timer and no current socket, and starts to close the one there was |
| SocketService.DisconnectedStays | frontend/src/app/core/services/websocket.service.ts:79-271 | after disconnect, until the next connect, no step of the browser opens a socket, starts a timer or publishes another state |
| SocketService.NeverGivesUpEarly | frontend/src/app/core/services/websocket.service.ts:72-271 | in every run in which connect was called and disconnect was not, there is a current socket or a pending timer, or all five attempts are used up |
| SocketService.WebSocketService.DoConnect | frontend/src/app/core/services/websocket.service.ts:72-77 | the fields after connect are those of the specified transition |
| SocketService.WebSocketService.DoDisconnect | frontend/src/app/core/services/websocket.service.ts:79-101 | the fields after disconnect are those of the specified transition; the socket is closed |
| SocketService.WebSocketService.DoOpenSocket | frontend/src/app/core/services/websocket.service.ts:157-240 | opening replaces a dead socket, leaves a live one alone, and falls back to a reconnect when the constructor throws |
| SocketService.WebSocketService.SocketClosed | frontend/src/app/core/services/websocket.service.ts:223-240 | the close callback, with its stale-socket guard and the reconnect behind it; what the reconnect is, DropIsRetried says |
| SocketService.WebSocketService.DoScheduleReconnect | frontend/src/app/core/services/websocket.service.ts:242-271 | one timer at most, with the capped doubling delay, at most five attempts |
| SocketService.WebSocketService.DoSend | frontend/src/app/core/services/websocket.service.ts:273-288 | a message goes out on an open socket and the call throws otherwise, changing nothing |
| Workspace.ReachableApp | frontend/src/app/features/workspace/services/workspace-state.service.ts:112-384 | in every reachable state of page and socket service: running iff a request is active; a waiting request is the active one; running with nothing waiting means connected; an execution that is not running has a final status; the page knows the service's connection state |
| Workspace.CancelAlwaysActs | frontend/src/app/features/workspace/services/workspace-state.service.ts:179-205 | cancel never leaves through its connection guard: it finishes a waiting request on the spot, and otherwise sends the cancellation or lets the socket service throw because the socket is closing |
| Workspace.PublicationsChain | frontend/src/app/core/services/websocket.service.ts:72-271 | the last state a step of the socket service publishes is the service's own, and it publishes connecting directly after connected exactly when connect is called on a connected service whose socket is closing; both pages call connect only while not connected |
| Workspace.ConnectingAfterConnected | frontend/src/app/core/services/websocket.service.ts:72-77 | a run of the service alone that does so |
| Workspace.EndIsTerminal | frontend/src/app/features/workspace/services/workspace-state.service.ts:326-461 | the step that ends a request leaves nothing active and, outside a reset, leaves that request's execution with a final status |
| Workspace.RequestsEndOnce | frontend/src/app/features/workspace/services/workspace-state.service.ts:112-384 | in every run each request ever issued is still active or has ended exactly once |
| Workspace.LateEventsChangeNothing | frontend/src/app/features/workspace/services/workspace-state.service.ts:326-340 | after a request has ended, however the run goes on, an event with its id changes nothing |
| Workspace.FirstEndDecides | frontend/src/app/features/workspace/services/workspace-state.service.ts:469-571 | of a failure event and an acknowledgement about the same running request the first decides the status, failed or aborted, and the second changes nothing |
| Workspace.EndsTellTheUser | frontend/src/app/features/workspace/services/workspace-state.service.ts:360-467 | the error text the page shows when a server event ends the active request, for each kind of event |
| Workspace.DroppedConnectionTells | frontend/src/app/features/workspace/services/workspace-state.service.ts:245-280 | a request that runs when its connection closes ends failed, with the text about the interruption |
| Workspace.ModelIsShown | frontend/src/app/features/workspace/services/workspace-state.service.ts:386-467 | the model is on the answer from its start, stamped again at its completion, and noted as the last one; no other message changes |
| Workspace.ExecutionsShowTheirEvents | frontend/src/app/features/workspace/services/workspace-state.service.ts:469-663 | in every run an execution has recorded at most one last event and nothing behind it; a recorded failure shows failed; it has succeeded exactly when a completion was recorded, and then the page holds the answer it carried; route, reason, hops, sources and errors are those the recorded events say, the completion having the last word on all but the reason |
| Workspace.AgentEventShows | frontend/src/app/features/workspace/services/workspace-state.service.ts:469-571 | a workflow event about the active agent request is recorded behind the others, gives the execution its id, and ends the request exactly when it is a last one |
| Workspace.EndedExecutionStays | frontend/src/app/features/workspace/services/workspace-state.service.ts:326-340 | once a request has ended, its execution never changes again in any continuation that still shows it |
| Workspace.TranscriptOnlyGrows | frontend/src/app/features/workspace/services/workspace-state.service.ts:386-467 | until a reset, no message other than the answer still being written is edited or removed |
| Workspace.WorkspaceStateService.DoSubmit | frontend/src/app/features/workspace/services/workspace-state.service.ts:112-177 | the page and the socket service after submit, including the synchronous connection states delivered back |
| Workspace.WorkspaceStateService.DoCancel | frontend/src/app/features/workspace/services/workspace-state.service.ts:179-205 | the page and the socket service after cancel, and whether it throws |
| Workspace.WorkspaceStateService.DoReset | frontend/src/app/features/workspace/services/workspace-state.service.ts:207-237 | the page and the socket service after a reset |
| Workspace.WorkspaceStateService.DoHandleConnection | frontend/src/app/features/workspace/services/workspace-state.service.ts:245-280 | the reaction to one connection state |
| Workspace.WorkspaceStateService.DoSendPending | frontend/src/app/features/workspace/services/workspace-state.service.ts:282-324 | the waiting request goes out, or is ended when sending throws; what goes out, QuestionsAreAsked says |
| Workspace.WorkspaceStateService.DoHandleServerEvent | frontend/src/app/features/workspace/services/workspace-state.service.ts:326-467 | the reaction to one server event |
| Workspace.WorkspaceStateService.DoHandleAgentEvent | frontend/src/app/features/workspace/services/workspace-state.service.ts:469-571 | the reaction to one workflow event |
| Workspace.WorkspaceStateService.DoCompleteAgentExecution | frontend/src/app/features/workspace/services/workspace-state.service.ts:605-663 | the completed execution, its answer message and its error text |
| Questions.QuestionsAreAsked | frontend/src/app/features/workspace/services/workspace-state.service.ts:112-177 | in every run the requests of the page are the questions asked, one for each in order; every message on any socket that submits request n is Chat(n, q) or AgentExecute(n, q, conversation, 4) for the n-th question q, by the mode and in the conversation it was asked in; the user messages on the transcript are the questions of the current conversation, in order |
| Questions.AskedIsShown | frontend/src/app/features/workspace/services/workspace-state.service.ts:112-177 | a question that is taken shows at once as the last message, under a new request, with no error and nothing left of the execution or the model before it |
| Questions.AskedIsSent | frontend/src/app/features/workspace/services/workspace-state.service.ts:282-324 | asked on a connected page, a question goes out at once, as one more message on the current socket |
| Questions.WaitingIsSent | frontend/src/app/features/workspace/services/workspace-state.service.ts:245-324 | a waiting question goes out when the current socket opens, as one more message on it |
| Questions.ResetStartsOver | frontend/src/app/features/workspace/services/workspace-state.service.ts:207-237 | a reset leaves an empty, new conversation in the same mode, and sends a cancellation of the active request exactly when it had gone out and the socket is open |
| Provider.StreamNeverRepeats | src/orbyntiq/llm/ollama.py:124-201 | whatever the network does: all chunks come from the last attempt, at most max_retries + 1 attempts are made, k retries wait base * (2^k - 1) in all, and the error after the loop is not raised |
| Provider.StreamComesTo | src/orbyntiq/llm/ollama.py:124-201 | after any attempts that broke off without a text, and any ordinary lines of one more, each next event: which texts have gone out, and whether the request goes on, is tried again, returns, or raises which error with which number of attempts |
| Provider.UnreachableIffNegative | src/orbyntiq/llm/ollama.py:124-201 | the error after the loop is raised exactly for a negative retry bound |
| Provider.ReturnsOnlyWhenDone | src/orbyntiq/llm/ollama.py:139-176 | a stream that ends normally was told so by a done line |
| Provider.GeometricSum | src/orbyntiq/llm/ollama.py:198-199 | waits that double from the base add up to base * (2^n - 1) |
| Provider.ReadLines | src/orbyntiq/llm/ollama.py:139-176 | the line loop yields what the machine yields on the same lines and ends for the same reason |
| Provider.TryAttempt | src/orbyntiq/llm/ollama.py:125-196 | one attempt: what it yielded, and its result, or that it is tried again having yielded nothing |
| Provider.StreamChunks | src/orbyntiq/llm/ollama.py:107-201 | the whole loop yields, waits and ends as the machine does on everything the attempts meet on the wire |
| Provider.GenerateRequest | src/orbyntiq/llm/ollama.py:217-290 | the answer of the first reply that is not a passing failure, or the last failure after max_retries + 1 attempts, with the waits adding up; a negative bound makes no attempt and raises the error behind the loop |
| Server.NextKeepsInvariant | src/orbyntiq/api/routes/websocket.py:229-460 | every step of the receive loop, the task and the peer keeps the connection invariant, a frame that is not JSON, frames read after their sender left and a task that goes on after its cancellation included; what each message does, the members below say |
| Server.CancelStopsItsRequest | src/orbyntiq/api/routes/websocket.py:284-333 | in every run Cancel(r) marks the unfinished task cancelled, and the loop waits for it, if r is its request; otherwise every task stays as it is and an open connection gets exactly the error about r |
| Server.ResumeAcknowledges | src/orbyntiq/api/routes/websocket.py:203-333 | the loop waits until the cancelled task has finished, and then acknowledges exactly that task if a client asked and the peer is there, and is on its way out otherwise |
| Server.SubmissionIsServed | src/orbyntiq/api/routes/websocket.py:335-451 | in every run a submission is refused while a task is unfinished, an agent execution also without agents; any other gets a task of its own that holds the whole message |
| Server.AcksAnswerCancels | src/orbyntiq/api/routes/websocket.py:284-333 | every acknowledgement answers a cancellation of its own request that the loop received before, while that task was unfinished |
| Server.IdleMeansFinished | src/orbyntiq/api/routes/websocket.py:230-246 | the idle timeout is armed exactly while every task is finished |
| Server.CleanupStopsTheTask | src/orbyntiq/api/routes/websocket.py:456-460 | a loop on its way out cancels the task that is unfinished, waits for it, and sends nothing |
| Server.OneTaskAtATime | src/orbyntiq/api/routes/websocket.py:221-451 | at most one task is unfinished, it is the last one created, and active_task and active_request_id name it |
| Server.ChatTaskProtocol | src/orbyntiq/api/routes/websocket.py:79-143 | a chat task's own events are a beginning of started, the provider's chunks in order, then completed or error; completed only after all chunks of a stream that returned |
| Server.AgentTaskProtocol | src/orbyntiq/api/routes/websocket.py:146-200 | an agent task's own events are workflow events about its request, and behind them at most one error, exactly when it ended by raising |
| Server.CancelledMeansSilent | src/orbyntiq/api/routes/websocket.py:284-333 | after cancelled has been sent for a task, the task sends nothing more, in any continuation |
| Server.FinishedIsSilent | src/orbyntiq/api/routes/websocket.py:203-209 | a finished task never sends again |
| Server.OneOutcomePerChat | src/orbyntiq/api/routes/websocket.py:79-143 | on an open, served connection every finished chat task has exactly one of completed, error and cancelled, or two; two if and only if on the way it escaped its cancellation: its cleanup raised, or the provider took the exception for a network failure and tried again |
| Server.TwoOutcomes | src/orbyntiq/api/routes/websocket.py:203-209 | two runs in which a request gets two outcomes: an error and a cancelled, a completed and a cancelled |
| Server.SurvivorTriesAgain | src/orbyntiq/llm/ollama.py:192-199 | a chat task that survives its cancellation has counted it as a failed attempt and makes the next one, with nothing yielded |
| Server.ReportsPrecedeAck | src/orbyntiq/api/routes/websocket.py:284-333 | in every run all a task ever says, an agent task's failure report included, stands in the log before its cancellation is acknowledged |
| Server.FailureBeforeAck | src/orbyntiq/api/routes/websocket.py:146-209 | a run in which a cancelled agent request reports its failure and is acknowledged behind it |
| Server.TimeoutInterruptsNothing | src/orbyntiq/api/routes/websocket.py:50-76 | the idle timeout closes a connection that waits with no task unfinished, and does nothing to any other |
| Wire.StepEvolves | frontend/src/app/features/workspace/services/workspace-state.service.ts:282-324 | every step of the page keeps that each of its request ids is submitted at most once, in the mode of the request, whatever else is sent on the sockets |
| EndToEnd.NextKeepsInvariant | src/orbyntiq/api/routes/websocket.py:79-460 | every step of provider, server task, receive loop, sockets and page keeps the end-to-end invariant |
| DirectMode.DirectAnswers | frontend/src/app/features/workspace/services/workspace-state.service.ts:386-467 | over every interleaving of retries, chunks, cancels, disconnects and reconnects, an assistant message of direct mode stands right behind the question it answers, as the user asked it, and is the concatenation of a prefix of the chunks of one provider attempt made by a task for exactly that question; all of them, from a stream reported done, once completed has been handled |
| Conversations.TasksHoldTheirQuestion | src/orbyntiq/api/routes/websocket.py:399-451 | in every run every task for a request of the page holds the question asked under that request, word for word, with the conversation and the four hops of an agent execution |
| DirectMode.AnswersAreOnRecord | frontend/src/app/features/workspace/services/workspace-state.service.ts:386-431 | every answer written in direct mode is on record under its request and its socket from its first moment, and the record is never lost or changed |
| DirectMode.CompletionIsMarked | frontend/src/app/features/workspace/services/workspace-state.service.ts:433-467 | when completed is handled for the active request in direct mode the page holds an answer to it, from that connection, and it counts as complete |
| DirectMode.EndedAnswersStay | frontend/src/app/features/workspace/services/workspace-state.service.ts:386-467 | until a reset, what an ended request left on the page stays as it is |
| AgentMode.NextKeepsAgent | src/orbyntiq/api/routes/websocket.py:146-460 | every step of the whole system keeps that the execution on the page holds what was heard of its request, all of it said by one agent task |
| AgentMode.ExecutionsFollowOneTask | frontend/src/app/features/workspace/services/workspace-state.service.ts:469-571 | in every run the events an execution has recorded are, in order and without a gap, a beginning of the workflow events one agent task said about its request |
| AgentMode.CancelledAgentShowsFailed | frontend/src/app/features/workspace/services/workspace-state.service.ts:433-571 | in every run, cancelled or not, a failure event delivered for the active agent request makes it show failed, and failed it stays as long as it is shown, whatever follows |
| AgentMode.AbortedMeansNoReport | src/orbyntiq/api/routes/websocket.py:284-333 | in every run an acknowledgement that finds the agent request active makes it show aborted, and then all its task ever said is on the page, with no failure, error or completion in it |
| AgentAnswers.PageFollowsExecution | src/orbyntiq/services/multi_agent_service.py:89-119 | in every run what the page has recorded of an agent request is a beginning of what the execution attempted to report, without deliveries that raised or were interrupted and got lost; with nothing lost nothing is missing; unless the execution is misnumbered the numbers increase, and are 0, 1, 2, ... with nothing lost |
| AgentAnswers.AnswerIsReturned | src/orbyntiq/services/multi_agent_service.py:610-663 | in every run an agent request that shows completed shows the response, route, hops, sources and errors of the result, which the execution returned unless a cancellation hit its very last delivery |
| AgentAnswers.AnswerIsTheGraphs | src/orbyntiq/services/multi_agent_service.py:447-661 | in every run what the page shows of a completed agent request is the last state of the graph run for the question the user asked under it, which is on the transcript: the answer stripped, the route, hops, sources and errors |
| AgentAnswers.FailureIsExplained | frontend/src/app/features/workspace/services/workspace-state.service.ts:538-565 | in every run a recorded failure shows failed, and its last error is the reason the execution failed for |
| AgentAnswers.RoutingIsTheGraphs | frontend/src/app/features/workspace/services/workspace-state.service.ts:510-521 | in every run the routing shown on the page is that of some state of the graph |
| GraphedAnswers.PageShowsWhatWasHeard | frontend/src/app/features/workspace/services/workspace-state.service.ts:605-663 | in every run over the compiled graph the page shows, for a completed agent request, what the specialist the supervisor decided on heard about the user's question: its text and sources, or the notice with the errors that led to it |
| AgentAnswers.AbortedMeansUnwritten | src/orbyntiq/services/multi_agent_service.py:175-663 | in every run in which an acknowledgement finds the agent request active, so that it shows aborted, and its task has sent what its execution attempted: the execution had not begun, or a write of its accepted result failed or was cancelled, or a report behind that was cancelled, or the write of its failure was, or its last event was lost on the way |
| MultiAgent.Repositories.Call | src/orbyntiq/services/multi_agent_service.py:121-173 | one repository call that works, fails or is cancelled, having taken effect or not; a row whose sequence exists is refused |
| MultiAgent.EventSink.Emit | src/orbyntiq/services/multi_agent_service.py:89-119 | an exception of the callback is swallowed, a cancellation is not |
| MultiAgent.MultiAgentService.StreamGraph | src/orbyntiq/services/multi_agent_service.py:252-359 | the streaming loop attempts exactly the live log, and counts every event but an interrupted one |
| MultiAgent.MultiAgentService.PersistFailure | src/orbyntiq/services/multi_agent_service.py:145-173 | the failure row, then the failed document, stopping at the first call that does not work |
| MultiAgent.MultiAgentService.PersistResult | src/orbyntiq/services/multi_agent_service.py:537-608 | routing row, one row for each result, completed row, completed document, stopping at the first call that does not work |
| MultiAgent.MultiAgentService.EmitClosing | src/orbyntiq/services/multi_agent_service.py:610-661 | the whole batch log when nothing was streamed, the completed event alone otherwise |
| MultiAgent.MultiAgentService.Fail | src/orbyntiq/services/multi_agent_service.py:363-478 | each failure is written and then reported, with the number the code uses for it |
| MultiAgent.MultiAgentService.Execute | src/orbyntiq/services/multi_agent_service.py:175-663 | rows, document, attempted events and outcome of a whole execution are those of the specification, for every behaviour of graph, stores and callback; what is in them, the members of MultiAgentResults say |
| MultiAgentResults.ReturnedConveys | src/orbyntiq/services/multi_agent_service.py:447-535 | what an execution returns is the last state streamed, field by field: route, reason, sources, errors, hops, the results that are dictionaries in order, the stripped response, the state's request or else the given one; a failure carries its reason |
| MultiAgentResults.DocumentConveys | src/orbyntiq/services/multi_agent_service.py:155-173 | a completed document holds the last state streamed, field by field; a failed one the reason |
| MultiAgentResults.RowsSay | src/orbyntiq/services/multi_agent_service.py:537-584 | row i of the history says, in that place, the request, the route, result i - 2, the completion of the last state, or the failure with its reason |
| MultiAgentResults.EventsSay | src/orbyntiq/services/multi_agent_service.py:234-661 | each reported event says, by its kind, the request, the route, agent or a result of a streamed state, the completion of the last state, or the failure with its reason, and goes out under the request it should |
| MultiAgentResults.BatchSays | src/orbyntiq/services/multi_agent_service.py:612-661 | without streaming, event i says in that place the route, result i - 2 or the completion of the last state |
| MultiAgentResults.RoutingStartsTheAgent | src/orbyntiq/services/multi_agent_service.py:280-319 | streamed, a routing is followed by the start of the agent it names, which stands nowhere else |
| MultiAgentResults.OutcomeExactly | src/orbyntiq/services/multi_agent_service.py:175-232 | an execution is rejected exactly for a blank query or fewer than one hop, and fails at the start exactly when a repository does; with nobody listening it returns exactly when it began, a result was accepted and all writes went through |
| MultiAgentResults.FailureOutcomeExactly | src/orbyntiq/services/multi_agent_service.py:363-478 | a begun execution without a result is cancelled exactly when the graph or a streamed delivery was, or the write of the failure, or the delivery of its report; otherwise it raises its reason |
| MultiAgentResults.ResultOutcomeExactly | src/orbyntiq/services/multi_agent_service.py:537-663 | a begun execution with a result raises exactly when a repository fails to store it, is cancelled exactly when a write or a report behind it is, and returns it otherwise |
| MultiAgentHistory.HistoryIsAScriptPrefix | src/orbyntiq/services/multi_agent_service.py:197-232 | after any number of store calls, each failing anywhere: the rows are a prefix of started, failed or of started, routing, results, completed, numbered 0, 1, ...; completed and failed documents only with the whole script; no insert ever violates the unique key |
| MultiAgentHistory.AfterCalls | src/orbyntiq/core/mongodb_schema.py:109-118 | whatever the outcomes, the store is what the calls made, in order, leave, the one that failed counting exactly when it took effect |
| MultiAgentHistory.DocumentSettlesOnce | src/orbyntiq/services/multi_agent_service.py:155-173 | once completed or failed, the document is never written again |
| MultiAgentHistory.ExecutionIsConsistent | src/orbyntiq/services/multi_agent_service.py:537-608 | the stores at the end of every execution are consistent; an execution that returned has its full history and its completed document |
| MultiAgentEvents.CallbackNumbering | src/orbyntiq/services/multi_agent_service.py:234-478 | in every run at most one attempted event is terminal and it is last; the events carry 0, 1, 2, ... if and only if the run is not a misnumbered one: something streamed, failure reported, and a delivery interrupted by cancellation or a check after the graph failed |
| MultiAgentEvents.InterruptedDeliveryRepeatsItsNumber | src/orbyntiq/services/multi_agent_service.py:363-387 | a cancellation inside the delivery of a streamed event makes the failure event repeat its number |
| MultiAgentEvents.BlankAnswerRepeatsANumber | src/orbyntiq/services/multi_agent_service.py:453-478 | a missing answer after a streamed route reports its failure with number 1 again |
| MultiAgentEvents.FailureWrite | src/orbyntiq/services/multi_agent_service.py:145-173 | the failure is reported exactly unless a cancellation hits the insert of its row or the replacement after it |
| MultiAgentEvents.EndIsReported | src/orbyntiq/services/multi_agent_service.py:175-663 | for every execution: execution_failed is attempted if and only if somebody listens, the start was written and delivered uncancelled, no result was accepted, and no cancellation hit the write of the failure; execution_completed if and only if somebody listens, the start was written and delivered uncancelled, a result was accepted and written, and no cancellation hit a report in front of it |
| MultiAgentEvents.CancelledAtTheStart | src/orbyntiq/services/multi_agent_service.py:197-245 | one cancellation in the first write: no event, outcome cancelled |
| MultiAgentEvents.CancelledResult | src/orbyntiq/services/multi_agent_service.py:537-608 | one cancellation in the last write of an accepted result: no last event, outcome cancelled, the document completed if the write took effect and running if not |
| MultiAgentEvents.CancelledReport | src/orbyntiq/services/multi_agent_service.py:610-661 | one cancellation in the reports behind an accepted result: no last event, outcome cancelled |
| MultiAgentEvents.DocumentIsFinalExactly | src/orbyntiq/services/multi_agent_service.py:145-608 | the document of a persisted execution that had begun, returned, failed or cancelled, has its final state if and only if every call was made and the last one took effect, and says running otherwise |
| MultiAgentEvents.CompletionIsTheResult | src/orbyntiq/services/multi_agent_service.py:643-663 | an attempted completion is the last event and carries the result, which is returned unless its delivery is interrupted |
| MultiAgentEvents.UnwrittenResult | src/orbyntiq/services/multi_agent_service.py:605-608 | when the result cannot be written no terminal event is attempted; the document is the completed one if and only if the failing call was the last one, the replacement, and took effect, and stays running otherwise |
| MultiAgentEvents.UnwrittenEitherWay | src/orbyntiq/services/multi_agent_service.py:605-608 | inputs on which the last call fails: the document is completed when it took effect and running when it did not |
| MultiAgentEvents.NoResponseExactly | src/orbyntiq/services/multi_agent_service.py:447-478 | a finished, routed graph is turned down for its answer if and only if the answer is missing or blank; null is neither |
| MultiAgentEvents.NullAnswerPasses | src/orbyntiq/services/multi_agent_service.py:447-478 | an input with a null answer, which passes as the word None |
| MultiAgentEvents.ReturnedUnlessNull | src/orbyntiq/services/multi_agent_service.py:447-478 | an execution that returned lacked an answer of its graph if and only if that answer was null |
| MultiAgentEvents.CallbackNonInterference | src/orbyntiq/services/multi_agent_service.py:89-119 | two runs on the same stores and graph, with any callback exceptions, with or without a callback, streamed or not, leave the same rows and document and have the same outcome |
| MultiAgentRefinement.LiveRefinesBatch | src/orbyntiq/services/multi_agent_service.py:259-356 | on a stream whose results grow and whose route is set once, each result is reported once and in order; without the start of the agent the live log is the batch log if and only if no result comes before the route |
| MultiAgentRefinement.EarlyResultBreaksTheOrder | src/orbyntiq/services/multi_agent_service.py:259-356 | a stream with a result before its route, on which the two logs differ |
| MultiAgentRefinement.BranchesAgree | src/orbyntiq/services/multi_agent_service.py:610-661 | the same for the logs of two whole executions, one streamed and one not; both return the same execution |
| AgentGraph.BuildMultiAgentGraph | src/orbyntiq/agents/graph.py:141-228 | the edges added lead where the topology says, and only between added nodes |
| AgentGraph.NormalRun | src/orbyntiq/agents/graph.py:195-228 | a run that finishes visited supervisor, the chosen specialist and synthesizer, has hop_count 3, exactly two results under those names and a response that is not blank: what the synthesizer makes of the specialist's result, or the notice; what that result is, GraphAnswersTheQuery says |
| GraphAnswers.GraphAnswersTheQuery | src/orbyntiq/agents/synthesizer.py:134-214 | for each route of a finished run, what the outside replied about the query decides response, sources, errors and both results: the text, formatted for a tool, with its sources, or the notice with the errors that led to it |
| GraphAnswers.SpecialistPasses | src/orbyntiq/agents/mcp_agent.py:120-270 | what the specialist hears, an error or a text with sources, becomes its one result, the sources and the errors |
| GraphAnswers.EndingExactly | src/orbyntiq/agents/graph.py:25-41 | a run finishes exactly when the decision and the decided specialist both get their reply, raises exactly when the first reply that does not come is an exception, and is cancelled otherwise |
| GraphAnswers.TextOfBlocks | src/orbyntiq/agents/mcp_agent.py:55-63 | the text of a tool is its visible blocks, one per line, and empty exactly when there is none |
| AgentGraph.RunShape | src/orbyntiq/agents/state.py:35-42 | how far every run gets, with counts, results, route and response at each stage; results only grow |
| AgentGraph.ModelNeverSynthesizes | src/orbyntiq/agents/synthesizer.py:170-196 | the run is the same whatever the synthesizer's model would have replied |
| AgentGraph.SynthesizerAnswers | src/orbyntiq/agents/synthesizer.py:134-214 | with one result and a route, the response is the formatted answer of a useful result and the fixed notice otherwise; never blank |
| AgentGraph.FormattedIsNotBlank | src/orbyntiq/agents/synthesizer.py:64-100 | formatting an MCP result that is not blank gives text that is not blank |
| GraphedExecution.GraphIsSteady | src/orbyntiq/agents/state.py:35-37 | the compiled graph streams states whose results grow, whose route is set once, with no result before it |
| GraphedExecution.GraphIsNeverRejected | src/orbyntiq/services/multi_agent_service.py:415-478 | over the compiled graph the invalid-route and no-response branches are unreachable, and what is returned has three hops and two results |
| GraphedAnswers.ReturnedIsHeard | src/orbyntiq/services/multi_agent_service.py:361-535 | over the compiled graph what an execution returns is what the decided specialist heard about the query |
| GraphedExecution.GraphNumbering | src/orbyntiq/services/multi_agent_service.py:234-478 | over the compiled graph only a cancellation inside a streamed delivery numbers events wrongly |
| GraphedExecution.GraphBranchesAgree | src/orbyntiq/services/multi_agent_service.py:259-661 | over the compiled graph the streamed log without the start of the agent is the batch log |
| Chunking.WindowsTile | src/orbyntiq/rag/chunking.py:48-81 | windows start at 0 and end at the end of the text, consecutive ones overlap by exactly 0 or the overlap, neither starts nor ends go back, each is cut at the last usable space of its second half if there is one |
| Chunking.NestedWindows | src/orbyntiq/rag/chunking.py:48-81 | no window ends before the one in front of it; the two end together if and only if that end is a space before the end of the text, at or behind the earliest cut of the next window, with no later space for it; which takes an overlap of at least half the size |
| Chunking.WindowInsideWindow | src/orbyntiq/rag/chunking.py:48-81 | a text and settings for which the second window lies inside the first |
| Chunking.WindowsRebuildTheText | src/orbyntiq/rag/chunking.py:48-81 | dropping the overlaps and joining the windows gives the text |
| Chunking.WindowCount | src/orbyntiq/rag/chunking.py:48-81 | at most len(text) windows, and at most 1 + (len(text) - 1) / (size // 2 - overlap) when the overlap is less than half the size |
| Chunking.EveryCharacterSurvives | src/orbyntiq/rag/chunking.py:68-71 | every character that is not whitespace is inside some emitted chunk |
| Chunking.ChunksAreStrippedSubstrings | src/orbyntiq/rag/chunking.py:68-71 | each chunk is a stripped substring of length 1 to chunk_size |
| Chunking.ChunksFromWindows | src/orbyntiq/rag/chunking.py:44-83 | the chunks are the stripped windows without the blank ones |
| Chunking.TextChunker.Create | src/orbyntiq/rag/chunking.py:20-42 | a chunker exists exactly for size >= 1 and 0 <= overlap < size |
| Chunking.TextChunker.Cut | src/orbyntiq/rag/chunking.py:44-83 | the loop emits exactly the chunks of the windows |
| Chunking.ChunkNameIsInjective | src/orbyntiq/rag/chunking.py:97-106 | the name a chunk id is made from determines document, checksum and index |
| Chunking.ChunksAreNumbered | src/orbyntiq/rag/chunking.py:85-123 | chunk i of a document carries index i, text i with the page of its section, and the document's data; ids of one document never clash |
| Chunking.TextChunker.Split | src/orbyntiq/rag/chunking.py:85-123 | the nested loops give the chunks of all sections, numbered through |
| Documents.NormalizationIsIdempotent | src/orbyntiq/rag/documents.py:42-48 | normalizing twice is normalizing once |
| Documents.NormalizedInOnePass | src/orbyntiq/rag/documents.py:42-48 | splitting, stripping and joining comes to one pass from the first visible character on: between two visible characters as many line breaks as before, however written, and behind them the whitespace behind the last; without a break all the whitespace there was |
| Documents.NormalTextsAreFixed | src/orbyntiq/rag/documents.py:42-48 | a text is left alone if and only if it has no carriage return, no whitespace before a line break and none at either end |
| Documents.NormalizedLines | src/orbyntiq/rag/documents.py:42-48 | no carriage return, no line ending in whitespace, no blank first or last line; joining the lines gives the text back |
| Documents.NormalizationKeepsVisible | src/orbyntiq/rag/documents.py:42-48 | every character that is not whitespace stays, in order |
| Text.JoinOfSplit | src/orbyntiq/rag/documents.py:42-48 | joining what was split gives the text back |
| Text.SplitOfJoin | src/orbyntiq/rag/documents.py:42-48 | splitting what was joined gives the parts back, if none contains the separator |
| Documents.LoadPages | src/orbyntiq/rag/documents.py:106-132 | the loop over the pages gives the sections with text, numbered from 1, or nothing |
| Documents.SectionsAreTheirPages | src/orbyntiq/rag/documents.py:106-132 | each section is the normalized text of its page, and page numbers increase |
| Documents.PagesAreSections | src/orbyntiq/rag/documents.py:106-132 | no page with text is left out |
| Ingestion.DocumentIngestor.Run | src/orbyntiq/rag/ingestion.py:45-120 | the index and the result after one ingestion, for every way its steps come out |
| Ingestion.EachResultHasItsCause | src/orbyntiq/rag/ingestion.py:45-120 | which obstacle gives which result, the first one deciding |
| Ingestion.SuccessHoldsTheContent | src/orbyntiq/rag/ingestion.py:89-120 | after a success the points with the source path are exactly the chunks of its current content, each with its own vector |
| Ingestion.OneVersionOrNothing | src/orbyntiq/rag/ingestion.py:70-114 | at every moment the source holds its old version, nothing, or the new one; a failure before the delete changes nothing |
| Ingestion.OthersUntouched | src/orbyntiq/rag/ingestion.py:70-114 | a replacement leaves every other source alone if and only if no point of another source with the same folded path holds the same content at an index it writes |
| Ingestion.TwinIsTakenOver | src/orbyntiq/rag/ingestion.py:45-120 | two one-section files whose names differ in case only, both ingested with success: the first held a chunk and then holds none |
| Ingestion.TwinsOverwrite | src/orbyntiq/rag/ingestion.py:45-120 | of any two files with the same bytes and folded path, ingested one after the other with success, the first holds nothing afterwards |
| Ingestion.DocumentIdsFollowFolding | src/orbyntiq/rag/documents.py:51-59 | two paths have the same document id exactly when their casefolded forms are equal |
| Ingestion.SourcesAreIndependent | src/orbyntiq/rag/ingestion.py:45-120 | over any sequence of attempts, failing anywhere, on paths distinct under casefolding, what a source holds depends on its own attempts alone |
| Ingestion.LastSuccessStays | src/orbyntiq/rag/ingestion.py:70-87 | attempts that do not reach a delete of the source leave its version in place |
| KnowledgeBase.InventoryShowsTheIndex | src/orbyntiq/api/routes/knowledge.py:133-206 | over an index on paths distinct under casefolding, scrolled in any order, the inventory lists a source exactly when it holds points, once, with the number of points it holds |
| KnowledgeBase.IngestedIsListed | src/orbyntiq/rag/ingestion.py:45-120 | after a successful ingestion the inventory lists the document by the name, path and checksum of its current content, with the number of chunks the ingestion reported and the number of pages they come from |
| Inventory.ScrollPayloads | src/orbyntiq/api/routes/knowledge.py:104-130 | scrolling collects every payload of the collection once and in order, for any page size |
| Inventory.BuildDocumentInventory | src/orbyntiq/api/routes/knowledge.py:133-206 | the grouping loop and the list behind it give the inventory |
| Inventory.InventoryIsComplete | src/orbyntiq/api/routes/knowledge.py:133-206 | one entry for each document id, with its count and its distinct parsable pages, strictly ordered by folded name and id; counts add up to the payloads with an id |
| Inventory.FirstPayloadSays | src/orbyntiq/api/routes/knowledge.py:149-206 | a listed document goes by the name, path and checksum of its very first payload, with the defaults for what is missing, and shows the number of its payloads and of its distinct pages |
| Inventory.ListedInOrder | src/orbyntiq/api/routes/knowledge.py:186-206 | of two listed documents the one whose folded name is first in lexicographic order comes first, and of two with the same folded name the one whose id is |
| Inventory.InventoryIgnoresOrder | src/orbyntiq/api/routes/knowledge.py:133-206 | payloads that agree on each document's metadata give the same inventory in every order |
| Inventory.OrderMattersOnlyOnDisagreement | src/orbyntiq/api/routes/knowledge.py:149-170 | the inventory is the same for every order of the payloads if and only if they agree on each document's metadata |
| Inventory.FirstNameIsShown | src/orbyntiq/api/routes/knowledge.py:149-170 | two payloads of one document that disagree on its name, listed differently in the two orders |
| RedisKeys.KeyReadsBack | src/orbyntiq/core/redis_keys.py:4-58 | a key exists iff the stripped components are not empty and have no colon; splitting it gives back prefix, environment, kind and components |
| RedisKeys.KeysAreInjective | src/orbyntiq/core/redis_keys.py:34-58 | two keys are equal iff prefix, environment, kind and stripped components are |
| RedisKeys.CreateBuilder | src/orbyntiq/core/redis_keys.py:17-35 | a builder exists iff the stripped prefix and environment are not empty and have no colon, and then keeps them; the error is that of the first bad one |
| RedisKeys.CreatedKeysAreInjective | src/orbyntiq/core/redis_keys.py:17-58 | keys of any two builders made by the constructor are equal iff all stripped parts are |
| RedisStores.SaveReplaces | src/orbyntiq/services/state_store.py:22-34 | a save leaves exactly the given fields and the new deadline, whatever was under the key |
| RedisStores.ServedAlike | src/orbyntiq/services/state_store.py:22-54 | one call on the shared Redis replies and changes what it does on its name's own entry |
| RedisStores.StoresAreSeparate | src/orbyntiq/services/session_store.py:24-62 | any run of all stores, of any number of environments, on one Redis gives reply for reply what separate maps with expiry give; no value of the wrong type is ever met |
| RedisStores.StoresAreSeparateFromTheStart | src/orbyntiq/services/session_store.py:24-62 | the same from an empty Redis |
| RedisStores.SavedIsReadBack | src/orbyntiq/services/session_store.py:24-47 | a save on the shared Redis, then any run about other names, then a get: the data that was saved until the time of its kind, session, conversation or agent, is up, and nothing afterwards |
| RedisStores.TouchedLivesOn | src/orbyntiq/services/state_store.py:48-53 | after a refresh, and any run about other names, the data is read back until the time of its kind, counted from the refresh, is up |
| RedisStores.PutIsFetched | src/orbyntiq/services/cache.py:28-66 | a text put in the cache, then any run about other names, is found until its own time, or else the cache's, is up |
| RedisStores.RemovedIsGone | src/orbyntiq/services/state_store.py:44-46 | what is removed is not found afterwards, whatever happens under other names, and the reply tells whether it was there |
| RedisStores.TurnedDown | src/orbyntiq/services/state_store.py:22-34 | a call that is turned down changes nothing, and the order of its checks |
| RedisStores.EveryGetIsCounted | src/orbyntiq/services/cache.py:52-66 | over any run of all stores on one Redis, the hits and misses a cache counts are together the gets made under valid names, and the hits are those that found a live entry |
| RedisStores.RedisHashStore.SaveData | src/orbyntiq/services/state_store.py:22-34 | the reply and the Redis after a save, with the order of its checks |
| RedisStores.RedisHashStore.TouchData | src/orbyntiq/services/state_store.py:48-53 | the reply and the Redis after a refresh |
| RedisStores.RedisCache.PutText | src/orbyntiq/services/cache.py:28-50 | the reply and the Redis after a set, with its time to live |
| RedisStores.RedisCache.FetchText | src/orbyntiq/services/cache.py:52-66 | the reply of a get, and the counters after it |

## Left out

- Server handler and task are one state machine on values, because their point is the interleaving; the coroutine code itself is not restated as methods.
- The page hears connection states right after the call of the socket service that published them, and no field it reads changes in between; RxJS itself is not part of this model.
- The second page, `chat-state.service.ts`: it follows the direct-mode protocol of the workspace; its connects and sends are in the model as those of another page on the same socket service.
- A query reaches the workspace model trimmed; JavaScript's trim and Python's strip differ on a few characters.
- Events without a request id: the server's schemas require one.
- Message and request validation by Pydantic is one choice, valid or not; the four texts of the invalid-request error are one, and an invalid heartbeat counts as one of them.
- What a chat task sends to the provider is the text of the message it holds; the provider's answer is any stream of lines, whatever the text.
- Workflow events of an agent task reach the connection model as arbitrary events about its request; `MultiAgent` says which events they are, and `AgentAnswers` takes as its hypothesis that a task sends what its execution attempts to report, up to the moment its peer leaves, deliveries that raise or are hit by a cancellation being sent or not.
- Whether what surrounds an agent execution catches an exception raised while it is cancelled is one choice: a cancelled agent task may go on at any time.
- The event and row payload of an agent result is one text; null route reasons, sources and errors keep their meaning, other payload fields do not appear.
- A graph without streaming is taken to return a state, as its type says.
- Construction of `MultiAgentService` with one repository only, and identifiers and times it generates.
- What models, embeddings, retrieval, tools and PDF extraction produce; the phrase lists and prompts of the supervisor; the route is any valid choice.
- The `messages` list of the agent state; `max_hops`, which is stored and never read by a node.
- Instrumentation of graph nodes, spans, metrics other than cache hits and misses, and logging.
- The semaphore around provider calls, the HTTP client field and its closing.
- Drivers and wire formats of MongoDB, Qdrant, Redis, httpx and Starlette.
- File system checks and decoding in `load_document`; a document starts as the texts of its pages.
- JSON forms of the cache (`set_json`, `get_json`): serialization is not part of this model.
- Session, conversation and agent stores are one class over the kind of name; the two source classes do the same, except for the order of two checks, which is modelled.
- Python's `sorted`, `rfind` and `casefold`: the first two are functions with their meaning proved, the last is any function.
- Angular components, page state of other pages, configuration, application lifespan, scripts.
