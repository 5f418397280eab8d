/** The optional value used throughout the project. */
module Options {
  datatype Option<+T> = None | Some(value: T)
}

/** The messages that cross the WebSocket: what the browser asks for and what the server answers. */
module Protocol {
  import opened Options

  /** Each page numbers its own requests, so the two pages that share the socket never share an id. */
  datatype RequestId = WorkspaceId(number: nat) | ChatId(number: nat) | UnknownId

  datatype Route = Research | Mcp | General

  function RouteName(r: Route): string {
    match r
    case Research => "research"
    case Mcp => "mcp"
    case General => "general"
  }

  datatype ClientMessage =
    | Chat(request: RequestId, message: string)
    | AgentExecute(request: RequestId, query: string, conversation: nat, maxHops: nat)
    | Cancel(request: RequestId)
    | Ping

  datatype WorkflowEventType =
    | ExecutionStarted
    | RoutingCompleted
    | AgentStarted
    | AgentResult
    | ExecutionCompleted
    | ExecutionFailed

  /** A workflow payload as its readers see it: fields of the wrong type read as absent. */
  datatype Payload = Payload(
    route: Option<Route>,
    routeReason: Option<string>,
    error: Option<string>,
    sources: seq<string>,
    hopCount: Option<int>,
    errors: seq<string>,
    finalResponse: Option<string>)

  datatype ServerEvent =
    | Started(request: RequestId, model: string)
    | Chunk(request: RequestId, content: string)
    | Completed(request: RequestId, model: string)
    | Cancelled(request: RequestId)
    | AgentEvent(request: RequestId, execution: string, sequence: nat, kind: WorkflowEventType,
                 agent: Option<string>, payload: Payload)
    | Pong
    | Error(request: RequestId, message: string)
}
