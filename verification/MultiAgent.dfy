/**
 One execution of the multi-agent service: the graph is run, its progress is reported to an
 optional callback, and its history is written to two repositories.

 Everything outside the service is a parameter: what the graph does, how each repository call and
 each callback comes out. A repository call that fails may or may not have taken effect, and any
 await may be hit by a cancellation.
 */
module MultiAgent {
  import opened Options
  import opened Protocol
  import Text

  const CANCELLED := "Multi-agent execution cancelled."
  const GRAPH_FAILED := "Multi-agent graph execution failed."
  const INVALID_ROUTE := "Multi-agent execution returned an invalid route."
  const NO_RESPONSE := "Multi-agent execution returned no final response."
  const START_NOT_PERSISTED := "Failed to persist multi-agent execution start."
  const RESULT_NOT_PERSISTED := "Failed to persist multi-agent execution result."

  // ---------------------------------------------------------------- what the graph produces

  datatype Result = Result(agent: Option<string>, body: string)

  /** An entry of agent_results; entries that are not dictionaries are skipped. */
  datatype Item = Dict(result: Result) | NotADict

  /** A field read with a default, then turned into text: a null becomes the word None. */
  datatype Field = Missing | Null | Given(text: string)

  datatype GraphState = GraphState(
    requestId: Option<string>,
    route: Option<Route>,
    routeReason: Option<string>,
    results: seq<Item>,
    finalResponse: Field,
    sources: seq<string>,
    errors: seq<string>,
    hopCount: int)

  datatype Streamed = State(state: GraphState) | NotAState

  datatype Ending = Finishes | Raises | IsCancelled

  datatype Graph = Graph(items: seq<Streamed>, ending: Ending)

  function DictResults(items: seq<Item>): seq<Result> {
    if items == [] then []
    else (if items[0].Dict? then [items[0].result] else []) + DictResults(items[1..])
  }

  function LastState(items: seq<Streamed>): Option<GraphState> {
    if items == [] then None
    else
      var last := items[|items| - 1];
      if last.State? then Some(last.state) else LastState(items[..|items| - 1])
  }

  function ResponseText(f: Field): string {
    match f
    case Missing => ""
    case Null => "None"
    case Given(text) => text
  }

  // ---------------------------------------------------------------- events, rows and the document

  datatype Details =
    | StartDetails(request: string, query: string)
    | RouteDetails(route: Route, reason: Option<string>)
    | AgentDetails(route: Route)
    | ResultDetails(body: string)
    | CompletedDetails(route: Route, hopCount: int, response: string, errors: seq<string>, sources: seq<string>)
    | FailedDetails(error: string)

  datatype Body = Body(kind: WorkflowEventType, agent: Option<string>, details: Details)

  /** An event given to the callback. */
  datatype Event = Event(request: string, sequence: nat, body: Body)

  /** A row of the workflow history of this execution. */
  datatype Row = Row(sequence: nat, body: Body)

  datatype Execution = Execution(
    request: string,
    route: Route,
    reason: Option<string>,
    response: string,
    sources: seq<string>,
    errors: seq<string>,
    results: seq<Result>,
    hopCount: int)

  datatype Document = RunningDocument | CompletedDocument(execution: Execution) | FailedDocument(error: string)

  function StartedBody(request: string, query: string): Body {
    Body(ExecutionStarted, Some("supervisor"), StartDetails(request, query))
  }

  function RoutingBody(route: Route, reason: Option<string>): Body {
    Body(RoutingCompleted, Some("supervisor"), RouteDetails(route, reason))
  }

  function AgentStartedBody(route: Route): Body {
    Body(AgentStarted, Some(RouteName(route)), AgentDetails(route))
  }

  function ResultBody(r: Result): Body {
    Body(AgentResult, r.agent, ResultDetails(r.body))
  }

  function CompletedBody(x: Execution): Body {
    Body(ExecutionCompleted, Some("synthesizer"),
      CompletedDetails(x.route, x.hopCount, x.response, x.errors, x.sources))
  }

  function FailedBody(error: string): Body {
    Body(ExecutionFailed, None, FailedDetails(error))
  }

  function ResultBodies(results: seq<Result>): seq<Body> {
    seq(|results|, i requires 0 <= i < |results| => ResultBody(results[i]))
  }

  // ---------------------------------------------------------------- the stores

  datatype StoreOutcome = Works | Fails(applied: bool) | Interrupts(applied: bool)

  datatype CallResult = Ok | RepositoryError | CancelledError

  datatype StoreCall = CreateDocument(document: Document) | InsertRow(row: Row) | ReplaceDocument(document: Document)

  datatype Store = Store(rows: seq<Row>, document: Option<Document>, calls: nat)

  const EmptyStore := Store([], None, 0)

  /** A second row with the same sequence, a second document, or a replacement of nothing. */
  predicate Refused(s: Store, c: StoreCall) {
    match c
    case CreateDocument(_) => s.document.Some?
    case InsertRow(row) => exists other <- s.rows :: other.sequence == row.sequence
    case ReplaceDocument(_) => s.document.None?
  }

  function Apply(s: Store, c: StoreCall): Store {
    match c
    case CreateDocument(d) => s.(document := Some(d))
    case InsertRow(row) => s.(rows := s.rows + [row])
    case ReplaceDocument(d) => s.(document := Some(d))
  }

  /** A call that the store refuses has no effect and raises. */
  function Perform(s: Store, c: StoreCall, outcomes: nat -> StoreOutcome): (Store, CallResult) {
    var outcome := outcomes(s.calls);
    var s := s.(calls := s.calls + 1);
    match outcome
    case Works => if Refused(s, c) then (s, RepositoryError) else (Apply(s, c), Ok)
    case Fails(applied) => (if applied && !Refused(s, c) then Apply(s, c) else s, RepositoryError)
    case Interrupts(applied) => (if applied && !Refused(s, c) then Apply(s, c) else s, CancelledError)
  }

  /** Performs the calls in order, up to and including the first that does not work. */
  function PerformAll(s: Store, calls: seq<StoreCall>, outcomes: nat -> StoreOutcome): (Store, CallResult)
    decreases |calls|
  {
    if calls == [] then (s, Ok)
    else
      var (t, r) := Perform(s, calls[0], outcomes);
      if r == Ok then PerformAll(t, calls[1..], outcomes) else (t, r)
  }

  class Repositories {
    var rows: seq<Row>
    var document: Option<Document>
    var calls: nat
    const outcomes: nat -> StoreOutcome

    ghost function View(): Store
      reads this
    {
      Store(rows, document, calls)
    }

    constructor (outcomes: nat -> StoreOutcome)
      ensures View() == EmptyStore && this.outcomes == outcomes
    {
      rows, document, calls := [], None, 0;
      this.outcomes := outcomes;
    }

    method Call(c: StoreCall) returns (r: CallResult)
      modifies this
      ensures (View(), r) == Perform(old(View()), c, outcomes)
    {
      var outcome := outcomes(calls);
      calls := calls + 1;
      var refused := Refused(Store(rows, document, calls), c);
      if (outcome.Works? || outcome.applied) && !refused {
        match c {
          case CreateDocument(d) => document := Some(d);
          case InsertRow(row) => rows := rows + [row];
          case ReplaceDocument(d) => document := Some(d);
        }
      }
      match outcome {
        case Works => r := if refused then RepositoryError else Ok;
        case Fails(_) => r := RepositoryError;
        case Interrupts(_) => r := CancelledError;
      }
    }
  }

  // ---------------------------------------------------------------- the callback

  datatype CallbackOutcome = Delivered | Raised | Interrupted

  /** Attempts the events in order, up to and including the first whose delivery is interrupted. */
  function EmitAll(attempted: seq<Event>, events: seq<Event>, outcomes: nat -> CallbackOutcome): (seq<Event>, bool)
    decreases |events|
  {
    if events == [] then (attempted, false)
    else
      var next := attempted + [events[0]];
      if outcomes(|attempted|).Interrupted? then (next, true) else EmitAll(next, events[1..], outcomes)
  }

  class EventSink {
    var attempted: seq<Event>
    const present: bool
    const outcomes: nat -> CallbackOutcome

    constructor (present: bool, outcomes: nat -> CallbackOutcome)
      ensures attempted == [] && this.present == present && this.outcomes == outcomes
    {
      attempted := [];
      this.present, this.outcomes := present, outcomes;
    }

    /** An exception of the callback is swallowed; a cancellation is not. */
    method Emit(event: Event) returns (interrupted: bool)
      modifies this
      ensures (attempted, interrupted) == if present then EmitAll(old(attempted), [event], outcomes)
        else (old(attempted), false)
    {
      if !present {
        return false;
      }
      interrupted := outcomes(|attempted|).Interrupted?;
      attempted := attempted + [event];
    }
  }

  // ---------------------------------------------------------------- one execution

  /** The request, and how everything around the service behaves. */
  datatype Setup = Setup(
    query: string,
    request: string,
    maxHops: int,
    persist: bool,
    storeOutcomes: nat -> StoreOutcome,
    callback: bool,
    callbackOutcomes: nat -> CallbackOutcome,
    streams: bool,
    graph: Graph)

  datatype Verdict = Stopped | Broken | BadRoute | NoResponse | Good(execution: Execution)

  datatype Outcome = Rejected | Failed(error: string) | CancelledOut | Returned(execution: Execution)

  /** The events are streamed while the graph runs when somebody listens and the graph can stream. */
  predicate Live(s: Setup) {
    s.callback && s.streams
  }

  predicate Acceptable(s: Setup) {
    Text.Strip(s.query) != "" && s.maxHops >= 1
  }

  function ExecutionOf(s: Setup, x: GraphState): Execution
    requires x.route.Some?
  {
    Execution(
      if x.requestId.Some? then x.requestId.value else s.request,
      x.route.value, x.routeReason, Text.Strip(ResponseText(x.finalResponse)),
      x.sources, x.errors, DictResults(x.results), x.hopCount)
  }

  /** What the service makes of the way the graph ended. */
  function Judge(s: Setup): Verdict {
    match s.graph.ending
    case IsCancelled => Stopped
    case Raises => Broken
    case Finishes =>
      match LastState(s.graph.items)
      case None => Broken
      case Some(x) =>
        if x.route.None? then BadRoute
        else if Text.Strip(ResponseText(x.finalResponse)) == "" then NoResponse
        else Good(ExecutionOf(s, x))
  }

  function ErrorOf(v: Verdict): string
    requires !v.Good?
  {
    match v
    case Stopped => CANCELLED
    case Broken => GRAPH_FAILED
    case BadRoute => INVALID_ROUTE
    case NoResponse => NO_RESPONSE
  }

  function Query(s: Setup): string {
    Text.Strip(s.query)
  }

  // The scripts: which calls each part of an execution makes when nothing goes wrong.

  function StartCalls(s: Setup): seq<StoreCall> {
    [CreateDocument(RunningDocument), InsertRow(Row(0, StartedBody(s.request, Query(s))))]
  }

  function FailCalls(error: string): seq<StoreCall> {
    [InsertRow(Row(1, FailedBody(error))), ReplaceDocument(FailedDocument(error))]
  }

  /** The bodies that report a successful run after its start. */
  function SuccessBodies(x: Execution): seq<Body> {
    [RoutingBody(x.route, x.reason)] + ResultBodies(x.results) + [CompletedBody(x)]
  }

  function Inserts(bodies: seq<Body>, from: nat): seq<StoreCall> {
    seq(|bodies|, i requires 0 <= i < |bodies| => InsertRow(Row(from + i, bodies[i])))
  }

  function SuccessCalls(x: Execution): seq<StoreCall> {
    Inserts(SuccessBodies(x), 1) + [ReplaceDocument(CompletedDocument(x))]
  }

  function Numbered(request: string, bodies: seq<Body>, from: nat): seq<Event> {
    seq(|bodies|, i requires 0 <= i < |bodies| => Event(request, from + i, bodies[i]))
  }

  /** What the streaming branch reports for one state: the route once, then the results not seen before. */
  function NewBodies(x: GraphState, routed: bool, emitted: nat): seq<Body> {
    var results := DictResults(x.results);
    (if !routed && x.route.Some?
     then [RoutingBody(x.route.value, x.routeReason), AgentStartedBody(x.route.value)] else [])
    + (if emitted < |results| then ResultBodies(results[emitted..]) else [])
  }

  function LiveBodies(items: seq<Streamed>, routed: bool, emitted: nat): seq<Body> {
    if items == [] then []
    else if items[0].NotAState? then LiveBodies(items[1..], routed, emitted)
    else
      var x := items[0].state;
      NewBodies(x, routed, emitted) + LiveBodies(items[1..], routed || x.route.Some?, |DictResults(x.results)|)
  }

  datatype Run = Run(store: Store, attempted: seq<Event>, outcome: Outcome)

  function Write(s: Setup, store: Store, calls: seq<StoreCall>): (Store, CallResult) {
    if s.persist then PerformAll(store, calls, s.storeOutcomes) else (store, Ok)
  }

  function Report(s: Setup, attempted: seq<Event>, events: seq<Event>): (seq<Event>, bool) {
    if s.callback then EmitAll(attempted, events, s.callbackOutcomes) else (attempted, false)
  }

  /** The events of the streaming phase, and whether a cancellation hit one of their deliveries. */
  function StreamPhase(s: Setup, attempted: seq<Event>): (seq<Event>, bool) {
    if Live(s) then Report(s, attempted, Numbered(s.request, LiveBodies(s.graph.items, false, 0), 1))
    else (attempted, false)
  }

  /** The next callback number after the streaming phase: an interrupted delivery has not been counted. */
  function CallbackSequence(s: Setup, attempted: seq<Event>, interrupted: bool): nat {
    if !Live(s) then 1
    else if interrupted then if |attempted| > 0 then |attempted| - 1 else 0
    else |attempted|
  }

  /** Every failure is written and reported; the two checks after the graph report with the number of the next row. */
  function FailPhase(s: Setup, store: Store, attempted: seq<Event>, v: Verdict, sequence: nat): Run
    requires !v.Good?
  {
    var error := ErrorOf(v);
    var (store, r) := Write(s, store, FailCalls(error));
    if r == CancelledError then Run(store, attempted, CancelledOut)
    else
      var number := if v.BadRoute? || v.NoResponse? then 1 else sequence;
      var (attempted, interrupted) := Report(s, attempted, [Event(s.request, number, FailedBody(error))]);
      Run(store, attempted, if interrupted || v.Stopped? then CancelledOut else Failed(error))
  }

  function ClosingEvents(s: Setup, x: Execution, sequence: nat): seq<Event> {
    if Live(s) then [Event(x.request, sequence, CompletedBody(x))] else Numbered(x.request, SuccessBodies(x), 1)
  }

  function SuccessPhase(s: Setup, store: Store, attempted: seq<Event>, x: Execution, sequence: nat): Run {
    var (store, r) := Write(s, store, SuccessCalls(x));
    if r == RepositoryError then Run(store, attempted, Failed(RESULT_NOT_PERSISTED))
    else if r == CancelledError then Run(store, attempted, CancelledOut)
    else
      var (attempted, interrupted) := Report(s, attempted, ClosingEvents(s, x, sequence));
      Run(store, attempted, if interrupted then CancelledOut else Returned(x))
  }

  function VerdictOf(s: Setup, interrupted: bool): Verdict {
    if interrupted then Stopped else Judge(s)
  }

  function AfterStart(s: Setup, store: Store, attempted: seq<Event>): Run {
    var (attempted, interrupted) := StreamPhase(s, attempted);
    var sequence := CallbackSequence(s, attempted, interrupted);
    var v := VerdictOf(s, interrupted);
    if v.Good? then SuccessPhase(s, store, attempted, v.execution, sequence)
    else FailPhase(s, store, attempted, v, sequence)
  }

  function StartEvent(s: Setup): Event {
    Event(s.request, 0, StartedBody(s.request, Query(s)))
  }

  /** The whole execution. */
  function Executed(s: Setup): Run {
    if !Acceptable(s) then Run(EmptyStore, [], Rejected)
    else
      var (store, r) := Write(s, EmptyStore, StartCalls(s));
      if r == RepositoryError then Run(store, [], Failed(START_NOT_PERSISTED))
      else if r == CancelledError then Run(store, [], CancelledOut)
      else
        var (attempted, interrupted) := Report(s, [], [StartEvent(s)]);
        if interrupted then Run(store, attempted, CancelledOut) else AfterStart(s, store, attempted)
  }

  // ---------------------------------------------------------------- doing a part, then the rest

  lemma {:induction false} EmitSplit(attempted: seq<Event>, first: seq<Event>, rest: seq<Event>,
      outcomes: nat -> CallbackOutcome)
    ensures EmitAll(attempted, first + rest, outcomes) ==
      var (next, interrupted) := EmitAll(attempted, first, outcomes);
      if interrupted then (next, true) else EmitAll(next, rest, outcomes)
    decreases |first|
  {
    if first == [] {
      assert first + rest == rest;
    } else {
      assert (first + rest)[0] == first[0] && (first + rest)[1..] == first[1..] + rest;
      EmitSplit(attempted + [first[0]], first[1..], rest, outcomes);
    }
  }

  lemma ReportSplit(s: Setup, attempted: seq<Event>, first: seq<Event>, rest: seq<Event>)
    ensures Report(s, attempted, first + rest) ==
      var (next, interrupted) := Report(s, attempted, first);
      if interrupted then (next, true) else Report(s, next, rest)
  {
    EmitSplit(attempted, first, rest, s.callbackOutcomes);
  }

  lemma {:induction false} PerformSplit(store: Store, first: seq<StoreCall>, rest: seq<StoreCall>,
      outcomes: nat -> StoreOutcome)
    ensures PerformAll(store, first + rest, outcomes) ==
      var (next, r) := PerformAll(store, first, outcomes);
      if r == Ok then PerformAll(next, rest, outcomes) else (next, r)
    decreases |first|
  {
    if first == [] {
      assert first + rest == rest;
    } else {
      assert (first + rest)[0] == first[0] && (first + rest)[1..] == first[1..] + rest;
      PerformSplit(Perform(store, first[0], outcomes).0, first[1..], rest, outcomes);
    }
  }

  lemma WriteSplit(s: Setup, store: Store, first: seq<StoreCall>, rest: seq<StoreCall>)
    ensures Write(s, store, first + rest) ==
      var (next, r) := Write(s, store, first);
      if r == Ok then Write(s, next, rest) else (next, r)
  {
    PerformSplit(store, first, rest, s.storeOutcomes);
  }

  lemma NumberedSplit(request: string, first: seq<Body>, rest: seq<Body>, from: nat)
    ensures Numbered(request, first + rest, from) ==
      Numbered(request, first, from) + Numbered(request, rest, from + |first|)
  {
  }

  lemma InsertsSplit(first: seq<Body>, rest: seq<Body>, from: nat)
    ensures Inserts(first + rest, from) == Inserts(first, from) + Inserts(rest, from + |first|)
  {
  }

  /** What is left to report of the streamed states from number i on, one state after the other. */
  function Ahead(s: Setup, attempted: seq<Event>, i: nat, routed: bool, emitted: nat, sequence: nat): (seq<Event>, bool)
    requires i <= |s.graph.items|
    decreases |s.graph.items| - i
  {
    if i == |s.graph.items| then (attempted, false)
    else
      match s.graph.items[i]
      case NotAState => Ahead(s, attempted, i + 1, routed, emitted, sequence)
      case State(x) =>
        var bodies := NewBodies(x, routed, emitted);
        var (next, interrupted) := Report(s, attempted, Numbered(s.request, bodies, sequence));
        if interrupted then (next, true)
        else Ahead(s, next, i + 1, routed || x.route.Some?, |DictResults(x.results)|, sequence + |bodies|)
  }

  lemma LiveNext(items: seq<Streamed>, i: nat, routed: bool, emitted: nat)
    requires i < |items|
    ensures LiveBodies(items[i..], routed, emitted) ==
      match items[i]
      case NotAState => LiveBodies(items[i + 1..], routed, emitted)
      case State(x) =>
        NewBodies(x, routed, emitted) + LiveBodies(items[i + 1..], routed || x.route.Some?, |DictResults(x.results)|)
  {
    assert items[i..][0] == items[i] && items[i..][1..] == items[i + 1..];
  }

  /** State after state, the whole live log is reported. */
  lemma {:induction false} AheadIsTheLog(
      s: Setup, attempted: seq<Event>, i: nat, routed: bool, emitted: nat, sequence: nat)
    requires i <= |s.graph.items|
    ensures Ahead(s, attempted, i, routed, emitted, sequence) ==
      Report(s, attempted, Numbered(s.request, LiveBodies(s.graph.items[i..], routed, emitted), sequence))
    decreases |s.graph.items| - i
  {
    var items := s.graph.items;
    if i == |items| {
      assert Numbered(s.request, LiveBodies(items[i..], routed, emitted), sequence) == [];
    } else {
      LiveNext(items, i, routed, emitted);
      match items[i]
      case NotAState => AheadIsTheLog(s, attempted, i + 1, routed, emitted, sequence);
      case State(x) =>
        var bodies := NewBodies(x, routed, emitted);
        var rest := LiveBodies(items[i + 1..], routed || x.route.Some?, |DictResults(x.results)|);
        ReportNumbered(s, attempted, bodies, rest, sequence);
        var next := Report(s, attempted, Numbered(s.request, bodies, sequence)).0;
        AheadIsTheLog(s, next, i + 1, routed || x.route.Some?, |DictResults(x.results)|, sequence + |bodies|);
    }
  }

  lemma ReportNumbered(s: Setup, attempted: seq<Event>, first: seq<Body>, rest: seq<Body>, from: nat)
    ensures Report(s, attempted, Numbered(s.request, first + rest, from)) ==
      var (next, interrupted) := Report(s, attempted, Numbered(s.request, first, from));
      if interrupted then (next, true) else Report(s, next, Numbered(s.request, rest, from + |first|))
  {
    NumberedSplit(s.request, first, rest, from);
    ReportSplit(s, attempted, Numbered(s.request, first, from), Numbered(s.request, rest, from + |first|));
  }

  // ---------------------------------------------------------------- the service

  class MultiAgentService {
    const setup: Setup
    const repositories: Repositories
    const sink: EventSink

    ghost predicate Wired() {
      && repositories.outcomes == setup.storeOutcomes
      && sink.present == setup.callback
      && sink.outcomes == setup.callbackOutcomes
    }

    constructor (setup: Setup)
      ensures this.setup == setup && Wired() && fresh(repositories) && fresh(sink)
      ensures repositories.View() == EmptyStore && sink.attempted == []
    {
      this.setup := setup;
      repositories := new Repositories(setup.storeOutcomes);
      sink := new EventSink(setup.callback, setup.callbackOutcomes);
    }

    /** Emits one event. */
    method EmitEvent(request: string, sequence: nat, body: Body) returns (interrupted: bool)
      requires Wired()
      modifies sink
      ensures (sink.attempted, interrupted) == Report(setup, old(sink.attempted), Numbered(request, [body], sequence))
      ensures setup.callback ==> |sink.attempted| == |old(sink.attempted)| + 1
    {
      assert Numbered(request, [body], sequence) == [Event(request, sequence, body)];
      interrupted := sink.Emit(Event(request, sequence, body));
    }

    /** Emits one event for each result, and says which number comes next. */
    method EmitResults(request: string, results: seq<Result>, from: nat) returns (interrupted: bool, sequence: nat)
      requires Wired()
      modifies sink
      ensures (sink.attempted, interrupted) ==
        Report(setup, old(sink.attempted), Numbered(request, ResultBodies(results), from))
      ensures !interrupted ==> sequence == from + |results|
      ensures setup.callback ==>
        sequence - from == |sink.attempted| - |old(sink.attempted)| - if interrupted then 1 else 0
    {
      sequence := from;
      interrupted := false;
      ghost var all := Numbered(request, ResultBodies(results), from);
      assert all == Numbered(request, ResultBodies(results[0..]), from);
      for i := 0 to |results|
        invariant sequence == from + i && !interrupted
        invariant setup.callback ==> |sink.attempted| == |old(sink.attempted)| + i
        invariant Report(setup, old(sink.attempted), all) ==
          Report(setup, sink.attempted, Numbered(request, ResultBodies(results[i..]), sequence))
      {
        var body := ResultBody(results[i]);
        assert ResultBodies(results[i..]) == [body] + ResultBodies(results[i + 1..]);
        NumberedSplit(request, [body], ResultBodies(results[i + 1..]), sequence);
        ReportSplit(setup, sink.attempted, Numbered(request, [body], sequence),
          Numbered(request, ResultBodies(results[i + 1..]), sequence + 1));
        interrupted := EmitEvent(request, sequence, body);
        if interrupted {
          return;
        }
        sequence := sequence + 1;
      }
      assert Numbered(request, ResultBodies(results[|results|..]), sequence) == [];
    }

    /** What one streamed state adds to the live log. */
    method EmitState(x: GraphState, routed: bool, emitted: nat, from: nat) returns (interrupted: bool, sequence: nat)
      requires Wired() && setup.callback
      modifies sink
      ensures (sink.attempted, interrupted) ==
        Report(setup, old(sink.attempted), Numbered(setup.request, NewBodies(x, routed, emitted), from))
      ensures !interrupted ==> sequence == from + |NewBodies(x, routed, emitted)|
      ensures sequence - from == |sink.attempted| - |old(sink.attempted)| - if interrupted then 1 else 0
    {
      var request := setup.request;
      sequence := from;
      interrupted := false;
      var results := DictResults(x.results);
      var fresher := if emitted < |results| then results[emitted..] else [];
      ghost var last := ResultBodies(fresher);
      if !routed && x.route.Some? {
        var routing, started := RoutingBody(x.route.value, x.routeReason), AgentStartedBody(x.route.value);
        assert NewBodies(x, routed, emitted) == [routing] + ([started] + last);
        NumberedSplit(request, [routing], [started] + last, from);
        ReportSplit(setup, sink.attempted, Numbered(request, [routing], from),
          Numbered(request, [started] + last, from + 1));
        interrupted := EmitEvent(request, sequence, routing);
        if interrupted {
          return;
        }
        sequence := sequence + 1;
        NumberedSplit(request, [started], last, from + 1);
        ReportSplit(setup, sink.attempted, Numbered(request, [started], from + 1), Numbered(request, last, from + 2));
        interrupted := EmitEvent(request, sequence, started);
        if interrupted {
          return;
        }
        sequence := sequence + 1;
      } else {
        assert NewBodies(x, routed, emitted) == last;
      }
      interrupted, sequence := EmitResults(request, fresher, sequence);
    }

    /** One streamed item, compared with what has been reported before. */
    method EmitItem(i: nat, routed: bool, emitted: nat, from: nat)
      returns (interrupted: bool, nowRouted: bool, nowEmitted: nat, sequence: nat)
      requires Wired() && setup.callback && i < |setup.graph.items|
      modifies sink
      ensures Ahead(setup, old(sink.attempted), i, routed, emitted, from) ==
        if interrupted then (sink.attempted, true)
          else Ahead(setup, sink.attempted, i + 1, nowRouted, nowEmitted, sequence)
      ensures sequence - from == |sink.attempted| - |old(sink.attempted)| - if interrupted then 1 else 0
    {
      var item := setup.graph.items[i];
      interrupted, nowRouted, nowEmitted, sequence := false, routed, emitted, from;
      if item.State? {
        interrupted, sequence := EmitState(item.state, routed, emitted, from);
        nowRouted, nowEmitted := routed || item.state.route.Some?, |DictResults(item.state.results)|;
      }
    }

    /** The streaming branch: every state the graph yields, in order. */
    method StreamGraph() returns (interrupted: bool, sequence: nat)
      requires Wired() && setup.callback
      modifies sink
      ensures (sink.attempted, interrupted) ==
        Report(setup, old(sink.attempted), Numbered(setup.request, LiveBodies(setup.graph.items, false, 0), 1))
      ensures sequence == 1 + |sink.attempted| - |old(sink.attempted)| - if interrupted then 1 else 0
    {
      AheadIsTheLog(setup, sink.attempted, 0, false, 0, 1);
      assert setup.graph.items[0..] == setup.graph.items;
      interrupted, sequence := StreamItems();
    }

    /** The loop over the items; what is ahead of it at the start is the whole live log. */
    method StreamItems() returns (interrupted: bool, sequence: nat)
      requires Wired() && setup.callback
      modifies sink
      ensures (sink.attempted, interrupted) == Ahead(setup, old(sink.attempted), 0, false, 0, 1)
      ensures sequence == 1 + |sink.attempted| - |old(sink.attempted)| - if interrupted then 1 else 0
    {
      var routed: bool, emitted: nat := false, 0;
      sequence := 1;
      interrupted := false;
      ghost var all := Ahead(setup, sink.attempted, 0, false, 0, 1);
      for i := 0 to |setup.graph.items|
        invariant !interrupted
        invariant sequence == 1 + |sink.attempted| - |old(sink.attempted)|
        invariant all == Ahead(setup, sink.attempted, i, routed, emitted, sequence)
      {
        interrupted, routed, emitted, sequence := EmitItem(i, routed, emitted, sequence);
        if interrupted {
          return;
        }
      }
    }

    /** One call of a repository, when persistence is on. */
    method Perform1(c: StoreCall) returns (r: CallResult)
      requires Wired()
      modifies repositories
      ensures (repositories.View(), r) == Write(setup, old(repositories.View()), [c])
    {
      ghost var before := repositories.View();
      if setup.persist {
        r := repositories.Call(c);
        assert [c][1..] == [];
        assert PerformAll(before, [c], setup.storeOutcomes) == Perform(before, c, setup.storeOutcomes);
      } else {
        r := Ok;
      }
    }

    method PersistStart() returns (r: CallResult)
      requires Wired()
      modifies repositories
      ensures (repositories.View(), r) == Write(setup, old(repositories.View()), StartCalls(setup))
    {
      var insert := InsertRow(Row(0, StartedBody(setup.request, Query(setup))));
      assert StartCalls(setup) == [CreateDocument(RunningDocument)] + [insert];
      WriteSplit(setup, repositories.View(), [CreateDocument(RunningDocument)], [insert]);
      r := Perform1(CreateDocument(RunningDocument));
      if r == Ok {
        r := Perform1(insert);
      }
    }

    /** The failure row follows the row of the start. */
    method PersistFailure(error: string) returns (r: CallResult)
      requires Wired()
      modifies repositories
      ensures (repositories.View(), r) == Write(setup, old(repositories.View()), FailCalls(error))
    {
      var insert := InsertRow(Row(1, FailedBody(error)));
      assert FailCalls(error) == [insert] + [ReplaceDocument(FailedDocument(error))];
      WriteSplit(setup, repositories.View(), [insert], [ReplaceDocument(FailedDocument(error))]);
      r := Perform1(insert);
      if r == Ok {
        r := Perform1(ReplaceDocument(FailedDocument(error)));
      }
    }

    /** The rows of the results, one insert at a time; next is the number of the row after them. */
    method InsertResults(results: seq<Result>, from: nat) returns (r: CallResult, next: nat)
      requires Wired()
      modifies repositories
      ensures (repositories.View(), r) == Write(setup, old(repositories.View()), Inserts(ResultBodies(results), from))
      ensures r == Ok ==> next == from + |results|
    {
      next := from;
      r := Ok;
      ghost var all := Inserts(ResultBodies(results), from);
      assert all == Inserts(ResultBodies(results[0..]), from);
      for i := 0 to |results|
        invariant next == from + i && r == Ok
        invariant Write(setup, old(repositories.View()), all) ==
          Write(setup, repositories.View(), Inserts(ResultBodies(results[i..]), next))
      {
        var body := ResultBody(results[i]);
        assert ResultBodies(results[i..]) == [body] + ResultBodies(results[i + 1..]);
        InsertsSplit([body], ResultBodies(results[i + 1..]), next);
        assert Inserts([body], next) == [InsertRow(Row(next, body))];
        WriteSplit(setup, repositories.View(), [InsertRow(Row(next, body))],
          Inserts(ResultBodies(results[i + 1..]), next + 1));
        r := Perform1(InsertRow(Row(next, body)));
        if r != Ok {
          return;
        }
        next := next + 1;
      }
      assert Inserts(ResultBodies(results[|results|..]), next) == [];
    }

    method PersistResult(x: Execution) returns (r: CallResult)
      requires Wired()
      modifies repositories
      ensures (repositories.View(), r) == Write(setup, old(repositories.View()), SuccessCalls(x))
    {
      var routing, completed := RoutingBody(x.route, x.reason), CompletedBody(x);
      var insertRouting := InsertRow(Row(1, routing));
      ghost var results := Inserts(ResultBodies(x.results), 2);
      var closing := InsertRow(Row(2 + |x.results|, completed));
      ghost var replace := ReplaceDocument(CompletedDocument(x));
      assert SuccessCalls(x) == [insertRouting] + (results + ([closing] + [replace]));
      WriteSplit(setup, repositories.View(), [insertRouting], results + ([closing] + [replace]));
      r := Perform1(insertRouting);
      if r != Ok {
        return;
      }
      WriteSplit(setup, repositories.View(), results, [closing] + [replace]);
      var next;
      r, next := InsertResults(x.results, 2);
      if r != Ok {
        return;
      }
      WriteSplit(setup, repositories.View(), [closing], [replace]);
      r := Perform1(InsertRow(Row(next, completed)));
      if r == Ok {
        r := Perform1(ReplaceDocument(CompletedDocument(x)));
      }
    }

    /** Writes a failure, swallowing a repository error, and reports it. */
    method Fail(v: Verdict, sequence: nat) returns (outcome: Outcome)
      requires Wired() && !v.Good?
      modifies repositories, sink
      ensures Run(repositories.View(), sink.attempted, outcome) ==
        FailPhase(setup, old(repositories.View()), old(sink.attempted), v, sequence)
    {
      var error := ErrorOf(v);
      var r := PersistFailure(error);
      if r == CancelledError {
        return CancelledOut;
      }
      var number := if v.BadRoute? || v.NoResponse? then 1 else sequence;
      assert Numbered(setup.request, [FailedBody(error)], number) == [Event(setup.request, number, FailedBody(error))];
      var interrupted := EmitEvent(setup.request, number, FailedBody(error));
      outcome := if interrupted || v.Stopped? then CancelledOut else Failed(error);
    }

    /** The events after the result has been written; a live log already holds all but the last. */
    method EmitClosing(x: Execution, callbackSequence: nat) returns (interrupted: bool)
      requires Wired()
      modifies sink
      ensures (sink.attempted, interrupted) ==
        Report(setup, old(sink.attempted), ClosingEvents(setup, x, callbackSequence))
    {
      var sequence := callbackSequence;
      ghost var closing := [CompletedBody(x)];
      if Live(setup) {
        assert ClosingEvents(setup, x, callbackSequence) == Numbered(x.request, closing, sequence);
      } else {
        sequence := 1;
        var routing := RoutingBody(x.route, x.reason);
        ghost var results := ResultBodies(x.results);
        assert SuccessBodies(x) == [routing] + (results + closing);
        NumberedSplit(x.request, [routing], results + closing, 1);
        NumberedSplit(x.request, results, closing, 2);
        ReportSplit(setup, sink.attempted, Numbered(x.request, [routing], 1),
          Numbered(x.request, results + closing, 2));
        interrupted := EmitEvent(x.request, sequence, routing);
        if interrupted {
          return;
        }
        ReportSplit(setup, sink.attempted, Numbered(x.request, results, 2),
          Numbered(x.request, closing, 2 + |results|));
        interrupted, sequence := EmitResults(x.request, x.results, sequence + 1);
        if interrupted {
          return;
        }
      }
      interrupted := EmitEvent(x.request, sequence, CompletedBody(x));
    }

    method Execute() returns (outcome: Outcome)
      requires Wired() && repositories.View() == EmptyStore && sink.attempted == []
      modifies repositories, sink
      ensures Run(repositories.View(), sink.attempted, outcome) == Executed(setup)
    {
      if !Acceptable(setup) {
        return Rejected;
      }
      ghost var before := Report(setup, [], [StartEvent(setup)]);
      var r := PersistStart();
      if r == RepositoryError {
        return Failed(START_NOT_PERSISTED);
      }
      if r == CancelledError {
        return CancelledOut;
      }
      assert Numbered(setup.request, [StartedBody(setup.request, Query(setup))], 0) == [StartEvent(setup)];
      var interrupted := EmitEvent(setup.request, 0, StartedBody(setup.request, Query(setup)));
      if interrupted {
        return CancelledOut;
      }
      outcome := RunGraph();
    }

    /** From the first event on: run the graph, judge what it returned, write and report it. */
    method RunGraph() returns (outcome: Outcome)
      requires Wired()
      requires setup.callback ==> |sink.attempted| == 1
      modifies repositories, sink
      ensures Run(repositories.View(), sink.attempted, outcome) ==
        AfterStart(setup, old(repositories.View()), old(sink.attempted))
    {
      var interrupted, sequence := false, 1;
      if Live(setup) {
        interrupted, sequence := StreamGraph();
      }
      assert sequence == CallbackSequence(setup, sink.attempted, interrupted);
      var v := VerdictOf(setup, interrupted);
      if !v.Good? {
        outcome := Fail(v, sequence);
        return;
      }
      var r := PersistResult(v.execution);
      if r == RepositoryError {
        return Failed(RESULT_NOT_PERSISTED);
      }
      if r == CancelledError {
        return CancelledOut;
      }
      interrupted := EmitClosing(v.execution, sequence);
      outcome := if interrupted then CancelledOut else Returned(v.execution);
    }
  }
}
