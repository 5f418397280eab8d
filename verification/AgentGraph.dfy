/**
 The compiled agent graph: the supervisor picks a route, one specialist works, the synthesizer
 answers. What the models, the retrieval and the tools reply is a parameter.
 */
module AgentGraph {
  import opened Options
  import opened Protocol
  import Text

  // ---------------------------------------------------------------- the shared state

  datatype AgentResult = Reported(agent: string, succeeded: bool, content: string, error: Option<string>,
      sources: seq<string>)

  datatype AgentState = AgentState(
    requestId: string,
    userQuery: string,
    route: Option<Route>,
    routeReason: Option<string>,
    activeAgent: Option<string>,
    results: seq<AgentResult>,
    sources: seq<string>,
    errors: seq<string>,
    hopCount: int,
    maxHops: int,
    finalResponse: Option<string>)

  /** A partial update; a field that is None is left as it is. */
  datatype Update = Update(
    decision: Option<Decision>,
    activeAgent: string,
    results: seq<AgentResult>,
    sources: seq<string>,
    errors: seq<string>,
    hopCount: int,
    finalResponse: Option<string>)

  datatype Decision = Decision(route: Route, reason: string)

  function CreateInitialState(query: string, requestId: string, maxHops: int): Option<AgentState> {
    var query := Text.Strip(query);
    if query == "" || maxHops < 1 then None
    else Some(AgentState(requestId, query, None, None, None, [], [], [], 0, maxHops, None))
  }

  /** Results, sources and errors are appended; every other field is replaced. */
  function Merge(s: AgentState, u: Update): AgentState {
    s.(route := if u.decision.Some? then Some(u.decision.value.route) else s.route,
       routeReason := if u.decision.Some? then Some(u.decision.value.reason) else s.routeReason,
       activeAgent := Some(u.activeAgent),
       results := s.results + u.results,
       sources := s.sources + u.sources,
       errors := s.errors + u.errors,
       hopCount := u.hopCount,
       finalResponse := if u.finalResponse.Some? then u.finalResponse else s.finalResponse)
  }

  // ---------------------------------------------------------------- what the outside replies

  datatype Try<T> = Gives(value: T) | Throws | Interrupted

  datatype Answer = Answered(text: string, sources: seq<string>) | Unanswerable(error: string)

  datatype ToolUse =
    | NoTools
    | InvalidTool(name: string)
    | ProtocolError(message: string)
    | ToolError(tool: string, blocks: seq<string>)
    | Structured(json: string, sources: seq<string>)
    | Plain(blocks: seq<string>)

  /** What a text means when it is read as JSON; of an object, the fields the synthesizer looks at. */
  datatype Json =
    | NotJson
    | NotAnObject
    | Object(answer: Option<string>, service: Option<string>, status: Option<string>, protocol: Option<string>,
      members: string)

  /** Each agent asks with the query alone. */
  datatype World = World(
    decision: string -> Try<Decision>,
    general: string -> Try<string>,
    research: string -> Try<Answer>,
    tool: string -> Try<ToolUse>,
    synthesis: Try<string>,
    parse: string -> Json,
    dump: AgentResult -> string)

  // ---------------------------------------------------------------- the nodes

  const NO_SUCCESS := "No successful agent result is available for synthesis."
  const NOT_SUCCEEDED := "I couldn't complete the request" + " because the selected operation did not succeed."
  const EMPTY_SYNTHESIS := "Synthesizer received an empty LLM response."
  const NO_FINAL := "I couldn't produce a final response."
  const EMPTY_REPLY := "General agent received an empty LLM response."
  const NO_TOOLS := "No MCP tools are available."

  function SupervisorNode(w: World, s: AgentState): Try<Update> {
    match w.decision(s.userQuery)
    case Gives(d) => Gives(Update(Some(d), "supervisor", [], [], [], s.hopCount + 1, None))
    case Throws => Throws
    case Interrupted => Interrupted
  }

  function Succeeded(s: AgentState, agent: string, content: string, sources: seq<string>): Update {
    Update(None, agent, [Reported(agent, true, content, None, sources)], sources, [], s.hopCount + 1, None)
  }

  function FailedUpdate(s: AgentState, agent: string, error: string): Update {
    Update(None, agent, [Reported(agent, false, "", Some(error), [])], [], [error], s.hopCount + 1, None)
  }

  function GeneralNode(w: World, s: AgentState): Try<Update> {
    match w.general(s.userQuery)
    case Gives(reply) =>
      var content := Text.Strip(reply);
      Gives(if content == "" then FailedUpdate(s, "general", EMPTY_REPLY) else Succeeded(s, "general", content, []))
    case Throws => Throws
    case Interrupted => Interrupted
  }

  function ResearchNode(w: World, s: AgentState): Try<Update> {
    match w.research(s.userQuery)
    case Gives(Answered(text, sources)) => Gives(Succeeded(s, "research", text, sources))
    case Gives(Unanswerable(error)) => Gives(FailedUpdate(s, "research", error))
    case Throws => Throws
    case Interrupted => Interrupted
  }

  /** The text blocks that are not blank, one per line. */
  function ExtractText(blocks: seq<string>): string {
    Text.Strip(Text.Join(NonBlank(blocks), '\n'))
  }

  function NonBlank(blocks: seq<string>): seq<string> {
    if blocks == [] then []
    else (if Text.Blank(blocks[0]) then [] else [blocks[0]]) + NonBlank(blocks[1..])
  }

  function McpNode(w: World, s: AgentState): Try<Update> {
    match w.tool(s.userQuery)
    case Gives(use) => Gives(McpUpdate(s, use))
    case Throws => Throws
    case Interrupted => Interrupted
  }

  function McpUpdate(s: AgentState, use: ToolUse): Update {
    match use
    case NoTools => FailedUpdate(s, "mcp", NO_TOOLS)
    case InvalidTool(name) => FailedUpdate(s, "mcp", "MCP tool selection is invalid: " + name)
    case ProtocolError(message) => FailedUpdate(s, "mcp", message)
    case ToolError(tool, blocks) =>
      var text := ExtractText(blocks);
      FailedUpdate(s, "mcp", if text == "" then "MCP tool " + tool + " failed." else text)
    case Structured(json, sources) => Succeeded(s, "mcp", json, sources)
    case Plain(blocks) => Succeeded(s, "mcp", ExtractText(blocks), [])
  }

  // ---------------------------------------------------------------- the synthesizer

  /** A successful result with something in it: its stripped content is not empty (Text.StripBlank). */
  predicate Useful(r: AgentResult) {
    r.succeeded && !Text.Blank(r.content)
  }

  function SuccessfulResults(results: seq<AgentResult>): seq<AgentResult> {
    if results == [] then []
    else
      (if Useful(results[0]) then [results[0]] else [])
      + SuccessfulResults(results[1..])
  }

  function FormatMcpResult(w: World, r: AgentResult): string {
    var content := Text.Strip(r.content);
    match w.parse(content)
    case NotJson => content
    case NotAnObject => content
    case Object(answer, service, status, protocol, members) =>
      if answer.Some? && !Text.Blank(answer.value) then Text.Strip(answer.value)
      else if service.Some? && status.Some? && protocol.Some? then
        service.value + " status is " + status.value + " (protocol: " + protocol.value + ")."
      else "{" + members + "}"
  }

  datatype Mode = NothingToSay | Passthrough | McpStructured | Llm

  function ModeOf(s: AgentState): Mode {
    var results := SuccessfulResults(s.results);
    if results == [] then NothingToSay
    else if |results| == 1 && s.route.Some? && (s.route.value.General? || s.route.value.Research?) then Passthrough
    else if |results| == 1 && s.route == Some(Mcp) then McpStructured
    else Llm
  }

  function SynthesizerFailure(s: AgentState, error: string, response: string): Update {
    FailedUpdate(s, "synthesizer", error).(finalResponse := Some(response))
  }

  function SynthesizerSuccess(s: AgentState, response: string): Update {
    Update(None, "synthesizer", [Reported("synthesizer", true, response, None, s.sources)], [], [],
           s.hopCount + 1, Some(response))
  }

  function SynthesizerNode(w: World, s: AgentState): Try<Update> {
    var results := SuccessfulResults(s.results);
    match ModeOf(s)
    case NothingToSay => Gives(SynthesizerFailure(s, NO_SUCCESS, NOT_SUCCEEDED))
    case Passthrough => Gives(SynthesizerSuccess(s, Text.Strip(results[0].content)))
    case McpStructured => Gives(SynthesizerSuccess(s, FormatMcpResult(w, results[0])))
    case Llm =>
      match w.synthesis
      case Gives(reply) =>
        var response := Text.Strip(reply);
        Gives(if response == "" then SynthesizerFailure(s, EMPTY_SYNTHESIS, NO_FINAL)
          else SynthesizerSuccess(s, response))
      case Throws => Throws
      case Interrupted => Interrupted
  }

  // ---------------------------------------------------------------- the topology

  datatype Node = Start | Supervisor | Specialist(route: Route) | Synthesizer | End

  /** The builder of the graph: its nodes, its edges, and the edges chosen by the route. */
  class StateGraph {
    var nodes: set<Node>
    var edges: map<Node, Node>
    var branches: map<Node, map<Route, Node>>

    constructor ()
      ensures nodes == {} && edges == map[] && branches == map[]
    {
      nodes, edges, branches := {}, map[], map[];
    }

    method AddNode(n: Node)
      modifies this
      ensures nodes == old(nodes) + {n} && edges == old(edges) && branches == old(branches)
    {
      nodes := nodes + {n};
    }

    method AddEdge(from: Node, to: Node)
      modifies this
      ensures nodes == old(nodes) && edges == old(edges)[from := to] && branches == old(branches)
    {
      edges := edges[from := to];
    }

    method AddConditionalEdges(from: Node, choice: map<Route, Node>)
      modifies this
      ensures nodes == old(nodes) && edges == old(edges) && branches == old(branches)[from := choice]
    {
      branches := branches[from := choice];
    }

    /** Where the graph goes from a node; a branch without a valid route raises. */
    function Follow(n: Node, s: AgentState): Option<Node>
      reads this
    {
      if n in edges then Some(edges[n])
      else if n in branches && s.route.Some? && s.route.value in branches[n] then Some(branches[n][s.route.value])
      else None
    }
  }

  function Rank(n: Node): nat {
    match n
    case Start => 4
    case Supervisor => 3
    case Specialist(_) => 2
    case Synthesizer => 1
    case End => 0
  }

  /** The way through the graph, node by node. */
  function Successor(n: Node, s: AgentState): (next: Option<Node>)
    ensures next.Some? ==> Rank(next.value) < Rank(n)
  {
    match n
    case Start => Some(Supervisor)
    case Supervisor => if s.route.Some? then Some(Specialist(s.route.value)) else None
    case Specialist(_) => Some(Synthesizer)
    case Synthesizer => Some(End)
    case End => None
  }

  method BuildMultiAgentGraph() returns (g: StateGraph)
    ensures fresh(g)
    ensures forall n, s :: g.Follow(n, s) == Successor(n, s)
    ensures forall n, s :: Successor(n, s).Some? ==> Successor(n, s).value in g.nodes + {End} && n in g.nodes + {Start}
  {
    g := new StateGraph();
    g.AddNode(Supervisor);
    g.AddNode(Specialist(Research));
    g.AddNode(Specialist(Mcp));
    g.AddNode(Specialist(General));
    g.AddNode(Synthesizer);
    g.AddEdge(Start, Supervisor);
    g.AddConditionalEdges(Supervisor,
      map[Research := Specialist(Research), Mcp := Specialist(Mcp), General := Specialist(General)]);
    g.AddEdge(Specialist(Research), Synthesizer);
    g.AddEdge(Specialist(Mcp), Synthesizer);
    g.AddEdge(Specialist(General), Synthesizer);
    g.AddEdge(Synthesizer, End);
    forall n, s
      ensures g.Follow(n, s) == Successor(n, s)
    {
      match n {
        case Start => assert Start in g.edges;
        case Supervisor =>
          assert Supervisor !in g.edges && Supervisor in g.branches;
          if s.route.Some? {
            var r := s.route.value;
            assert r == Research || r == Mcp || r == General;
            assert g.branches[Supervisor][r] == Specialist(r);
          }
        case Specialist(r) =>
          assert r == Research || r == Mcp || r == General;
          assert Specialist(r) in g.edges;
        case Synthesizer => assert Synthesizer in g.edges;
        case End => assert End !in g.edges && End !in g.branches;
      }
    }
  }

  // ---------------------------------------------------------------- a run

  function Invoke(w: World, n: Node, s: AgentState): Try<Update> {
    match n
    case Supervisor => SupervisorNode(w, s)
    case Specialist(General) => GeneralNode(w, s)
    case Specialist(Research) => ResearchNode(w, s)
    case Specialist(Mcp) => McpNode(w, s)
    case Synthesizer => SynthesizerNode(w, s)
    case Start => Throws
    case End => Throws
  }

  datatype Ending = Finishes | Raises | IsCancelled

  /** The nodes invoked, the states after those that returned, and how the run ended. */
  datatype Trace = Trace(nodes: seq<Node>, states: seq<AgentState>, ending: Ending)

  /** Goes on after node n has left state s. */
  function Walk(w: World, n: Node, s: AgentState): Trace
    decreases Rank(n)
  {
    match Successor(n, s)
    case None => Trace([], [], Raises)
    case Some(End) => Trace([], [], Finishes)
    case Some(next) =>
      match Invoke(w, next, s)
      case Throws => Trace([next], [], Raises)
      case Interrupted => Trace([next], [], IsCancelled)
      case Gives(u) =>
        var t := Merge(s, u);
        var rest := Walk(w, next, t);
        Trace([next] + rest.nodes, [t] + rest.states, rest.ending)
  }

  function GraphRun(w: World, initial: AgentState): Trace {
    Walk(w, Start, initial)
  }

  ghost predicate Fresh(s: AgentState) {
    && s.route.None? && s.routeReason.None? && s.results == [] && s.sources == [] && s.errors == []
    && s.hopCount == 0 && s.finalResponse.None?
  }

  // ---------------------------------------------------------------- what every run does

  /** A specialist adds exactly one result, under its own name, and one hop. */
  lemma SpecialistAddsOne(w: World, r: Route, s: AgentState)
    requires Invoke(w, Specialist(r), s).Gives?
    ensures
      var u := Invoke(w, Specialist(r), s).value;
      && |u.results| == 1 && u.results[0].agent == RouteName(r) && u.hopCount == s.hopCount + 1
      && u.decision.None? && u.finalResponse.None?
      && (u.results[0].succeeded <==> u.errors == [])
  {
  }

  lemma StrippedIsNotBlank(s: string)
    requires !Text.Blank(s)
    ensures !Text.Blank(Text.Strip(s))
  {
    Text.StripBlank(s);
    assert !Text.IsSpace(Text.Strip(s)[0]);
  }

  lemma FormattedIsNotBlank(w: World, r: AgentResult)
    requires !Text.Blank(r.content)
    ensures !Text.Blank(FormatMcpResult(w, r))
  {
    StrippedIsNotBlank(r.content);
    match w.parse(Text.Strip(r.content)) {
      case Object(answer, service, status, protocol, members) =>
        if answer.Some? && !Text.Blank(answer.value) {
          StrippedIsNotBlank(answer.value);
        } else {
          var text := FormatMcpResult(w, r);
          assert !Text.IsSpace(text[|text| - 1]);
        }
      case NotJson =>
      case NotAnObject =>
    }
  }

  /** The synthesizer finds at most the one result of the specialist, so it never asks the model. */
  lemma OneResultMode(s: AgentState)
    requires |s.results| == 1 && s.route.Some?
    ensures SuccessfulResults(s.results) == if Useful(s.results[0]) then s.results else []
    ensures !ModeOf(s).Llm?
  {
    assert s.results == [s.results[0]] && s.results[1..] == [];
  }

  /** What the user is told: the specialist's answer if there is one, else that nothing succeeded. */
  function Reply(w: World, r: AgentResult, route: Route): string {
    if !Useful(r) then NOT_SUCCEEDED
    else if route.Mcp? then FormatMcpResult(w, r)
    else Text.Strip(r.content)
  }

  lemma SynthesizerAnswers(w: World, s: AgentState)
    requires |s.results| == 1 && s.route.Some?
    ensures Invoke(w, Synthesizer, s).Gives?
    ensures
      var u := Invoke(w, Synthesizer, s).value;
      && u.finalResponse == Some(Reply(w, s.results[0], s.route.value))
      && !Text.Blank(u.finalResponse.value)
      && |u.results| == 1 && u.results[0].agent == "synthesizer"
      && (u.results[0].succeeded <==> Useful(s.results[0]))
      && u.hopCount == s.hopCount + 1 && u.decision.None?
  {
    OneResultMode(s);
    var r := s.results[0];
    if Useful(r) {
      StrippedIsNotBlank(r.content);
      FormattedIsNotBlank(w, r);
    } else {
      assert |NOT_SUCCEEDED| == 79 && NOT_SUCCEEDED[78] == '.';
      assert !Text.IsSpace(NOT_SUCCEEDED[78]);
    }
  }

  /** The nodes of a run that a decision leads through. */
  function Path(w: World, query: string): seq<Node> {
    var decision := w.decision(query);
    [Supervisor] + (if decision.Gives? then [Specialist(decision.value.route), Synthesizer] else [])
  }

  /** A state after i + 1 nodes. */
  ghost predicate Stage(w: World, initial: AgentState, s: AgentState, i: nat) {
    var decision := w.decision(initial.userQuery);
    && s.requestId == initial.requestId && s.userQuery == initial.userQuery
    && s.hopCount == i + 1 && |s.results| == i
    && decision.Gives? && s.route == Some(decision.value.route) && s.routeReason == Some(decision.value.reason)
    && (s.finalResponse.Some? <==> i == 2)
    && (i >= 1 ==> s.results[0].agent == RouteName(decision.value.route))
    && (i == 2 ==>
          && s.results[1].agent == "synthesizer"
          && s.finalResponse == Some(Reply(w, s.results[0], decision.value.route))
          && !Text.Blank(s.finalResponse.value))
  }

  /** How far a run from a fresh state gets: nothing, the supervisor, the specialist too, or all three. */
  lemma RunShape(w: World, initial: AgentState)
    requires Fresh(initial)
    ensures
      var t := GraphRun(w, initial);
      && |t.states| <= 3 && t.nodes <= Path(w, initial.userQuery)
      && (if t.ending.Finishes? then |t.states| == |t.nodes| == 3 else |t.states| < 2 && |t.nodes| == |t.states| + 1)
      && (forall i :: 0 <= i < |t.states| ==> Stage(w, initial, t.states[i], i))
      && (|t.states| >= 2 ==> t.states[0].results <= t.states[1].results)
      && (|t.states| == 3 ==> t.states[1].results <= t.states[2].results)
  {
    if w.decision(initial.userQuery).Gives? {
      var s1 := Merge(initial, SupervisorNode(w, initial).value);
      var r := w.decision(initial.userQuery).value.route;
      var rest := Walk(w, Supervisor, s1);
      assert GraphRun(w, initial) == Trace([Supervisor] + rest.nodes, [s1] + rest.states, rest.ending);
      var second := Invoke(w, Specialist(r), s1);
      if second.Gives? {
        SpecialistAddsOne(w, r, s1);
        var s2 := Merge(s1, second.value);
        var last := Walk(w, Specialist(r), s2);
        assert rest == Trace([Specialist(r)] + last.nodes, [s2] + last.states, last.ending);
        SynthesizerAnswers(w, s2);
        var s3 := Merge(s2, Invoke(w, Synthesizer, s2).value);
        assert Walk(w, Synthesizer, s3) == Trace([], [], Finishes);
        assert last == Trace([Synthesizer], [s3], Finishes);
      }
    }
  }

  /**
   A run that finishes visited the supervisor, the specialist of the chosen route and the
   synthesizer, made three hops, has one result of each of the last two, and an answer that is not
   blank: the specialist's, or the notice that nothing succeeded.
   */
  lemma NormalRun(w: World, initial: AgentState)
    requires Fresh(initial) && GraphRun(w, initial).ending.Finishes?
    ensures w.decision(initial.userQuery).Gives?
    ensures
      var t := GraphRun(w, initial);
      var route := w.decision(initial.userQuery).value.route;
      && t.nodes == [Supervisor, Specialist(route), Synthesizer]
      && |t.states| == 3
      && var last := t.states[2];
      && last.route == Some(route) && last.hopCount == 3
      && |last.results| == 2 && last.results[0].agent == RouteName(route) && last.results[1].agent == "synthesizer"
      && last.finalResponse == Some(Reply(w, last.results[0], route))
      && !Text.Blank(last.finalResponse.value)
  {
    RunShape(w, initial);
    var nodes := GraphRun(w, initial).nodes;
    assert nodes == ([Supervisor] + [Specialist(w.decision(initial.userQuery).value.route), Synthesizer])[..3];
  }

  /** Every run ends the same way whatever the synthesizer's model would have said. */
  lemma ModelNeverSynthesizes(w: World, reply: Try<string>, initial: AgentState)
    requires Fresh(initial)
    ensures GraphRun(w, initial) == GraphRun(w.(synthesis := reply), initial)
  {
    var v := w.(synthesis := reply);
    if w.decision(initial.userQuery).Gives? {
      SameAfterSupervisor(w, v, Merge(initial, SupervisorNode(w, initial).value));
    }
  }

  lemma SameAfterSupervisor(w: World, v: World, s: AgentState)
    requires s.results == [] && s.route.Some? && v == w.(synthesis := v.synthesis)
    ensures Walk(w, Supervisor, s) == Walk(v, Supervisor, s)
  {
    var r := s.route.value;
    var second := Invoke(w, Specialist(r), s);
    assert second == Invoke(v, Specialist(r), s);
    if second.Gives? {
      SpecialistAddsOne(w, r, s);
      SameAfterSpecialist(w, v, r, Merge(s, second.value));
    }
  }

  lemma SameAfterSpecialist(w: World, v: World, r: Route, s: AgentState)
    requires |s.results| == 1 && s.route.Some? && v == w.(synthesis := v.synthesis)
    ensures Walk(w, Specialist(r), s) == Walk(v, Specialist(r), s)
  {
    SynthesizerAnswers(w, s);
    SameSynthesis(w, v, s);
    WalkToEnd(w, r, s);
    WalkToEnd(v, r, s);
  }

  lemma SameSynthesis(w: World, v: World, s: AgentState)
    requires |s.results| == 1 && s.route.Some? && v.parse == w.parse
    ensures SynthesizerNode(w, s) == SynthesizerNode(v, s)
  {
    OneResultMode(s);
  }

  lemma WalkToEnd(w: World, r: Route, s: AgentState)
    requires SynthesizerNode(w, s).Gives?
    ensures Walk(w, Specialist(r), s) == Trace([Synthesizer], [Merge(s, SynthesizerNode(w, s).value)], Finishes)
  {
    var t := Merge(s, SynthesizerNode(w, s).value);
    assert Walk(w, Synthesizer, t) == Trace([], [], Finishes);
    assert Invoke(w, Synthesizer, s) == SynthesizerNode(w, s);
  }
}
