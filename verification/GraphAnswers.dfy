/**
 What a run of the agent graph comes to, told by what the models, the retrieval and the tools replied:
 the response, the sources, the errors and the results, for each route.
 */
module GraphAnswers {
  import opened AgentGraph
  import opened Options
  import opened Protocol
  import Text

  /** What the specialist heard: a text with its sources, or an error. */
  datatype Told = Says(text: string, sources: seq<string>) | Fails(error: string)

  /** kept are the blocks with something visible in them, in order. */
  predicate Keeps(blocks: seq<string>, kept: seq<string>)
    decreases |blocks|
  {
    if blocks == [] then kept == []
    else
      var n := |blocks| - 1;
      if Text.Blank(blocks[n]) then Keeps(blocks[..n], kept)
      else kept != [] && kept[|kept| - 1] == blocks[n] && Keeps(blocks[..n], kept[..|kept| - 1])
  }

  /** The text of the visible blocks, one per line. */
  ghost predicate IsTextOf(blocks: seq<string>, text: string) {
    exists kept :: Keeps(blocks, kept) && text == Text.Strip(Text.Join(kept, '\n'))
  }

  predicate AllBlank(blocks: seq<string>) {
    forall b <- blocks :: Text.Blank(b)
  }

  ghost predicate ToolSays(use: ToolUse, told: Told) {
    match use
    case NoTools => told == Fails(NO_TOOLS)
    case InvalidTool(name) => told == Fails("MCP tool selection is invalid: " + name)
    case ProtocolError(message) => told == Fails(message)
    case ToolError(tool, blocks) =>
      && told.Fails?
      && if AllBlank(blocks) then told.error == "MCP tool " + tool + " failed." else IsTextOf(blocks, told.error)
    case Structured(json, sources) => told == Says(json, sources)
    case Plain(blocks) => told.Says? && IsTextOf(blocks, told.text) && told.sources == []
  }

  /** What the specialist of a route hears about a query. */
  ghost predicate Hears(w: World, route: Route, query: string, told: Told) {
    match route
    case General =>
      && w.general(query).Gives?
      && var reply := w.general(query).value;
         if Text.Blank(reply) then told == Fails(EMPTY_REPLY)
         else told == Says(Text.Strip(reply), [])
    case Research =>
      && w.research(query).Gives?
      && (match w.research(query).value
          case Answered(text, sources) => told == Says(text, sources)
          case Unanswerable(error) => told == Fails(error))
    case Mcp => w.tool(query).Gives? && ToolSays(w.tool(query).value, told)
  }

  /** A tool's text as it is read: an answer, a status, or the members of an object; anything else stands as it is. */
  predicate Reads(meaning: Json, text: string, response: string) {
    match meaning
    case NotJson => response == text
    case NotAnObject => response == text
    case Object(answer, service, status, protocol, members) =>
      if answer.Some? && !Text.Blank(answer.value) then response == Text.Strip(answer.value)
      else if service.Some? && status.Some? && protocol.Some? then
        response == service.value + " status is " + status.value + " (protocol: " + protocol.value + ")."
      else response == "{" + members + "}"
  }

  /** Nothing succeeded: the notice, and the errors that led to it. */
  predicate GivesUp(last: AgentState, first: AgentResult, sources: seq<string>, errors: seq<string>) {
    && last.finalResponse == Some(NOT_SUCCEEDED) && last.sources == sources && last.errors == errors + [NO_SUCCESS]
    && last.results == [first, Reported("synthesizer", false, "", Some(NO_SUCCESS), [])]
  }

  /** State last of a finished run answers with what the specialist heard. */
  predicate AnswersWith(w: World, route: Route, told: Told, last: AgentState) {
    match told
    case Fails(error) => GivesUp(last, Reported(RouteName(route), false, "", Some(error), []), [], [error])
    case Says(text, sources) =>
      var first := Reported(RouteName(route), true, text, None, sources);
      if Text.Blank(text) then GivesUp(last, first, sources, [])
      else
        && last.finalResponse.Some?
        && (if route.Mcp? then Reads(w.parse(Text.Strip(text)), Text.Strip(text), last.finalResponse.value)
            else last.finalResponse.value == Text.Strip(text))
        && last.sources == sources && last.errors == []
        && last.results == [first, Reported("synthesizer", true, last.finalResponse.value, None, sources)]
  }

  // ---------------------------------------------------------------- the blocks of a tool

  lemma {:induction false} NonBlankOfConcat(a: seq<string>, b: seq<string>)
    ensures NonBlank(a + b) == NonBlank(a) + NonBlank(b)
  {
    if a == [] {
      assert a + b == b;
    } else {
      assert (a + b)[0] == a[0] && (a + b)[1..] == a[1..] + b;
      NonBlankOfConcat(a[1..], b);
    }
  }

  lemma {:induction false} KeepsNonBlank(blocks: seq<string>)
    ensures Keeps(blocks, NonBlank(blocks))
    ensures NonBlank(blocks) == [] <==> AllBlank(blocks)
    ensures forall b <- NonBlank(blocks) :: !Text.Blank(b)
    decreases |blocks|
  {
    if blocks != [] {
      var n := |blocks| - 1;
      assert blocks == blocks[..n] + [blocks[n]] && [blocks[n]][1..] == [];
      NonBlankOfConcat(blocks[..n], [blocks[n]]);
      KeepsNonBlank(blocks[..n]);
      var before, kept := NonBlank(blocks[..n]), NonBlank(blocks);
      assert kept == if Text.Blank(blocks[n]) then before else before + [blocks[n]];
      assert kept != [] && !Text.Blank(blocks[n]) ==> kept[..|kept| - 1] == before;
    }
  }

  /** Texts with something visible in them, joined, have something visible in them. */
  lemma JoinIsVisible(parts: seq<string>)
    requires parts != [] && !Text.Blank(parts[0])
    ensures !Text.Blank(Text.Join(parts, '\n'))
  {
    var i :| 0 <= i < |parts[0]| && !Text.IsSpace(parts[0][i]);
    assert Text.Join(parts, '\n')[i] == parts[0][i];
  }

  lemma TextOfBlocks(blocks: seq<string>)
    ensures IsTextOf(blocks, ExtractText(blocks))
    ensures ExtractText(blocks) == "" <==> AllBlank(blocks)
  {
    KeepsNonBlank(blocks);
    var kept := NonBlank(blocks);
    Text.StripBlank(Text.Join(kept, '\n'));
    if kept != [] {
      assert kept[0] in kept;
      JoinIsVisible(kept);
    }
  }

  // ---------------------------------------------------------------- the specialist

  /** The first result and what comes with it. */
  predicate Passes(s: AgentState, t: AgentState, route: Route, told: Told) {
    match told
    case Fails(error) =>
      && t.results == s.results + [Reported(RouteName(route), false, "", Some(error), [])]
      && t.sources == s.sources && t.errors == s.errors + [error]
    case Says(text, sources) =>
      && t.results == s.results + [Reported(RouteName(route), true, text, None, sources)]
      && t.sources == s.sources + sources && t.errors == s.errors
  }

  lemma SpecialistPasses(w: World, route: Route, s: AgentState) returns (told: Told)
    requires Invoke(w, Specialist(route), s).Gives?
    ensures Hears(w, route, s.userQuery, told)
    ensures Passes(s, Merge(s, Invoke(w, Specialist(route), s).value), route, told)
  {
    var u := Invoke(w, Specialist(route), s).value;
    var r := u.results[0];
    told := if r.succeeded then Says(r.content, r.sources) else Fails(r.error.value);
    assert s.sources + [] == s.sources && s.errors + [] == s.errors;
    if route.General? {
      Text.StripBlank(w.general(s.userQuery).value);
    } else if route.Mcp? {
      var use := w.tool(s.userQuery).value;
      if use.ToolError? || use.Plain? {
        TextOfBlocks(use.blocks);
      }
    }
  }

  // ---------------------------------------------------------------- the synthesizer

  lemma SynthesizerPasses(w: World, route: Route, told: Told, s: AgentState)
    requires s.route == Some(route) && |s.results| == 1
    requires
      match told
      case Fails(error) =>
        && s.results == [Reported(RouteName(route), false, "", Some(error), [])]
        && s.sources == [] && s.errors == [error]
      case Says(text, sources) =>
        && s.results == [Reported(RouteName(route), true, text, None, sources)]
        && s.sources == sources && s.errors == []
    ensures SynthesizerNode(w, s).Gives? && AnswersWith(w, route, told, Merge(s, SynthesizerNode(w, s).value))
  {
    OneResultMode(s);
    assert s.sources + [] == s.sources && s.errors + [] == s.errors;
    assert [] + [NO_SUCCESS] == [NO_SUCCESS];
  }

  // ---------------------------------------------------------------- the run

  /** A run that finishes, node by node. */
  lemma RunInSteps(w: World, initial: AgentState) returns (s1: AgentState, s2: AgentState)
    requires Fresh(initial) && GraphRun(w, initial).ending.Finishes?
    ensures w.decision(initial.userQuery).Gives?
    ensures
      var route := w.decision(initial.userQuery).value.route;
      && s1 == initial.(route := Some(route), routeReason := s1.routeReason, activeAgent := s1.activeAgent,
           hopCount := 1)
      && Invoke(w, Specialist(route), s1).Gives? && s2 == Merge(s1, Invoke(w, Specialist(route), s1).value)
      && SynthesizerNode(w, s2).Gives?
      && GraphRun(w, initial).states == [s1, s2, Merge(s2, SynthesizerNode(w, s2).value)]
  {
    assert initial.results + [] == [] && initial.sources + [] == [] && initial.errors + [] == [];
    s1 := Merge(initial, SupervisorNode(w, initial).value);
    var r := s1.route.value;
    var rest := Walk(w, Supervisor, s1);
    assert GraphRun(w, initial) == Trace([Supervisor] + rest.nodes, [s1] + rest.states, rest.ending);
    s2 := Merge(s1, Invoke(w, Specialist(r), s1).value);
    SpecialistAddsOne(w, r, s1);
    SynthesizerAnswers(w, s2);
    WalkToEnd(w, r, s2);
    var last := Walk(w, Specialist(r), s2);
    assert rest == Trace([Specialist(r)] + last.nodes, [s2] + last.states, last.ending);
  }

  /**
   A run that finishes answers the query: the supervisor's decision names the route, the specialist of
   that route hears about the query, and what it heard is the response, with its sources and errors;
   where nothing was heard or only whitespace, the notice is the response and the errors say why.
   */
  lemma GraphAnswersTheQuery(w: World, initial: AgentState)
    requires Fresh(initial) && GraphRun(w, initial).ending.Finishes?
    ensures w.decision(initial.userQuery).Gives? && |GraphRun(w, initial).states| == 3
    ensures
      var route := w.decision(initial.userQuery).value.route;
      exists told :: Hears(w, route, initial.userQuery, told) &&
        AnswersWith(w, route, told, GraphRun(w, initial).states[2])
  {
    var s1, s2 := RunInSteps(w, initial);
    var route := w.decision(initial.userQuery).value.route;
    var told := SpecialistPasses(w, route, s1);
    FirstPasses(s1, s2, route, told);
    SynthesizerPasses(w, route, told, s2);
  }

  lemma FirstPasses(s: AgentState, t: AgentState, route: Route, told: Told)
    requires s.results == [] && s.sources == [] && s.errors == [] && Passes(s, t, route, told)
    ensures
      match told
      case Fails(error) =>
        && t.results == [Reported(RouteName(route), false, "", Some(error), [])]
        && t.sources == [] && t.errors == [error]
      case Says(text, sources) =>
        && t.results == [Reported(RouteName(route), true, text, None, sources)]
        && t.sources == sources && t.errors == []
  {
  }

  /** Asking the outside, in turn: the decision, and then what the decided specialist asks. */
  predicate GivesAll(w: World, query: string) {
    w.decision(query).Gives? && SpecialistGives(w, w.decision(query).value.route, query)
  }

  predicate SpecialistGives(w: World, route: Route, query: string) {
    match route
    case General => w.general(query).Gives?
    case Research => w.research(query).Gives?
    case Mcp => w.tool(query).Gives?
  }

  predicate ThrowsFirst(w: World, query: string) {
    || w.decision(query).Throws?
    || (w.decision(query).Gives? && SpecialistThrows(w, w.decision(query).value.route, query))
  }

  predicate SpecialistThrows(w: World, route: Route, query: string) {
    match route
    case General => w.general(query).Throws?
    case Research => w.research(query).Throws?
    case Mcp => w.tool(query).Throws?
  }

  /**
   A run finishes exactly when both replies come, raises when the first that does not come is an
   exception, and is cancelled otherwise.
   */
  lemma EndingExactly(w: World, initial: AgentState)
    requires Fresh(initial)
    ensures
      var ending := GraphRun(w, initial).ending; var query := initial.userQuery;
      && (ending.Finishes? <==> GivesAll(w, query))
      && (ending.Raises? <==> ThrowsFirst(w, query))
      && (ending.IsCancelled? <==> !GivesAll(w, query) && !ThrowsFirst(w, query))
  {
    if w.decision(initial.userQuery).Gives? {
      var s1 := Merge(initial, SupervisorNode(w, initial).value);
      var r := s1.route.value;
      var rest := Walk(w, Supervisor, s1);
      assert GraphRun(w, initial) == Trace([Supervisor] + rest.nodes, [s1] + rest.states, rest.ending);
      assert Invoke(w, Specialist(r), s1).Gives? <==> SpecialistGives(w, r, initial.userQuery);
      if Invoke(w, Specialist(r), s1).Gives? {
        SpecialistAddsOne(w, r, s1);
        var s2 := Merge(s1, Invoke(w, Specialist(r), s1).value);
        SynthesizerAnswers(w, s2);
        WalkToEnd(w, r, s2);
      }
    }
  }
}
