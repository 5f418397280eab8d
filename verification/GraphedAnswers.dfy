/**
 The longest path of the project: from the reply of a model, the retrieval or a tool, through the agent
 graph, the service, the server's task and the wire, to what the user reads under a question.
 */
module GraphedAnswers {
  import opened AgentAnswers
  import opened AgentGraph
  import opened Conversations
  import opened GraphAnswers
  import opened GraphedExecution
  import opened Options
  import opened Protocol
  import E = EndToEnd
  import H = MultiAgentHistory
  import M = MultiAgent
  import R = MultiAgentResults
  import Text
  import W = Workspace

  /** What the service, or the page, gives for what the specialist heard. */
  ghost predicate Gives(w: World, route: Route, told: Told, response: string, sources: seq<string>, errors: seq<string>)
  {
    match told
    case Fails(error) => response == NOT_SUCCEEDED && sources == [] && errors == [error, NO_SUCCESS]
    case Says(text, origins) =>
      && sources == origins
      && if Text.Blank(text) then response == NOT_SUCCEEDED && errors == [NO_SUCCESS]
         else
           && errors == []
           && if route.Mcp? then
                exists r :: Reads(w.parse(Text.Strip(text)), Text.Strip(text), r) && response == Text.Strip(r)
              else response == Text.Strip(text)
  }

  lemma NoticeIsFixed()
    ensures Text.Strip(NOT_SUCCEEDED) == NOT_SUCCEEDED
  {
    var notice := NOT_SUCCEEDED;
    assert |notice| == 79;
    assert notice[78] == '.';
    assert notice[0] == 'I';
    Text.StripFixed(notice);
  }

  lemma TellsAreGiven(w: World, route: Route, told: Told, last: AgentState, response: string)
    requires AnswersWith(w, route, told, last) && last.finalResponse.Some?
    requires R.Tells(M.Given(last.finalResponse.value), response)
    ensures Gives(w, route, told, response, last.sources, last.errors)
  {
    NoticeIsFixed();
    if told.Says? && !Text.Blank(told.text) && !route.Mcp? {
      Text.StripFixed(Text.Strip(told.text));
    }
  }

  /** The stream of a run that finishes: four states, the last of them the one behind the synthesizer. */
  lemma LastStreamed(s: M.Setup, w: World, initial: AgentState)
    requires RunsTheGraph(s, w, initial) && GraphRun(w, initial).ending.Finishes?
    ensures |GraphRun(w, initial).states| == 3 && R.LastAt(s.graph.items, 3)
    ensures s.graph.items[3].state == AsState(w, GraphRun(w, initial).states[2])
    ensures GraphRun(w, initial).states[2].finalResponse.Some?
  {
    var states := GraphRun(w, initial).states;
    RunShape(w, initial);
    assert Stage(w, initial, states[2], 2);
    StreamedAt(w, [initial] + states);
  }

  /** Every streamed state that has a route has the decided one, with its reason. */
  lemma RoutedBy(s: M.Setup, w: World, initial: AgentState, k: nat)
    requires RunsTheGraph(s, w, initial) && k < |s.graph.items| && s.graph.items[k].State?
    requires s.graph.items[k].state.route.Some?
    ensures
      var x, decision := s.graph.items[k].state, w.decision(Text.Strip(s.query));
      decision.Gives? && x.route == Some(decision.value.route) && x.routeReason == Some(decision.value.reason)
  {
    var states := [initial] + GraphRun(w, initial).states;
    RunShape(w, initial);
    StreamedAt(w, states);
    assert k > 0 && states[k] == GraphRun(w, initial).states[k - 1];
    assert Stage(w, initial, states[k], k - 1);
  }

  lemma AcceptedMeansFinished(s: M.Setup, w: World, initial: AgentState)
    requires RunsTheGraph(s, w, initial) && H.FinalVerdict(s).Good?
    ensures GraphRun(w, initial).ending.Finishes?
  {
    R.VerdictConveys(s);
  }

  /** An accepted result over the compiled graph is what the decided specialist heard about the query. */
  lemma AcceptedIsHeard(s: M.Setup, w: World, initial: AgentState) returns (told: Told)
    requires RunsTheGraph(s, w, initial) && H.FinalVerdict(s).Good?
    ensures
      var x, decision := H.FinalVerdict(s).execution, w.decision(Text.Strip(s.query));
      && decision.Gives? && x.route == decision.value.route && x.hopCount == 3 && x.request == s.request
      && Hears(w, x.route, Text.Strip(s.query), told)
      && Gives(w, x.route, told, x.response, x.sources, x.errors)
  {
    AcceptedMeansFinished(s, w, initial);
    LastStreamed(s, w, initial);
    GraphAnswersTheQuery(w, initial);
    var last, route := GraphRun(w, initial).states[2], w.decision(initial.userQuery).value.route;
    told :| Hears(w, route, initial.userQuery, told) && AnswersWith(w, route, told, last);
    R.GoodConveys(s, 3);
    RunShape(w, initial);
    assert Stage(w, initial, last, 2);
    TellsAreGiven(w, route, told, last, H.FinalVerdict(s).execution.response);
  }

  /** Over the compiled graph, what is returned is what the decided specialist heard about the query. */
  lemma ReturnedIsHeard(s: M.Setup, w: World, initial: AgentState)
    requires RunsTheGraph(s, w, initial) && M.Executed(s).outcome.Returned?
    ensures
      var x, decision := M.Executed(s).outcome.execution, w.decision(Text.Strip(s.query));
      && decision.Gives? && x.route == decision.value.route && x.hopCount == 3
      && exists told ::
           && Hears(w, x.route, Text.Strip(s.query), told)
           && Gives(w, x.route, told, x.response, x.sources, x.errors)
  {
    H.StoreInTwoParts(s);
    var told := AcceptedIsHeard(s, w, initial);
  }

  /**
   In every run, when an agent request shows as completed and the service ran the compiled graph, the
   page holds, under the question the user asked, what the specialist the supervisor decided on for that
   question heard: its text and sources, or the notice with the errors that led to it.
   */
  lemma PageShowsWhatWasHeard(
      steps: seq<E.Step>, e: W.Execution, i: nat, t: nat, run: M.Setup, lost: set<nat>, seen: string -> Payload,
      w: World, initial: AgentState)
    requires ShownBy(E.Run(E.Initial, steps), e, i, t, run, lost, seen) && e.status == W.Succeeded
    requires RunsTheGraph(run, w, initial)
    ensures
      var messages := E.Run(E.Initial, steps).app.client.state.messages; var asked := AsksIn(E.Initial, steps);
      && e.request.WorkspaceId? && 1 <= e.request.number <= |asked|
      && var q := asked[e.request.number - 1].query; var decision := w.decision(Text.Strip(q));
         && (exists u <- messages :: u.role == W.User && u.content == q)
         && decision.Gives? && e.route == Some(decision.value.route) && e.hopCount == Some(3)
         && ((exists event <- e.events :: event.kind.RoutingCompleted?) ==>
               e.routeReason == Some(decision.value.reason))
         && exists told, m ::
              && Hears(w, decision.value.route, Text.Strip(q), told)
              && m in messages && m.role == W.Assistant && m.sources == e.sources
              && Gives(w, decision.value.route, told, m.content, e.sources, e.errors)
  {
    AnswerIsReturned(steps, e, i, t, run, lost, seen);
    AcceptedMeansFinished(run, w, initial);
    LastStreamed(run, w, initial);
    AnswerIsTheGraphs(steps, e, i, t, run, lost, seen, 3);
    var told := AcceptedIsHeard(run, w, initial);
    var x := H.FinalVerdict(run).execution;
    var m :| m in E.Run(E.Initial, steps).app.client.state.messages && m.role == W.Assistant &&
      m.content == x.response && m.sources == x.sources;
    assert Gives(w, x.route, told, m.content, e.sources, e.errors);
    if exists event <- e.events :: event.kind.RoutingCompleted? {
      var k := RoutingIsTheGraphs(steps, e, i, t, run, lost, seen);
      RoutedBy(run, w, initial, k);
    }
  }
}
