/**
 The multi-agent service over the compiled agent graph. The graph meets every hypothesis of the
 streaming branch, so the two branches agree, and the two checks after the graph never fail.
 */
module GraphedExecution {
  import G = AgentGraph
  import opened MultiAgent
  import opened MultiAgentEvents
  import opened MultiAgentHistory
  import opened MultiAgentRefinement
  import opened Options
  import opened Protocol
  import Text

  function AsResult(w: G.World, r: G.AgentResult): Result {
    Result.Result(Some(r.agent), w.dump(r))
  }

  function AsResults(w: G.World, results: seq<G.AgentResult>): seq<Result> {
    if results == [] then [] else [AsResult(w, results[0])] + AsResults(w, results[1..])
  }

  function AsItems(w: G.World, results: seq<G.AgentResult>): seq<Item> {
    if results == [] then [] else [Dict(AsResult(w, results[0]))] + AsItems(w, results[1..])
  }

  /** A graph state as the service reads it: the response of a state that has none is null. */
  function AsState(w: G.World, s: G.AgentState): GraphState {
    GraphState(Some(s.requestId), s.route, s.routeReason, AsItems(w, s.results),
      if s.finalResponse.Some? then Given(s.finalResponse.value) else Null, s.sources, s.errors, s.hopCount)
  }

  function AsStreamed(w: G.World, states: seq<G.AgentState>): seq<Streamed> {
    if states == [] then [] else [State(AsState(w, states[0]))] + AsStreamed(w, states[1..])
  }

  function AsEnding(e: G.Ending): Ending {
    match e
    case Finishes => Finishes
    case Raises => Raises
    case IsCancelled => IsCancelled
  }

  /** The graph streams the state it starts from and the state after each node. */
  function AsGraph(w: G.World, initial: G.AgentState): Graph {
    var t := G.GraphRun(w, initial);
    Graph(AsStreamed(w, [initial] + t.states), AsEnding(t.ending))
  }

  /** The execution runs the compiled graph from the initial state of its request. */
  ghost predicate RunsTheGraph(s: Setup, w: G.World, initial: G.AgentState) {
    && G.CreateInitialState(s.query, s.request, s.maxHops) == Some(initial)
    && s.graph == AsGraph(w, initial)
  }

  // ---------------------------------------------------------------- reading the states

  lemma {:induction false} ReadBack(w: G.World, results: seq<G.AgentResult>)
    ensures DictResults(AsItems(w, results)) == AsResults(w, results)
    ensures |AsResults(w, results)| == |results|
    ensures forall i :: 0 <= i < |results| ==> AsResults(w, results)[i] == AsResult(w, results[i])
    decreases |results|
  {
    if results != [] {
      var items := AsItems(w, results);
      ReadBack(w, results[1..]);
      assert items[0] == Dict(AsResult(w, results[0])) && items[1..] == AsItems(w, results[1..]);
    }
  }

  lemma {:induction false} StreamedAt(w: G.World, states: seq<G.AgentState>)
    ensures |AsStreamed(w, states)| == |states|
    ensures forall i :: 0 <= i < |states| ==> AsStreamed(w, states)[i] == State(AsState(w, states[i]))
    decreases |states|
  {
    if states != [] {
      StreamedAt(w, states[1..]);
    }
  }

  lemma ReadFollows(w: G.World, s: G.AgentState, t: G.AgentState)
    requires s.results <= t.results
    requires s.route.Some? ==> t.route == s.route && t.routeReason == s.routeReason
    ensures Follows(AsState(w, t), Some(AsState(w, s)))
  {
    ReadBack(w, s.results);
    ReadBack(w, t.results);
    var a, b := AsResults(w, s.results), AsResults(w, t.results);
    forall i | 0 <= i < |a|
      ensures a[i] == b[i]
    {
      assert s.results[i] == t.results[i];
    }
  }

  /** States that each follow the one before make a steady stream. */
  lemma {:induction false} SteadyStates(w: G.World, states: seq<G.AgentState>, previous: Option<G.AgentState>)
    requires forall i :: 0 < i < |states| ==> Continues(states[i - 1], states[i])
    requires previous.Some? && states != [] ==> Continues(previous.value, states[0])
    ensures Steady(AsStreamed(w, states), if previous.Some? then Some(AsState(w, previous.value)) else None)
    decreases |states|
  {
    if states != [] {
      var items := AsStreamed(w, states);
      assert items[0] == State(AsState(w, states[0])) && items[1..] == AsStreamed(w, states[1..]);
      if previous.Some? {
        ReadFollows(w, previous.value, states[0]);
      }
      assert forall i :: 0 < i < |states[1..]| ==> states[1..][i - 1] == states[i] && states[1..][i] == states[i + 1];
      SteadyStates(w, states[1..], Some(states[0]));
    }
  }

  predicate Continues(s: G.AgentState, t: G.AgentState) {
    s.results <= t.results && (s.route.Some? ==> t.route == s.route && t.routeReason == s.routeReason)
  }

  // ---------------------------------------------------------------- what the service makes of the graph

  /** The stream only grows, sets its route once, and has no result before the route. */
  lemma GraphIsSteady(s: Setup, w: G.World, initial: G.AgentState)
    requires RunsTheGraph(s, w, initial)
    ensures Steady(s.graph.items, None) && RouteFirst(s.graph.items)
  {
    G.RunShape(w, initial);
    var t := G.GraphRun(w, initial);
    var states := [initial] + t.states;
    forall i | 0 < i < |states|
      ensures Continues(states[i - 1], states[i]) && states[i].route.Some?
    {
      assert states[i] == t.states[i - 1] && G.Stage(w, initial, t.states[i - 1], i - 1);
      if i > 1 {
        assert states[i - 1] == t.states[i - 2] && G.Stage(w, initial, t.states[i - 2], i - 2);
      }
    }
    SteadyStates(w, states, None);
    RoutedAfterTheFirst(w, states);
  }

  lemma RoutedAfterTheFirst(w: G.World, states: seq<G.AgentState>)
    requires states != [] && states[0].results == []
    requires forall i :: 0 < i < |states| ==> states[i].route.Some?
    ensures RouteFirst(AsStreamed(w, states))
  {
    StreamedAt(w, states);
    var items := AsStreamed(w, states);
    forall item | item in items
      ensures item.State? && item.state.route.None? ==> ResultsOf(item.state) == []
    {
      var i :| 0 <= i < |states| && item == items[i];
      ReadBack(w, states[i].results);
    }
  }

  /** The service's two checks after the graph always pass; what it returns has three hops and two results. */
  lemma GraphIsNeverRejected(s: Setup, w: G.World, initial: G.AgentState)
    requires RunsTheGraph(s, w, initial)
    ensures !RejectedAfterGraph(s)
    ensures Judge(s).Good? <==> G.GraphRun(w, initial).ending.Finishes?
    ensures Judge(s).Good? ==>
      var x, decision := Judge(s).execution, w.decision(initial.userQuery);
      && decision.Gives? && x.route == decision.value.route && x.reason == Some(decision.value.reason)
      && x.request == s.request && x.hopCount == 3 && |x.results| == 2
      && x.results[0].agent == Some(RouteName(x.route)) && x.results[1].agent == Some("synthesizer")
      && x.response != ""
  {
    if G.GraphRun(w, initial).ending.Finishes? {
      var last := LastOf(s, w, initial);
      HasAnswer(w, last);
      Accepted(s, AsState(w, last));
      ReturnedExecution(s, w, initial, last);
    } else {
      Unfinished(s);
    }
  }

  lemma Unfinished(s: Setup)
    requires !s.graph.ending.Finishes?
    ensures !RejectedAfterGraph(s) && !Judge(s).Good?
  {
  }

  lemma HasAnswer(w: G.World, last: G.AgentState)
    requires last.finalResponse.Some? && !Text.Blank(last.finalResponse.value)
    ensures Text.Strip(ResponseText(AsState(w, last).finalResponse)) != ""
  {
    Text.StripBlank(last.finalResponse.value);
  }

  lemma ReturnedExecution(s: Setup, w: G.World, initial: G.AgentState, last: G.AgentState)
    requires initial.requestId == s.request && G.Stage(w, initial, last, 2)
    ensures
      var x, decision := ExecutionOf(s, AsState(w, last)), w.decision(initial.userQuery);
      && decision.Gives? && x.route == decision.value.route && x.reason == Some(decision.value.reason)
      && x.request == s.request && x.hopCount == 3 && |x.results| == 2
      && x.results[0].agent == Some(RouteName(x.route)) && x.results[1].agent == Some("synthesizer")
  {
    ReadBack(w, last.results);
  }

  /** A finished run ends in the state after the synthesizer. */
  lemma LastOf(s: Setup, w: G.World, initial: G.AgentState) returns (last: G.AgentState)
    requires RunsTheGraph(s, w, initial) && G.GraphRun(w, initial).ending.Finishes?
    ensures G.Stage(w, initial, last, 2) && s.graph.ending.Finishes?
    ensures LastState(s.graph.items) == Some(AsState(w, last))
  {
    var t := G.GraphRun(w, initial);
    G.RunShape(w, initial);
    last := t.states[2];
    assert G.Stage(w, initial, t.states[2], 2);
    StreamedAt(w, [initial] + t.states);
    assert s.graph.items[3] == State(AsState(w, last)) && |s.graph.items| == 4;
  }

  lemma Accepted(s: Setup, x: GraphState)
    requires s.graph.ending.Finishes? && LastState(s.graph.items) == Some(x)
    requires x.route.Some? && Text.Strip(ResponseText(x.finalResponse)) != ""
    ensures Judge(s) == Good(ExecutionOf(s, x))
  {
  }

  /** Over this graph the callback is numbered wrongly only by a cancellation inside a streamed delivery. */
  lemma GraphNumbering(s: Setup, w: G.World, initial: G.AgentState)
    requires RunsTheGraph(s, w, initial)
    ensures WellNumbered(Executed(s).attempted) <==>
      !(Begun(s) && Live(s) && DeliveryInterrupted(s) && !FailureWriteCancelled(s))
  {
    CallbackNumbering(s);
    GraphIsNeverRejected(s, w, initial);
  }

  /** Streamed or not, a run over this graph reports the same log, up to the start of the agent. */
  lemma GraphBranchesAgree(s: Setup, t: Setup, w: G.World, initial: G.AgentState)
    requires RunsTheGraph(s, w, initial)
    requires s.callback && s.streams && t == s.(streams := false, callbackOutcomes := t.callbackOutcomes)
    ensures Executed(s).outcome.Returned? && Executed(t).outcome.Returned? ==>
      && Executed(s).outcome == Executed(t).outcome
      && Erased(Bodies(Executed(s).attempted)) == Bodies(Executed(t).attempted)
  {
    GraphIsSteady(s, w, initial);
    BranchesAgree(s, t);
  }
}
