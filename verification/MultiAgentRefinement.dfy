/**
 The streaming branch against the batch branch: on a stream whose results only grow and whose route
 is set once, the live log is the batch log with one extra event, when no result comes before the
 route; and the results are reported once each and in order in any case.
 */
module MultiAgentRefinement {
  import opened MultiAgent
  import opened MultiAgentEvents
  import opened MultiAgentHistory
  import opened Options
  import opened Protocol

  function ResultsOf(x: GraphState): seq<Result> {
    DictResults(x.results)
  }

  /** How each state follows the one before it: results are appended, a route that is set stays. */
  predicate Follows(x: GraphState, previous: Option<GraphState>) {
    previous.Some? ==>
      && ResultsOf(previous.value) <= ResultsOf(x)
      && (previous.value.route.Some? ==> x.route == previous.value.route && x.routeReason == previous.value.routeReason)
  }

  predicate Steady(items: seq<Streamed>, previous: Option<GraphState>) {
    items == [] ||
    if items[0].NotAState? then Steady(items[1..], previous)
    else Follows(items[0].state, previous) && Steady(items[1..], Some(items[0].state))
  }

  /** No state without a route has a result. */
  predicate RouteFirst(items: seq<Streamed>) {
    forall item <- items :: item.State? && item.state.route.None? ==> ResultsOf(item.state) == []
  }

  function LastFrom(items: seq<Streamed>, previous: Option<GraphState>): (last: Option<GraphState>)
    ensures previous.Some? ==> last.Some?
  {
    if items == [] then previous
    else LastFrom(items[1..], if items[0].State? then Some(items[0].state) else previous)
  }

  lemma {:induction false} LastFromSnoc(items: seq<Streamed>, last: Streamed, previous: Option<GraphState>)
    ensures LastFrom(items + [last], previous) == if last.State? then Some(last.state) else LastFrom(items, previous)
    decreases |items|
  {
    if items == [] {
      assert (items + [last])[1..] == [];
    } else {
      assert (items + [last])[0] == items[0] && (items + [last])[1..] == items[1..] + [last];
      LastFromSnoc(items[1..], last, if items[0].State? then Some(items[0].state) else previous);
    }
  }

  lemma {:induction false} LastFromIsLast(items: seq<Streamed>)
    ensures LastFrom(items, None) == LastState(items)
    decreases |items|
  {
    if items != [] {
      var init := items[..|items| - 1];
      assert items == init + [items[|items| - 1]];
      LastFromSnoc(init, items[|items| - 1], None);
      LastFromIsLast(init);
    }
  }

  /** The results of a state as the bodies that report them. */
  function Logged(x: GraphState): seq<Body> {
    ResultBodies(ResultsOf(x))
  }

  function Announced(x: GraphState): seq<Body>
    requires x.route.Some?
  {
    [RoutingBody(x.route.value, x.routeReason), AgentStartedBody(x.route.value)]
  }

  lemma LoggedGrows(x: GraphState, y: GraphState)
    requires ResultsOf(x) <= ResultsOf(y)
    ensures Logged(x) <= Logged(y) && |Logged(x)| == |ResultsOf(x)|
  {
  }

  lemma AddedBodies(x: GraphState, routed: bool, from: nat)
    requires from <= |Logged(x)|
    ensures NewBodies(x, routed, from) == (if !routed && x.route.Some? then Announced(x) else []) + Logged(x)[from..]
  {
    assert ResultBodies(ResultsOf(x)[from..]) == Logged(x)[from..];
  }

  lemma LiveUnfold(items: seq<Streamed>, routed: bool, from: nat)
    requires items != [] && items[0].State?
    ensures
      var x := items[0].state;
      LiveBodies(items, routed, from) ==
        NewBodies(x, routed, from) + LiveBodies(items[1..], routed || x.route.Some?, |Logged(x)|)
  {
  }

  /** What a state adds after its announcement, followed by what comes later. */
  lemma Glue(announced: seq<Body>, all: seq<Body>, part: seq<Body>, from: nat, to: nat)
    requires part <= all && from <= |part| <= to <= |all|
    ensures announced + part[from..] + all[|part|..to] == announced + all[from..to]
  {
    assert part[from..] + all[|part|..to] == all[from..to];
  }

  /** After the route, the live log is exactly the results not reported yet. */
  lemma {:induction false} LogAfterRoute(items: seq<Streamed>, previous: GraphState)
    requires Steady(items, Some(previous)) && previous.route.Some?
    ensures
      var last := LastFrom(items, Some(previous)).value;
      && last.route == previous.route && last.routeReason == previous.routeReason
      && ResultsOf(previous) <= ResultsOf(last)
      && Logged(previous) <= Logged(last)
      && LiveBodies(items, true, |Logged(previous)|) == Logged(last)[|Logged(previous)|..]
    decreases |items|
  {
    if items == [] {
    } else if items[0].NotAState? {
      LogAfterRoute(items[1..], previous);
    } else {
      var x := items[0].state;
      var last := LastFrom(items, Some(previous)).value;
      LogAfterRoute(items[1..], x);
      LoggedGrows(previous, x);
      LogOfNext(items, |Logged(previous)|, Logged(last));
    }
  }

  /** A routed state reports its results that are new, and what comes after it the others of all. */
  lemma LogOfNext(items: seq<Streamed>, from: nat, all: seq<Body>)
    requires items != [] && items[0].State? && from <= |Logged(items[0].state)| && Logged(items[0].state) <= all
    requires LiveBodies(items[1..], true, |Logged(items[0].state)|) == all[|Logged(items[0].state)|..]
    ensures LiveBodies(items, true, from) == all[from..]
  {
    var mine := Logged(items[0].state);
    AddedBodies(items[0].state, true, from);
    LiveUnfold(items, true, from);
    NewThenRest(mine, all, from);
  }

  lemma NewThenRest(mine: seq<Body>, all: seq<Body>, from: nat)
    requires from <= |mine| && mine <= all
    ensures [] + mine[from..] + all[|mine|..] == all[from..]
  {
  }

  function Seen(previous: Option<GraphState>): seq<Body> {
    if previous.Some? then Logged(previous.value) else []
  }

  predicate Unrouted(previous: Option<GraphState>) {
    previous.Some? ==> previous.value.route.None?
  }

  /** The live log from some point before the route: results, the route and its start, and the other results. */
  predicate Splits(log: seq<Body>, from: nat, p: nat, last: GraphState)
    requires from <= p <= |Logged(last)| && last.route.Some?
  {
    log == Logged(last)[from..p] + Announced(last) + Logged(last)[p..]
  }

  lemma SplitsEarlier(log: seq<Body>, part: seq<Body>, from: nat, p: nat, last: GraphState)
    requires from <= |part| <= p <= |Logged(last)| && part <= Logged(last)
    requires last.route.Some? && Splits(log, |part|, p, last)
    ensures Splits(part[from..] + log, from, p, last)
  {
    Glue([], Logged(last), part, from, p);
    var a, b, c, d := part[from..], Logged(last)[|part|..p], Announced(last), Logged(last)[p..];
    assert a + (b + c + d) == (a + b) + c + d;
  }

  lemma {:induction false} LogBeforeRoute(items: seq<Streamed>, previous: Option<GraphState>) returns (p: nat)
    requires Steady(items, previous) && Unrouted(previous)
    requires LastFrom(items, previous).Some? && LastFrom(items, previous).value.route.Some?
    ensures
      var last := LastFrom(items, previous).value;
      && |Seen(previous)| <= p <= |Logged(last)| && Seen(previous) <= Logged(last)
      && Splits(LiveBodies(items, false, |Seen(previous)|), |Seen(previous)|, p, last)
    ensures p == 0 <==> Seen(previous) == [] && RouteFirst(items)
    decreases |items|
  {
    RouteFirstSplit(items);
    if items[0].NotAState? {
      p := LogBeforeRoute(items[1..], previous);
    } else {
      var x := items[0].state;
      if previous.Some? {
        LoggedGrows(previous.value, x);
      }
      if x.route.Some? {
        RoutedHere(items, previous);
        p := |Seen(previous)|;
      } else {
        p := LogBeforeRoute(items[1..], Some(x));
        UnroutedHere(items, previous, p, LastFrom(items, previous).value);
      }
    }
  }

  /** A state without a route reports its own new results and leaves the rest as it was. */
  lemma UnroutedHere(items: seq<Streamed>, previous: Option<GraphState>, p: nat, last: GraphState)
    requires items != [] && items[0].State? && items[0].state.route.None?
    requires Seen(previous) <= Logged(items[0].state) <= Logged(last)
    requires |Logged(items[0].state)| <= p <= |Logged(last)| && last.route.Some?
    requires Splits(LiveBodies(items[1..], false, |Logged(items[0].state)|), |Logged(items[0].state)|, p, last)
    ensures Splits(LiveBodies(items, false, |Seen(previous)|), |Seen(previous)|, p, last)
  {
    var x := items[0].state;
    var rest := LiveBodies(items[1..], false, |Logged(x)|);
    assert LiveBodies(items, false, |Seen(previous)|) == Logged(x)[|Seen(previous)|..] + rest by {
      AddedBodies(x, false, |Seen(previous)|);
      LiveUnfold(items, false, |Seen(previous)|);
      assert [] + Logged(x)[|Seen(previous)|..] == Logged(x)[|Seen(previous)|..];
    }
    SplitsEarlier(rest, Logged(x), |Seen(previous)|, p, last);
  }

  lemma RouteFirstSplit(items: seq<Streamed>)
    requires items != []
    ensures RouteFirst(items) <==>
      RouteFirst(items[1..]) && (items[0].State? && items[0].state.route.None? ==> ResultsOf(items[0].state) == [])
  {
    assert items == [items[0]] + items[1..];
  }

  /** The state that sets the route reports it, then its own new results. */
  lemma RoutedHere(items: seq<Streamed>, previous: Option<GraphState>)
    requires items != [] && items[0].State? && items[0].state.route.Some?
    requires Steady(items, previous) && Unrouted(previous) && Seen(previous) <= Logged(items[0].state)
    ensures
      var last := LastFrom(items, previous);
      var from := |Seen(previous)|;
      && last.Some? && last.value.route.Some? && Seen(previous) <= Logged(last.value)
      && Splits(LiveBodies(items, false, from), from, from, last.value)
    ensures RouteFirst(items)
  {
    var x := items[0].state;
    var from := |Seen(previous)|;
    var last := LastFrom(items, previous).value;
    LogAfterRoute(items[1..], x);
    RoutesStay(items, previous);
    AddedBodies(x, false, from);
    LiveUnfold(items, false, from);
    assert Announced(x) == Announced(last);
    NewBetween(Announced(x), Logged(x), Logged(last), from);
  }

  lemma NewBetween(announced: seq<Body>, mine: seq<Body>, all: seq<Body>, from: nat)
    requires from <= |mine| && mine <= all
    ensures announced + mine[from..] + all[|mine|..] == all[from..from] + announced + all[from..]
  {
    assert mine[from..] + all[|mine|..] == all[from..];
  }

  /** From a state with a route on, every state has one. */
  lemma {:induction false} RoutesStay(items: seq<Streamed>, previous: Option<GraphState>)
    requires Steady(items, previous)
    requires (previous.Some? && previous.value.route.Some?) ||
      (items != [] && items[0].State? && items[0].state.route.Some?)
    ensures RouteFirst(items)
    decreases |items|
  {
    if items != [] {
      RoutesStay(items[1..], if items[0].State? then Some(items[0].state) else previous);
      RouteFirstSplit(items);
    }
  }

  // ---------------------------------------------------------------- the refinement

  function Erased(bodies: seq<Body>): seq<Body> {
    if bodies == [] then []
    else (if bodies[0].kind.AgentStarted? then [] else [bodies[0]]) + Erased(bodies[1..])
  }

  lemma {:induction false} ErasedJoin(first: seq<Body>, rest: seq<Body>)
    ensures Erased(first + rest) == Erased(first) + Erased(rest)
    decreases |first|
  {
    if first == [] {
      assert first + rest == rest;
    } else {
      assert (first + rest)[0] == first[0] && (first + rest)[1..] == first[1..] + rest;
      ErasedJoin(first[1..], rest);
    }
  }

  lemma {:induction false} NothingErased(bodies: seq<Body>)
    requires forall b <- bodies :: !b.kind.AgentStarted?
    ensures Erased(bodies) == bodies
    decreases |bodies|
  {
    if bodies != [] {
      NothingErased(bodies[1..]);
    }
  }

  /** The bodies the batch branch reports before the completed event. */
  function BatchBodies(x: GraphState): seq<Body>
    requires x.route.Some?
  {
    [RoutingBody(x.route.value, x.routeReason)] + Logged(x)
  }

  /**
   Every result of the final state is reported exactly once and in order, the start of the agent
   directly after the route. Without the start, the live log is the batch log, body for body,
   exactly when no result came before the route.
   */
  lemma LiveRefinesBatch(items: seq<Streamed>, x: GraphState) returns (p: nat)
    requires LastState(items) == Some(x) && x.route.Some? && Steady(items, None)
    ensures p <= |Logged(x)| && Splits(LiveBodies(items, false, 0), 0, p, x)
    ensures Erased(LiveBodies(items, false, 0)) == BatchBodies(x) <==> RouteFirst(items)
  {
    LastFromIsLast(items);
    p := LogBeforeRoute(items, None);
    ErasedStart(Logged(x)[0..p], Announced(x)[0], Announced(x)[1], Logged(x)[p..]);
    SameAsBatch(x, p);
  }

  /** A state with a result and no route yet, and the same state once it has its route. */
  const EarlyState := GraphState(None, None, None, [Dict(Result(None, "early"))], Given("early"), [], [], 1)
  const LateState := EarlyState.(route := Some(General))

  /** A result that comes before the route is reported before it, and so not where the batch log has it. */
  lemma EarlyResultBreaksTheOrder()
    ensures Steady([State(EarlyState), State(LateState)], None) &&
      LastState([State(EarlyState), State(LateState)]) == Some(LateState)
    ensures Erased(LiveBodies([State(EarlyState), State(LateState)], false, 0)) != BatchBodies(LateState)
  {
    var items := [State(EarlyState), State(LateState)];
    assert items[1..] == [State(LateState)] && items[1..][1..] == [];
    assert Steady(items[1..][1..], Some(LateState));
    assert Steady(items[1..], Some(EarlyState));
    assert DictResults(EarlyState.results[1..]) == [];
    assert ResultsOf(EarlyState) == [Result(None, "early")];
    assert items[0] in items && !RouteFirst(items);
    var p := LiveRefinesBatch(items, LateState);
  }

  lemma ErasedStart(before: seq<Body>, routing: Body, started: Body, after: seq<Body>)
    requires !routing.kind.AgentStarted? && started.kind.AgentStarted?
    requires forall b <- before + after :: !b.kind.AgentStarted?
    ensures Erased(before + [routing, started] + after) == before + [routing] + after
  {
    assert forall b <- before :: b in before + after;
    assert forall b <- after :: b in before + after;
    NothingErased(before);
    NothingErased(after);
    ErasedJoin(before + [routing, started], after);
    ErasedJoin(before, [routing, started]);
    ErasedPair(routing, started);
  }

  lemma ErasedPair(routing: Body, started: Body)
    requires !routing.kind.AgentStarted? && started.kind.AgentStarted?
    ensures Erased([routing, started]) == [routing]
  {
    assert [routing, started][1..] == [started] && [started][1..] == [];
    assert Erased([started]) == [];
  }

  lemma SameAsBatch(x: GraphState, p: nat)
    requires x.route.Some? && p <= |Logged(x)|
    ensures Logged(x)[0..p] + [RoutingBody(x.route.value, x.routeReason)] + Logged(x)[p..] == BatchBodies(x) <==> p == 0
  {
    var log := Logged(x)[0..p] + [RoutingBody(x.route.value, x.routeReason)] + Logged(x)[p..];
    if p == 0 {
      assert Logged(x)[0..0] == [] && Logged(x)[0..] == Logged(x);
    } else {
      assert log[0] == Logged(x)[0] && log[0].kind == AgentResult && BatchBodies(x)[0].kind == RoutingCompleted;
    }
  }

  function Bodies(events: seq<Event>): seq<Body> {
    seq(|events|, i requires 0 <= i < |events| => events[i].body)
  }

  lemma BodiesJoin(first: seq<Event>, rest: seq<Event>)
    ensures Bodies(first + rest) == Bodies(first) + Bodies(rest)
  {
  }

  lemma BodiesOfNumbered(request: string, bodies: seq<Body>, from: nat)
    ensures Bodies(Numbered(request, bodies, from)) == bodies
  {
  }

  lemma ClosingBodies(s: Setup, x: Execution, sequence: nat)
    ensures Bodies(ClosingEvents(s, x, sequence)) == if Live(s) then [CompletedBody(x)] else SuccessBodies(x)
  {
  }

  /** A run that returns, with a callback, has reported everything. */
  lemma ReturnedLog(s: Setup)
    requires s.callback && Executed(s).outcome.Returned?
    ensures Judge(s) == Good(Executed(s).outcome.execution)
    ensures
      var x := Executed(s).outcome.execution;
      Bodies(Executed(s).attempted) ==
        [StartedBody(s.request, Query(s))] + if Live(s) then LiveLog(s) + [CompletedBody(x)] else SuccessBodies(x)
  {
    ExecutedWhenBegunIfReturned(s);
    StartIsReported(s);
    LaterLog(s, Write(s, EmptyStore, StartCalls(s)).0);
  }

  lemma LaterLog(s: Setup, store: Store)
    requires s.callback && AfterStart(s, store, [StartEvent(s)]).outcome.Returned?
    ensures
      var run := AfterStart(s, store, [StartEvent(s)]);
      var x := run.outcome.execution;
      && Judge(s) == Good(x)
      && Bodies(run.attempted) ==
           [StartedBody(s.request, Query(s))] + if Live(s) then LiveLog(s) + [CompletedBody(x)] else SuccessBodies(x)
  {
    var (attempted, interrupted) := StreamPhase(s, [StartEvent(s)]);
    var sequence := CallbackSequence(s, attempted, interrupted);
    var v := VerdictOf(s, interrupted);
    if v.Good? {
      var closing := ClosingEvents(s, v.execution, sequence);
      var k := SuccessEvents(s, store, attempted, v.execution, sequence);
      assert closing[..|closing|] == closing;
      SuccessPhaseWrites(s, store, attempted, v.execution, sequence);
      UninterruptedLog(s);
      BodiesJoin(attempted, closing);
      ClosingBodies(s, v.execution, sequence);
    } else {
      FailPhaseWrites(s, store, attempted, v, sequence);
    }
  }

  lemma ExecutedWhenBegunIfReturned(s: Setup)
    requires Executed(s).outcome.Returned?
    ensures Begun(s)
    ensures Executed(s) == AfterStart(s, Write(s, EmptyStore, StartCalls(s)).0, Report(s, [], [StartEvent(s)]).0)
  {
    if Acceptable(s) && !Begun(s) {
      ExecutedWhenNotBegun(s);
    }
    ExecutedWhenBegun(s);
  }

  lemma UninterruptedLog(s: Setup)
    requires s.callback && !StreamPhase(s, [StartEvent(s)]).1
    ensures Bodies(StreamPhase(s, [StartEvent(s)]).0) ==
      [StartedBody(s.request, Query(s))] + if Live(s) then LiveLog(s) else []
  {
    if Live(s) {
      AllEmitted([StartEvent(s)], Numbered(s.request, LiveLog(s), 1), s.callbackOutcomes);
      BodiesOfLog(StartEvent(s), s.request, LiveLog(s));
    }
  }

  lemma AllEmitted(attempted: seq<Event>, events: seq<Event>, outcomes: nat -> CallbackOutcome)
    requires !EmitAll(attempted, events, outcomes).1
    ensures EmitAll(attempted, events, outcomes).0 == attempted + events
  {
    var k := EmitsAPrefix(attempted, events, outcomes);
    assert events[..k] == events;
  }

  lemma BodiesOfLog(first: Event, request: string, bodies: seq<Body>)
    ensures Bodies([first] + Numbered(request, bodies, 1)) == [first.body] + bodies
  {
    BodiesJoin([first], Numbered(request, bodies, 1));
    BodiesOfNumbered(request, bodies, 1);
  }

  /**
   The same request and the same graph behaviour, once streamed and once not: when both runs return
   they return the same execution, and their logs without the start of the agent hold the same
   bodies exactly when no result came before the route.
   */
  lemma BranchesAgree(s: Setup, t: Setup)
    requires s.callback && s.streams && t == s.(streams := false, callbackOutcomes := t.callbackOutcomes)
    requires Steady(s.graph.items, None)
    ensures Executed(s).outcome.Returned? && Executed(t).outcome.Returned? ==>
      && Executed(s).outcome == Executed(t).outcome
      && (Erased(Bodies(Executed(s).attempted)) == Bodies(Executed(t).attempted) <==> RouteFirst(s.graph.items))
  {
    if Executed(s).outcome.Returned? && Executed(t).outcome.Returned? {
      ReturnedLog(s);
      ReturnedLog(t);
      var x := Executed(s).outcome.execution;
      var last := LastState(s.graph.items).value;
      var first, closing := StartedBody(s.request, Query(s)), CompletedBody(x);
      var p := LiveRefinesBatch(s.graph.items, last);
      ErasedEnds(first, LiveLog(s), closing);
      SuccessIsBatch(s, last);
      SameMiddle(first, Erased(LiveLog(s)), BatchBodies(last), closing);
    }
  }

  lemma ErasedEnds(first: Body, middle: seq<Body>, last: Body)
    requires !first.kind.AgentStarted? && !last.kind.AgentStarted?
    ensures Erased([first] + (middle + [last])) == [first] + (Erased(middle) + [last])
  {
    ErasedJoin([first], middle + [last]);
    ErasedJoin(middle, [last]);
    NothingErased([first]);
    NothingErased([last]);
  }

  lemma SuccessIsBatch(s: Setup, x: GraphState)
    requires x.route.Some?
    ensures SuccessBodies(ExecutionOf(s, x)) == BatchBodies(x) + [CompletedBody(ExecutionOf(s, x))]
  {
  }

  lemma SameMiddle(first: Body, a: seq<Body>, b: seq<Body>, last: Body)
    ensures [first] + (a + [last]) == [first] + (b + [last]) <==> a == b
  {
    var x, y := [first] + (a + [last]), [first] + (b + [last]);
    assert a == x[1..|x| - 1] && b == y[1..|y| - 1];
  }
}
