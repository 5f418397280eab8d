/**
 What an execution passes on of what its graph said: the last state the graph streamed, field by field,
 in what is returned, written and reported, and why a failure was one.
 */
module MultiAgentResults {
  import opened MultiAgent
  import opened MultiAgentEvents
  import opened MultiAgentHistory
  import opened Options
  import opened Protocol
  import Text

  /** Item number k of the stream is its last state. */
  predicate LastAt(items: seq<Streamed>, k: nat) {
    k < |items| && items[k].State? && forall j :: k < j < |items| ==> items[j].NotAState?
  }

  /** results are the dictionaries among the items, in order. */
  predicate Selects(items: seq<Item>, results: seq<Result>)
    decreases |items|
  {
    if items == [] then results == []
    else
      var n := |items| - 1;
      match items[n]
      case NotADict => Selects(items[..n], results)
      case Dict(r) =>
        results != [] && results[|results| - 1] == r && Selects(items[..n], results[..|results| - 1])
  }

  /**
   A response that answers with this field: its text without the whitespace around it, or the word None
   for a null.
   */
  predicate Tells(f: Field, response: string) {
    match f
    case Missing => false
    case Null => response == "None"
    case Given(text) => !Text.Blank(text) && response == Text.Strip(text)
  }

  /** Execution e passes on state x, field by field; the request is the one of the state, or else the given one. */
  predicate Conveys(e: Execution, x: GraphState, request: string) {
    && x.route == Some(e.route) && e.reason == x.routeReason
    && Tells(x.finalResponse, e.response)
    && e.sources == x.sources && e.errors == x.errors && e.hopCount == x.hopCount
    && Selects(x.results, e.results)
    && e.request == (if x.requestId.Some? then x.requestId.value else request)
  }

  predicate NoAnswer(f: Field) {
    f.Missing? || (f.Given? && Text.Blank(f.text))
  }

  /** A delivery of the streamed events was interrupted. */
  ghost predicate CutShort(s: Setup) {
    s.callback && s.streams && StreamPhase(s, Report(s, [], [StartEvent(s)]).0).1
  }

  /** Why an execution failed with this error. */
  ghost predicate Reason(s: Setup, error: string) {
    if CutShort(s) || s.graph.ending.IsCancelled? then error == CANCELLED
    else if s.graph.ending.Raises? || forall item <- s.graph.items :: item.NotAState? then error == GRAPH_FAILED
    else
      exists k: nat :: LastAt(s.graph.items, k) &&
        var x := s.graph.items[k].state;
        if x.route.None? then error == INVALID_ROUTE else NoAnswer(x.finalResponse) && error == NO_RESPONSE
  }

  // ---------------------------------------------------------------- the last state

  lemma {:induction false} LastAtIsLastState(items: seq<Streamed>, k: nat)
    requires LastAt(items, k)
    ensures LastState(items) == Some(items[k].state)
    decreases |items|
  {
    var n := |items| - 1;
    if k < n {
      LastAtIsLastState(items[..n], k);
    }
  }

  lemma {:induction false} FindLastAt(items: seq<Streamed>) returns (k: nat)
    ensures LastState(items).Some? ==> LastAt(items, k)
    ensures LastState(items).None? <==> forall item <- items :: item.NotAState?
    decreases |items|
  {
    k := 0;
    if items != [] {
      var n := |items| - 1;
      if items[n].State? {
        k := n;
        assert items[n] in items;
      } else {
        k := FindLastAt(items[..n]);
        assert items == items[..n] + [items[n]];
      }
    }
  }

  lemma {:induction false} DictsOfConcat(a: seq<Item>, b: seq<Item>)
    ensures DictResults(a + b) == DictResults(a) + DictResults(b)
  {
    if a == [] {
      assert a + b == b;
    } else {
      assert (a + b)[0] == a[0] && (a + b)[1..] == a[1..] + b;
      DictsOfConcat(a[1..], b);
    }
  }

  /** The service selects the dictionaries. */
  lemma {:induction false} SelectsExactly(items: seq<Item>, results: seq<Result>)
    ensures Selects(items, results) <==> results == DictResults(items)
    decreases |items|
  {
    if items != [] {
      var n := |items| - 1;
      assert items == items[..n] + [items[n]] && [items[n]][1..] == [];
      DictsOfConcat(items[..n], [items[n]]);
      assert DictResults([items[n]]) == if items[n].Dict? then [items[n].result] else [];
      if items[n].NotADict? {
        SelectsExactly(items[..n], results);
      } else if results != [] {
        var m := |results| - 1;
        SelectsExactly(items[..n], results[..m]);
        assert results == results[..m] + [results[m]];
      }
    }
  }

  lemma ExecutionConveys(s: Setup, x: GraphState)
    requires x.route.Some? && Text.Strip(ResponseText(x.finalResponse)) != ""
    ensures Conveys(ExecutionOf(s, x), x, s.request)
  {
    SelectsExactly(x.results, DictResults(x.results));
    NoneIsVisible();
    assert Text.Strip("") == "";
    if x.finalResponse.Given? {
      Text.StripBlank(x.finalResponse.text);
    }
  }

  lemma CutIsInterrupted(s: Setup)
    ensures FinalVerdict(s) == VerdictOf(s, CutShort(s))
  {
  }

  lemma JudgedBy(s: Setup, k: nat)
    requires s.graph.ending.Finishes? && LastAt(s.graph.items, k)
    ensures
      var x := s.graph.items[k].state;
      if x.route.None? then Judge(s) == BadRoute
      else if NoAnswer(x.finalResponse) then Judge(s) == NoResponse
      else Judge(s).Good? && Conveys(Judge(s).execution, x, s.request)
  {
    var x := s.graph.items[k].state;
    LastAtIsLastState(s.graph.items, k);
    if x.route.Some? {
      NoResponseExactly(s, x);
      if !NoAnswer(x.finalResponse) {
        ExecutionConveys(s, x);
      }
    }
  }

  /** What the service makes of the graph: the last state, passed on, or the reason why not. */
  lemma VerdictConveys(s: Setup)
    ensures
      var v := FinalVerdict(s);
      if v.Good?
      then exists k: nat :: LastAt(s.graph.items, k) && Conveys(v.execution, s.graph.items[k].state, s.request)
      else Reason(s, ErrorOf(v))
    ensures FinalVerdict(s).Good? ==> s.graph.ending.Finishes? && !CutShort(s)
  {
    CutIsInterrupted(s);
    var k := FindLastAt(s.graph.items);
    if !CutShort(s) && s.graph.ending.Finishes? && LastState(s.graph.items).Some? {
      JudgedBy(s, k);
      assert exists item <- s.graph.items :: !item.NotAState? by {
        assert s.graph.items[k] in s.graph.items;
      }
    }
  }

  lemma OneLast(items: seq<Streamed>, k: nat, l: nat)
    requires LastAt(items, k) && LastAt(items, l)
    ensures k == l
  {
  }

  /** An accepted result passes on the last state, whichever number it has. */
  lemma GoodConveys(s: Setup, k: nat)
    requires FinalVerdict(s).Good? && LastAt(s.graph.items, k)
    ensures Conveys(FinalVerdict(s).execution, s.graph.items[k].state, s.request)
  {
    VerdictConveys(s);
    var l: nat :| LastAt(s.graph.items, l) && Conveys(FinalVerdict(s).execution, s.graph.items[l].state, s.request);
    OneLast(s.graph.items, k, l);
  }

  // ---------------------------------------------------------------- what is returned

  /**
   An execution that returns, returns the last state its graph streamed: route, reason, sources, errors,
   hops and the results that are dictionaries, in order; the response is the state's without the
   whitespace around it. One that fails says why.
   */
  lemma ReturnedConveys(s: Setup)
    ensures
      match Executed(s).outcome
      case Returned(e) =>
        && s.graph.ending.Finishes?
        && (exists k: nat :: LastAt(s.graph.items, k) && Conveys(e, s.graph.items[k].state, s.request))
        && (s.persist ==>
              && |Executed(s).store.rows| == 3 + |e.results|
              && Executed(s).store.document == Some(CompletedDocument(e)))
      case Failed(error) => error == START_NOT_PERSISTED || error == RESULT_NOT_PERSISTED || Reason(s, error)
      case Rejected => Text.Blank(s.query) || s.maxHops < 1
      case CancelledOut => true
  {
    Text.StripBlank(s.query);
    VerdictConveys(s);
    if s.persist {
      ExecutionIsConsistent(s);
    }
    if Acceptable(s) {
      StoreInTwoParts(s);
      if Begun(s) {
        ExecutedWhenBegun(s);
        FailureOutcome(s, Write(s, EmptyStore, StartCalls(s)).0, Report(s, [], [StartEvent(s)]).0);
      }
    }
  }

  lemma FailureOutcome(s: Setup, store: Store, attempted: seq<Event>)
    requires attempted == Report(s, [], [StartEvent(s)]).0
    ensures
      var run, v := AfterStart(s, store, attempted), FinalVerdict(s);
      run.outcome.Failed? ==> run.outcome.error == if v.Good? then RESULT_NOT_PERSISTED else ErrorOf(v)
    ensures !AfterStart(s, store, attempted).outcome.Rejected?
  {
  }

  /** The document of a persisted execution: completed with the last state, or failed with its reason. */
  lemma DocumentConveys(s: Setup)
    requires s.persist && Executed(s).store.document.Some?
    ensures
      match Executed(s).store.document.value
      case RunningDocument => true
      case CompletedDocument(e) =>
        && s.graph.ending.Finishes?
        && exists k: nat :: LastAt(s.graph.items, k) && Conveys(e, s.graph.items[k].state, s.request)
      case FailedDocument(error) => Reason(s, error)
  {
    ExecutionIsConsistent(s);
    VerdictConveys(s);
  }

  // ---------------------------------------------------------------- what is written and reported

  predicate SaysStart(b: Body, s: Setup) {
    b == Body(ExecutionStarted, Some("supervisor"), StartDetails(s.request, Text.Strip(s.query)))
  }

  predicate SaysRoute(b: Body, x: GraphState) {
    x.route.Some? && b == Body(RoutingCompleted, Some("supervisor"), RouteDetails(x.route.value, x.routeReason))
  }

  predicate SaysAgent(b: Body, x: GraphState) {
    x.route.Some? && b == Body(AgentStarted, Some(RouteName(x.route.value)), AgentDetails(x.route.value))
  }

  predicate SaysResult(b: Body, r: Result) {
    b == Body(AgentResult, r.agent, ResultDetails(r.body))
  }

  predicate SaysCompletion(b: Body, x: GraphState) {
    && b.kind == ExecutionCompleted && b.agent == Some("synthesizer") && b.details.CompletedDetails?
    && x.route == Some(b.details.route) && b.details.hopCount == x.hopCount
    && Tells(x.finalResponse, b.details.response)
    && b.details.errors == x.errors && b.details.sources == x.sources
  }

  predicate SaysFailure(b: Body, error: string) {
    b == Body(ExecutionFailed, None, FailedDetails(error))
  }

  /** Entry number i, from 1, of the report of state x: its route, its results in order, its completion. */
  predicate SaysPart(b: Body, i: nat, x: GraphState, results: seq<Result>) {
    if i == 1 then SaysRoute(b, x)
    else if 2 <= i < 2 + |results| then SaysResult(b, results[i - 2])
    else i == 2 + |results| && SaysCompletion(b, x)
  }

  lemma SuccessSays(x: GraphState, e: Execution, request: string, i: nat)
    requires Conveys(e, x, request) && i < |SuccessBodies(e)|
    ensures SaysPart(SuccessBodies(e)[i], i + 1, x, e.results) && |SuccessBodies(e)| == 2 + |e.results|
  {
  }

  /** A row behind the first belongs to the report of the last state, or says why the execution failed. */
  ghost predicate RowSays(s: Setup, i: nat, b: Body) {
    if i == 0 then SaysStart(b, s)
    else
      || (i == 1 && b.details.FailedDetails? && SaysFailure(b, b.details.error) && Reason(s, b.details.error))
      || exists k: nat, results :: LastAt(s.graph.items, k) && Selects(s.graph.items[k].state.results, results) &&
           SaysPart(b, i, s.graph.items[k].state, results)
  }

  lemma ScriptSays(s: Setup, i: nat)
    requires i < |Script(s)|
    ensures RowSays(s, i, Script(s)[i])
  {
    VerdictConveys(s);
    var v := FinalVerdict(s);
    if i > 0 && v.Good? {
      assert Script(s)[i] == SuccessBodies(v.execution)[i - 1];
      ResultSays(s, v.execution, i);
    }
  }

  lemma ResultSays(s: Setup, e: Execution, i: nat)
    requires exists k: nat :: LastAt(s.graph.items, k) && Conveys(e, s.graph.items[k].state, s.request)
    requires 0 < i <= |SuccessBodies(e)|
    ensures RowSays(s, i, SuccessBodies(e)[i - 1])
  {
    var k: nat :| LastAt(s.graph.items, k) && Conveys(e, s.graph.items[k].state, s.request);
    SuccessSays(s.graph.items[k].state, e, s.request, i - 1);
    assert SaysPart(SuccessBodies(e)[i - 1], i, s.graph.items[k].state, e.results);
  }

  /** Every row of the history says what the request, the last state of the graph, or the failure is. */
  lemma RowsSay(s: Setup, i: nat)
    requires s.persist && i < |Executed(s).store.rows|
    ensures Executed(s).store.rows[i].sequence == i && RowSays(s, i, Executed(s).store.rows[i].body)
  {
    ExecutionIsConsistent(s);
    assert Executed(s).store.rows[i] == Rows(Script(s))[i];
    ScriptSays(s, i);
  }

  /** What an event says, by its kind: the request, some state that was streamed, the last state, or the failure. */
  ghost predicate EventSays(s: Setup, b: Body) {
    match b.kind
    case ExecutionStarted => SaysStart(b, s)
    case RoutingCompleted => exists k :: 0 <= k < |s.graph.items| && StateSays(s.graph.items[k], b)
    case AgentStarted => exists k :: 0 <= k < |s.graph.items| && StateSays(s.graph.items[k], b)
    case AgentResult => exists k :: 0 <= k < |s.graph.items| && StateSays(s.graph.items[k], b)
    case ExecutionCompleted => exists k: nat :: LastAt(s.graph.items, k) && SaysCompletion(b, s.graph.items[k].state)
    case ExecutionFailed => b.details.FailedDetails? && SaysFailure(b, b.details.error) && Reason(s, b.details.error)
  }

  /** One of the events that state item gives rise to. */
  predicate StateSays(item: Streamed, b: Body) {
    && item.State?
    && (SaysRoute(b, item.state) || SaysAgent(b, item.state) ||
        exists r <- DictResults(item.state.results) :: SaysResult(b, r))
  }

  lemma {:induction false} LiveSays(items: seq<Streamed>, routed: bool, emitted: nat, b: Body)
    requires b in LiveBodies(items, routed, emitted)
    ensures exists k :: 0 <= k < |items| && StateSays(items[k], b)
    decreases |items|
  {
    var rest := items[1..];
    if items[0].State? && b in NewBodies(items[0].state, routed, emitted) {
      NewSays(items[0].state, routed, emitted, b);
      assert StateSays(items[0], b);
    } else {
      if items[0].NotAState? {
        LiveSays(rest, routed, emitted, b);
      } else {
        var x := items[0].state;
        LiveSays(rest, routed || x.route.Some?, |DictResults(x.results)|, b);
      }
      var k :| 0 <= k < |rest| && StateSays(rest[k], b);
      assert items[k + 1] == rest[k];
    }
  }

  lemma NewSays(x: GraphState, routed: bool, emitted: nat, b: Body)
    requires b in NewBodies(x, routed, emitted)
    ensures StateSays(State(x), b)
  {
    var results := DictResults(x.results);
    if !(x.route.Some? && b in [RoutingBody(x.route.value, x.routeReason), AgentStartedBody(x.route.value)]) {
      assert b in ResultBodies(results[emitted..]);
      var i :| 0 <= i < |results| - emitted && b == ResultBodies(results[emitted..])[i];
      assert results[emitted..][i] in results && SaysResult(b, results[emitted..][i]);
    }
  }

  lemma SuccessEventSays(s: Setup, e: Execution, b: Body)
    requires FinalVerdict(s) == Good(e) && b in SuccessBodies(e)
    ensures EventSays(s, b)
  {
    VerdictConveys(s);
    var k: nat :| LastAt(s.graph.items, k) && Conveys(e, s.graph.items[k].state, s.request);
    var x := s.graph.items[k].state;
    SelectsExactly(x.results, e.results);
    var i :| 0 <= i < |SuccessBodies(e)| && SuccessBodies(e)[i] == b;
    SuccessSays(x, e, s.request, i);
    if 0 < i < 1 + |e.results| {
      assert e.results[i - 1] in DictResults(x.results) && SaysResult(b, e.results[i - 1]);
    }
    assert i <= |e.results| ==> StateSays(s.graph.items[k], b);
  }

  /** Everything that may be reported, apart from numbers. */
  function Reportable(s: Setup): seq<Body> {
    var v := FinalVerdict(s);
    [StartedBody(s.request, Query(s))] + (if Live(s) then LiveLog(s) else []) +
    (if v.Good? then SuccessBodies(v.execution) else [FailedBody(ErrorOf(v))])
  }

  lemma ReportableSays(s: Setup, b: Body)
    requires b in Reportable(s)
    ensures EventSays(s, b)
  {
    var v := FinalVerdict(s);
    if b == StartedBody(s.request, Query(s)) {
    } else if Live(s) && b in LiveLog(s) {
      LiveSays(s.graph.items, false, 0, b);
    } else if v.Good? {
      SuccessEventSays(s, v.execution, b);
    } else {
      VerdictConveys(s);
    }
  }

  /** What is reported behind the graph about an accepted result carries the request of the result. */
  predicate IsClosing(s: Setup, kind: WorkflowEventType) {
    kind.ExecutionCompleted? || (!Live(s) && FinalVerdict(s).Good? && !kind.ExecutionStarted?)
  }

  predicate RequestFits(s: Setup, e: Event) {
    e.request ==
      if IsClosing(s, e.body.kind) && FinalVerdict(s).Good? then FinalVerdict(s).execution.request else s.request
  }

  ghost predicate AllReportable(s: Setup, events: seq<Event>) {
    forall e <- events :: e.body in Reportable(s) && RequestFits(s, e)
  }

  lemma StreamedReportable(s: Setup)
    requires s.callback
    ensures AllReportable(s, StreamPhase(s, [StartEvent(s)]).0)
  {
    if Live(s) {
      var k := EmitsAPrefix([StartEvent(s)], Numbered(s.request, LiveLog(s), 1), s.callbackOutcomes);
      var all := [StartEvent(s)] + Numbered(s.request, LiveLog(s), 1)[..k];
      LiveBodiesAreProgress(s.graph.items, false, 0);
      forall e | e in all
        ensures e.body in Reportable(s) && RequestFits(s, e)
      {
        if e != StartEvent(s) {
          var i :| 0 <= i < k && Numbered(s.request, LiveLog(s), 1)[i] == e;
          assert LiveLog(s)[i] in LiveLog(s);
        }
      }
    }
  }

  lemma ClosingReportable(s: Setup, x: Execution, sequence: nat, e: Event)
    requires FinalVerdict(s) == Good(x) && e in ClosingEvents(s, x, sequence)
    ensures e.body in Reportable(s) && RequestFits(s, e)
  {
    ClosingBody(s, x, sequence, e);
    assert e.body in SuccessBodies(x) ==> e.body in Reportable(s);
  }

  lemma ClosingBody(s: Setup, x: Execution, sequence: nat, e: Event)
    requires e in ClosingEvents(s, x, sequence)
    ensures e.body in SuccessBodies(x) && e.request == x.request && !e.body.kind.ExecutionStarted?
    ensures Live(s) ==> e.body.kind.ExecutionCompleted?
  {
    var bodies := SuccessBodies(x);
    assert forall b <- bodies :: !b.kind.ExecutionStarted?;
    if Live(s) {
      assert bodies[|bodies| - 1] == CompletedBody(x) && e.body == CompletedBody(x);
    } else {
      var i :| 0 <= i < |bodies| && Numbered(x.request, bodies, 1)[i] == e;
    }
  }

  lemma LaterReportable(s: Setup, store: Store)
    requires Begun(s) && s.callback
    ensures AllReportable(s, AfterStart(s, store, [StartEvent(s)]).attempted)
  {
    StartIsReported(s);
    StreamedReportable(s);
    var (attempted, interrupted) := StreamPhase(s, [StartEvent(s)]);
    var sequence := CallbackSequence(s, attempted, interrupted);
    var v := VerdictOf(s, interrupted);
    assert v == FinalVerdict(s);
    if v.Good? {
      var k := SuccessEvents(s, store, attempted, v.execution, sequence);
      forall e | e in ClosingEvents(s, v.execution, sequence)
        ensures e.body in Reportable(s) && RequestFits(s, e)
      {
        ClosingReportable(s, v.execution, sequence, e);
      }
    } else {
      FailEvents(s, store, attempted, v, sequence);
    }
  }

  lemma AllIsReportable(s: Setup)
    ensures AllReportable(s, Executed(s).attempted)
  {
    StartIsReported(s);
    if !Acceptable(s) {
    } else if !Begun(s) {
      ExecutedWhenNotBegun(s);
    } else {
      ExecutedWhenBegun(s);
      var store := Write(s, EmptyStore, StartCalls(s)).0;
      if s.callback {
        LaterReportable(s, store);
      } else {
        SilentWhenBegun(s, store);
      }
    }
  }

  lemma CompletionNeedsAResult(s: Setup, b: Body)
    requires b in Reportable(s) && b.kind.ExecutionCompleted?
    ensures FinalVerdict(s).Good?
  {
    LiveBodiesAreProgress(s.graph.items, false, 0);
  }

  /**
   Event e goes out under this request: the one of the last state, or else the given one, when it closes
   the report.
   */
  ghost predicate GoesOutUnder(s: Setup, e: Event) {
    if IsClosing(s, e.body.kind) then
      exists k: nat :: LastAt(s.graph.items, k) && e.request == RequestOf(s, s.graph.items[k].state)
    else e.request == s.request
  }

  function RequestOf(s: Setup, x: GraphState): string {
    if x.requestId.Some? then x.requestId.value else s.request
  }

  /**
   Every event that is reported says what the request, a state of the graph, or the failure is. The
   completion, and without streaming all of the report behind the start, goes out under the request of
   the last state; everything else under the one the execution was called with.
   */
  lemma EventsSay(s: Setup, e: Event)
    requires e in Executed(s).attempted
    ensures EventSays(s, e.body) && GoesOutUnder(s, e)
  {
    AllIsReportable(s);
    ReportableSays(s, e.body);
    ClosingRequest(s, e);
  }

  lemma ClosingRequest(s: Setup, e: Event)
    requires e.body in Reportable(s) && RequestFits(s, e)
    ensures GoesOutUnder(s, e)
  {
    VerdictConveys(s);
    if IsClosing(s, e.body.kind) {
      if e.body.kind.ExecutionCompleted? {
        CompletionNeedsAResult(s, e.body);
      }
      var k: nat :| LastAt(s.graph.items, k) && Conveys(FinalVerdict(s).execution, s.graph.items[k].state, s.request);
      assert e.request == RequestOf(s, s.graph.items[k].state);
    }
  }

  /** Reported all at once, the events behind the start are the report of the last state, from its route on. */
  lemma BatchSays(s: Setup, k: nat, results: seq<Result>, i: nat)
    requires s.callback && !s.streams && FinalVerdict(s).Good?
    requires LastAt(s.graph.items, k) && Selects(s.graph.items[k].state.results, results)
    requires 0 < i < |Executed(s).attempted|
    ensures SaysPart(Executed(s).attempted[i].body, i, s.graph.items[k].state, results)
    ensures Executed(s).attempted[i].sequence == i
  {
    GoodConveys(s, k);
    BatchAttempted(s, i);
    PartSays(FinalVerdict(s).execution, s.graph.items[k].state, s.request, results, i);
  }

  lemma PartSays(e: Execution, x: GraphState, request: string, results: seq<Result>, i: nat)
    requires Conveys(e, x, request) && Selects(x.results, results) && 0 < i <= |SuccessBodies(e)|
    ensures SaysPart(SuccessBodies(e)[i - 1], i, x, results)
  {
    SelectsExactly(x.results, results);
    SelectsExactly(x.results, e.results);
    SuccessSays(x, e, request, i - 1);
  }

  lemma BatchAttempted(s: Setup, i: nat)
    requires s.callback && !s.streams && FinalVerdict(s).Good? && 0 < i < |Executed(s).attempted|
    ensures
      var e := FinalVerdict(s).execution;
      i <= |SuccessBodies(e)| && Executed(s).attempted[i] == Event(e.request, i, SuccessBodies(e)[i - 1])
  {
    StartIsReported(s);
    if !Begun(s) {
      ExecutedWhenNotBegun(s);
    } else {
      ExecutedWhenBegun(s);
      BatchEvent(s, Write(s, EmptyStore, StartCalls(s)).0, FinalVerdict(s).execution, i);
    }
  }

  lemma BatchEvent(s: Setup, store: Store, e: Execution, i: nat)
    requires s.callback && !s.streams && FinalVerdict(s) == Good(e)
    requires Report(s, [], [StartEvent(s)]).0 == [StartEvent(s)]
    requires 0 < i < |AfterStart(s, store, [StartEvent(s)]).attempted|
    ensures i <= |SuccessBodies(e)|
    ensures AfterStart(s, store, [StartEvent(s)]).attempted[i] == Event(e.request, i, SuccessBodies(e)[i - 1])
  {
    var n := SuccessEvents(s, store, [StartEvent(s)], e, 1);
  }

  // ---------------------------------------------------------------- how far an execution gets

  /** Rejected for what was asked, stopped by a repository at the start, and, unheard, returned, exactly when. */
  lemma OutcomeExactly(s: Setup)
    ensures Executed(s).outcome.Rejected? <==> Text.Blank(s.query) || s.maxHops < 1
    ensures Executed(s).outcome == Failed(START_NOT_PERSISTED) <==>
      Acceptable(s) && Write(s, EmptyStore, StartCalls(s)).1 == RepositoryError
    ensures !s.callback ==>
      (Executed(s).outcome.Returned? <==> Begun(s) && FinalVerdict(s).Good? && ResultWritten(s))
  {
    Text.StripBlank(s.query);
    MessagesDiffer();
    StartIsReported(s);
    if Acceptable(s) {
      if Begun(s) {
        ExecutedWhenBegun(s);
        FailureOutcome(s, Write(s, EmptyStore, StartCalls(s)).0, Report(s, [], [StartEvent(s)]).0);
        UnheardOutcome(s, Write(s, EmptyStore, StartCalls(s)).0);
      } else {
        ExecutedWhenNotBegun(s);
      }
    }
  }

  /**
   A begun execution without a result raises its reason, unless it was cancelled: while the graph ran, in
   the write of the failure, or in the delivery of the report.
   */
  lemma FailureOutcomeExactly(s: Setup)
    requires Begun(s) && !FinalVerdict(s).Good?
    ensures
      var n := |Executed(s).attempted|;
      && (s.callback ==> n > 0)
      && if CutShort(s) || s.graph.ending.IsCancelled? || FailureWriteCancelled(s) ||
            (s.callback && s.callbackOutcomes(n - 1).Interrupted?)
         then Executed(s).outcome == CancelledOut
         else Executed(s).outcome.Failed? && Reason(s, Executed(s).outcome.error)
  {
    StartIsReported(s);
    VerdictConveys(s);
    CutIsInterrupted(s);
    ExecutedWhenBegun(s);
    var store, attempted := Write(s, EmptyStore, StartCalls(s)).0, Report(s, [], [StartEvent(s)]).0;
    FailureWrite(s, ErrorOf(FinalVerdict(s)));
    FailPhaseOutcome(s, store, StreamPhase(s, attempted).0, FinalVerdict(s),
      CallbackSequence(s, StreamPhase(s, attempted).0, StreamPhase(s, attempted).1));
    if s.callback {
      StreamedLog(s);
    }
    assert FinalVerdict(s).Stopped? <==> CutShort(s) || s.graph.ending.IsCancelled?;
  }

  lemma FailPhaseOutcome(s: Setup, store: Store, attempted: seq<Event>, v: Verdict, sequence: nat)
    requires !v.Good?
    ensures
      var run := FailPhase(s, store, attempted, v, sequence); var n := |run.attempted|;
      if Write(s, store, FailCalls(ErrorOf(v))).1 == CancelledError then run.outcome == CancelledOut
      else
        && (s.callback ==> n == |attempted| + 1)
        && run.outcome ==
             if v.Stopped? || (s.callback && s.callbackOutcomes(n - 1).Interrupted?) then CancelledOut
             else Failed(ErrorOf(v))
  {
    var number := if v.BadRoute? || v.NoResponse? then 1 else sequence;
    var event := Event(s.request, number, FailedBody(ErrorOf(v)));
    if s.callback {
      var k := EmitsAPrefix(attempted, [event], s.callbackOutcomes);
      assert k == 1 && [event][..1] == [event];
    }
  }

  /**
   A begun execution with a result raises when a repository fails to store it, and returns it when it is
   stored and every report behind it went out.
   */
  lemma ResultOutcomeExactly(s: Setup)
    requires Begun(s) && FinalVerdict(s).Good?
    ensures
      var (store, r) := Write(s, Write(s, EmptyStore, StartCalls(s)).0, LaterCalls(s));
      var closing := |ClosingEvents(s, FinalVerdict(s).execution, 0)|; var n := |StreamPhase(s, [StartEvent(s)]).0|;
      Executed(s).outcome ==
        if r == RepositoryError then Failed(RESULT_NOT_PERSISTED)
        else if r == CancelledError then CancelledOut
        else if s.callback && exists j: nat :: n <= j < n + closing && s.callbackOutcomes(j).Interrupted?
        then CancelledOut
        else Returned(FinalVerdict(s).execution)
  {
    StartIsReported(s);
    ExecutedWhenBegun(s);
    var store, attempted := Write(s, EmptyStore, StartCalls(s)).0, Report(s, [], [StartEvent(s)]).0;
    var (later, interrupted) := StreamPhase(s, attempted);
    ResultPhaseOutcome(s, store, later, FinalVerdict(s).execution, CallbackSequence(s, later, interrupted));
  }

  lemma ResultPhaseOutcome(s: Setup, store: Store, attempted: seq<Event>, x: Execution, sequence: nat)
    ensures
      var run := SuccessPhase(s, store, attempted, x, sequence); var r := Write(s, store, SuccessCalls(x)).1;
      var closing := |ClosingEvents(s, x, 0)|;
      run.outcome ==
        if r == RepositoryError then Failed(RESULT_NOT_PERSISTED)
        else if r == CancelledError then CancelledOut
        else if s.callback &&
                exists j: nat :: |attempted| <= j < |attempted| + closing && s.callbackOutcomes(j).Interrupted?
        then CancelledOut
        else Returned(x)
  {
    if s.callback {
      var k := EmitsAPrefix(attempted, ClosingEvents(s, x, sequence), s.callbackOutcomes);
      assert |ClosingEvents(s, x, sequence)| == |ClosingEvents(s, x, 0)|;
    }
  }

  lemma UnheardOutcome(s: Setup, store: Store)
    requires Begun(s) && store == Write(s, EmptyStore, StartCalls(s)).0
    ensures !s.callback ==>
      (AfterStart(s, store, []).outcome.Returned? <==> FinalVerdict(s).Good? && ResultWritten(s))
  {
  }

  // ---------------------------------------------------------------- the start of the agent

  /** Each routing is followed by the start of the agent it names, which stands nowhere else. */
  predicate Paired(bodies: seq<Body>) {
    forall i :: 0 <= i < |bodies| ==>
      && (bodies[i].kind.RoutingCompleted? && i + 1 < |bodies| ==> NamesTheAgent(bodies[i], bodies[i + 1]))
      && (bodies[i].kind.AgentStarted? ==> i > 0 && NamesTheAgent(bodies[i - 1], bodies[i]))
  }

  predicate NamesTheAgent(routing: Body, start: Body) {
    && routing.kind.RoutingCompleted? && routing.details.RouteDetails?
    && start == Body(AgentStarted, Some(RouteName(routing.details.route)), AgentDetails(routing.details.route))
  }

  /** Nothing is left open at either end. */
  predicate Closed(bodies: seq<Body>) {
    bodies != [] ==> !bodies[0].kind.AgentStarted? && !bodies[|bodies| - 1].kind.RoutingCompleted?
  }

  lemma PairedConcat(a: seq<Body>, b: seq<Body>)
    requires Paired(a) && Closed(a) && Paired(b) && Closed(b)
    ensures Paired(a + b) && Closed(a + b)
  {
    var c := a + b;
    forall i | 0 <= i < |c|
      ensures c[i].kind.RoutingCompleted? && i + 1 < |c| ==> NamesTheAgent(c[i], c[i + 1])
      ensures c[i].kind.AgentStarted? ==> i > 0 && NamesTheAgent(c[i - 1], c[i])
    {
      assert i < |a| ==> c[i] == a[i];
      assert i >= |a| ==> c[i] == b[i - |a|];
    }
  }

  lemma {:induction false} LiveIsPaired(items: seq<Streamed>, routed: bool, emitted: nat)
    ensures Paired(LiveBodies(items, routed, emitted)) && Closed(LiveBodies(items, routed, emitted))
    decreases |items|
  {
    if items != [] {
      if items[0].NotAState? {
        LiveIsPaired(items[1..], routed, emitted);
      } else {
        var x := items[0].state;
        var rest := LiveBodies(items[1..], routed || x.route.Some?, |DictResults(x.results)|);
        LiveIsPaired(items[1..], routed || x.route.Some?, |DictResults(x.results)|);
        NewIsPaired(x, routed, emitted);
        PairedConcat(NewBodies(x, routed, emitted), rest);
      }
    }
  }

  lemma NewIsPaired(x: GraphState, routed: bool, emitted: nat)
    ensures Paired(NewBodies(x, routed, emitted)) && Closed(NewBodies(x, routed, emitted))
  {
  }

  /**
   The events of an execution that streams: the start, the live log as far as it got, and at most one
   more that ends it.
   */
  lemma StreamedEvents(s: Setup) returns (n: nat)
    requires Live(s)
    ensures n <= |LiveLog(s)| && |Executed(s).attempted| <= n + 2
    ensures forall i :: 1 <= i <= n && i < |Executed(s).attempted| ==>
      Executed(s).attempted[i].body == LiveLog(s)[i - 1]
    ensures |Executed(s).attempted| == n + 2 ==> Terminal(Executed(s).attempted[n + 1].body)
    ensures Executed(s).attempted != [] ==> Executed(s).attempted[0].body == StartEvent(s).body
  {
    n := 0;
    StartIsReported(s);
    if !Acceptable(s) {
    } else if !Begun(s) {
      ExecutedWhenNotBegun(s);
    } else {
      ExecutedWhenBegun(s);
      var store := Write(s, EmptyStore, StartCalls(s)).0;
      n := EmitsAPrefix([StartEvent(s)], Numbered(s.request, LiveLog(s), 1), s.callbackOutcomes);
      LaterStreamed(s, store, n);
    }
  }

  lemma LaterStreamed(s: Setup, store: Store, n: nat)
    requires Live(s) && n <= |LiveLog(s)|
    requires StreamPhase(s, [StartEvent(s)]).0 == [StartEvent(s)] + Numbered(s.request, LiveLog(s), 1)[..n]
    ensures
      var attempted := AfterStart(s, store, [StartEvent(s)]).attempted;
      && n + 1 <= |attempted| <= n + 2 && attempted[0] == StartEvent(s)
      && (forall i :: 1 <= i <= n ==> attempted[i].body == LiveLog(s)[i - 1])
      && (|attempted| == n + 2 ==> Terminal(attempted[n + 1].body))
  {
    var (attempted, interrupted) := StreamPhase(s, [StartEvent(s)]);
    var sequence := CallbackSequence(s, attempted, interrupted);
    var v := VerdictOf(s, interrupted);
    PrefixOfLog(s, n);
    if v.Good? {
      var k := SuccessEvents(s, store, attempted, v.execution, sequence);
      OneLastEvent(s, attempted, v.execution, sequence, k);
    } else {
      FailEvents(s, store, attempted, v, sequence);
    }
  }

  lemma PrefixOfLog(s: Setup, n: nat)
    requires n <= |LiveLog(s)|
    ensures
      var attempted := [StartEvent(s)] + Numbered(s.request, LiveLog(s), 1)[..n];
      && |attempted| == n + 1 && attempted[0] == StartEvent(s)
      && forall i :: 1 <= i <= n ==> attempted[i].body == LiveLog(s)[i - 1]
  {
    PrefixOfNumbered(StartEvent(s), s.request, LiveLog(s), n);
  }

  lemma PrefixOfNumbered(first: Event, request: string, bodies: seq<Body>, n: nat)
    requires n <= |bodies|
    ensures
      var events := [first] + Numbered(request, bodies, 1)[..n];
      && |events| == n + 1 && events[0] == first
      && forall i :: 1 <= i <= n ==> events[i].body == bodies[i - 1]
  {
    var numbered := Numbered(request, bodies, 1)[..n];
    forall i | 1 <= i <= n
      ensures ([first] + numbered)[i].body == bodies[i - 1]
    {
      assert ([first] + numbered)[i] == numbered[i - 1];
    }
  }

  lemma OneLastEvent(s: Setup, attempted: seq<Event>, x: Execution, sequence: nat, k: nat)
    requires Live(s) && k <= |ClosingEvents(s, x, sequence)|
    ensures
      var all := attempted + ClosingEvents(s, x, sequence)[..k];
      && attempted <= all && |all| <= |attempted| + 1
      && (|all| == |attempted| + 1 ==> Terminal(all[|attempted|].body))
  {
  }

  /** Streamed, each routing that is not the very last event is followed by the start of the agent it names. */
  lemma RoutingStartsTheAgent(s: Setup)
    requires Live(s)
    ensures
      var attempted := Executed(s).attempted;
      forall i :: 0 <= i < |attempted| ==>
        && (attempted[i].body.kind.RoutingCompleted? && i + 1 < |attempted| && !Terminal(attempted[i + 1].body) ==>
             NamesTheAgent(attempted[i].body, attempted[i + 1].body))
        && (attempted[i].body.kind.AgentStarted? ==> i > 0 && NamesTheAgent(attempted[i - 1].body, attempted[i].body))
  {
    var n := StreamedEvents(s);
    LiveIsPaired(s.graph.items, false, 0);
    var attempted := Executed(s).attempted;
    forall i | 0 <= i < |attempted|
      ensures attempted[i].body.kind.RoutingCompleted? && i + 1 < |attempted| && !Terminal(attempted[i + 1].body) ==>
        NamesTheAgent(attempted[i].body, attempted[i + 1].body)
      ensures attempted[i].body.kind.AgentStarted? ==>
        i > 0 && NamesTheAgent(attempted[i - 1].body, attempted[i].body)
    {
      if 1 <= i <= n {
        assert attempted[i].body == LiveLog(s)[i - 1];
        assert i < n ==> i + 1 < |attempted| ==> attempted[i + 1].body == LiveLog(s)[i];
        assert i > 1 ==> attempted[i - 1].body == LiveLog(s)[i - 2];
      }
    }
  }
}
