/**
 What a callback sees of one execution: how its events are numbered, how the streaming branch
 relates to the batch branch, and that the callback never changes the execution.
 */
module MultiAgentEvents {
  import opened MultiAgent
  import opened MultiAgentHistory
  import opened Options
  import opened Protocol
  import Text

  predicate Terminal(b: Body) {
    b.kind.ExecutionCompleted? || b.kind.ExecutionFailed?
  }

  predicate WellNumbered(events: seq<Event>) {
    forall i :: 0 <= i < |events| ==> events[i].sequence == i
  }

  /** At most one event is terminal, and it is the last. */
  predicate TerminalLast(events: seq<Event>) {
    forall i :: 0 <= i < |events| - 1 ==> !Terminal(events[i].body)
  }

  predicate Progress(events: seq<Event>) {
    forall e <- events :: !Terminal(e.body)
  }

  function LiveLog(s: Setup): seq<Body> {
    LiveBodies(s.graph.items, false, 0)
  }

  // ---------------------------------------------------------------- numbering

  /** The events attempted are a prefix, cut right after the first delivery that is interrupted. */
  lemma {:induction false} EmitsAPrefix(attempted: seq<Event>, events: seq<Event>, outcomes: nat -> CallbackOutcome)
    returns (k: nat)
    ensures k <= |events|
    ensures EmitAll(attempted, events, outcomes).0 == attempted + events[..k]
    ensures EmitAll(attempted, events, outcomes).1 ==> k > 0 && outcomes(|attempted| + k - 1).Interrupted?
    ensures forall j: nat :: |attempted| <= j < |attempted| + k - 1 ==> !outcomes(j).Interrupted?
    ensures !EmitAll(attempted, events, outcomes).1 ==>
              k == |events| && forall j: nat :: |attempted| <= j < |attempted| + |events| ==> !outcomes(j).Interrupted?
    decreases |events|
  {
    if events == [] {
      k := 0;
    } else if outcomes(|attempted|).Interrupted? {
      k := 1;
    } else {
      var next := attempted + [events[0]];
      k := EmitsAPrefix(next, events[1..], outcomes);
      k := k + 1;
      assert next + events[1..][..k - 1] == attempted + events[..k];
    }
  }

  lemma {:induction false} LiveBodiesAreProgress(items: seq<Streamed>, routed: bool, emitted: nat)
    ensures forall b <- LiveBodies(items, routed, emitted) :: !Terminal(b)
    decreases |items|
  {
    if items != [] {
      if items[0].NotAState? {
        LiveBodiesAreProgress(items[1..], routed, emitted);
      } else {
        var x := items[0].state;
        LiveBodiesAreProgress(items[1..], routed || x.route.Some?, |DictResults(x.results)|);
      }
    }
  }

  /** A cancellation that lands in the delivery of one of the streamed events. */
  ghost predicate DeliveryInterrupted(s: Setup) {
    exists j: nat :: 1 <= j <= |LiveLog(s)| && s.callbackOutcomes(j).Interrupted?
  }

  /** The streaming phase leaves a well-numbered log; its last event is uncounted if it was interrupted. */
  lemma StreamedLog(s: Setup)
    requires s.callback
    ensures
      var (attempted, interrupted) := StreamPhase(s, [StartEvent(s)]);
      && |attempted| >= 1 && WellNumbered(attempted) && Progress(attempted)
      && (interrupted <==> Live(s) && DeliveryInterrupted(s))
      && (interrupted ==> |attempted| >= 2 && LiveLog(s) != [])
      && (!interrupted ==> |attempted| == 1 + if Live(s) then |LiveLog(s)| else 0)
      && CallbackSequence(s, attempted, interrupted) == |attempted| - if interrupted then 1 else 0
  {
    if Live(s) {
      var k := LivePhase(s);
    }
  }

  lemma LivePhase(s: Setup) returns (k: nat)
    requires Live(s)
    ensures k <= |LiveLog(s)|
    ensures
      var (attempted, interrupted) := StreamPhase(s, [StartEvent(s)]);
      && |attempted| == k + 1 && WellNumbered(attempted) && Progress(attempted)
      && (interrupted <==> DeliveryInterrupted(s))
      && (if interrupted then k > 0 else k == |LiveLog(s)|)
  {
    LiveBodiesAreProgress(s.graph.items, false, 0);
    k := EmitsAPrefix([StartEvent(s)], Numbered(s.request, LiveLog(s), 1), s.callbackOutcomes);
    PrefixIsNumbered(s, k);
    InterruptedOrNot(s, k);
  }

  lemma PrefixIsNumbered(s: Setup, k: nat)
    requires k <= |LiveLog(s)|
    requires forall b <- LiveLog(s) :: !Terminal(b)
    ensures
      var attempted := [StartEvent(s)] + Numbered(s.request, LiveLog(s), 1)[..k];
      WellNumbered(attempted) && Progress(attempted) && |attempted| == k + 1
  {
  }

  lemma InterruptedOrNot(s: Setup, k: nat)
    requires k <= |LiveLog(s)|
    requires
      var interrupted := EmitAll([StartEvent(s)], Numbered(s.request, LiveLog(s), 1), s.callbackOutcomes).1;
      if interrupted then k > 0 && s.callbackOutcomes(k).Interrupted?
      else forall j: nat :: 1 <= j < 1 + |LiveLog(s)| ==> !s.callbackOutcomes(j).Interrupted?
    ensures EmitAll([StartEvent(s)], Numbered(s.request, LiveLog(s), 1), s.callbackOutcomes).1 <==>
      DeliveryInterrupted(s)
  {
  }

  /** The write of a failure is hit by a cancellation: at its row, or at the document after it. */
  predicate FailureWriteCancelled(s: Setup) {
    s.persist && (s.storeOutcomes(2).Interrupts? || (s.storeOutcomes(2).Works? && s.storeOutcomes(3).Interrupts?))
  }

  lemma FailureWrite(s: Setup, error: string)
    requires Begun(s)
    ensures
      var store := Write(s, EmptyStore, StartCalls(s)).0;
      Write(s, store, FailCalls(error)).1 == CancelledError <==> FailureWriteCancelled(s)
  {
    if s.persist {
      var first := StartedBody(s.request, Query(s));
      var log := Log([first, FailedBody(error)], FailedDocument(error));
      FailInserts(error);
      LogInTwoParts(first, [FailedBody(error)], FailedDocument(error));
      assert [first] + [FailedBody(error)] == [first, FailedBody(error)];
      assert log[..2] == StartCalls(s);
      assert log[2] == FailCalls(error)[0] && log[3] == FailCalls(error)[1] && |log| == 4;
      AfterCalls([first, FailedBody(error)], FailedDocument(error), 2, s.storeOutcomes);
      var store := PerformAll(EmptyStore, StartCalls(s), s.storeOutcomes).0;
      ReachedAccepts([first, FailedBody(error)], FailedDocument(error), 2, 2);
      assert !Refused(store, log[2]);
      var (next, r) := Perform(store, log[2], s.storeOutcomes);
      assert FailCalls(error)[1..] == [log[3]];
      assert r == Ok ==> next.calls == 3 && !Refused(next, log[3]);
      JustOne(next, log[3], s.storeOutcomes);
    }
  }

  predicate RejectedAfterGraph(s: Setup) {
    Judge(s).BadRoute? || Judge(s).NoResponse?
  }

  /**
   The executions whose events are numbered wrongly: something was streamed, the failure was
   reported, and either a delivery was interrupted, so that its number is used again, or a check
   after the graph failed, which reports with the number of the next row.
   */
  ghost predicate Misnumbered(s: Setup) {
    Begun(s) && Live(s) && LiveLog(s) != [] && !FailureWriteCancelled(s) &&
      (DeliveryInterrupted(s) || RejectedAfterGraph(s))
  }

  lemma FailEvents(s: Setup, store: Store, attempted: seq<Event>, v: Verdict, sequence: nat)
    requires !v.Good? && s.callback
    ensures
      var number := if v.BadRoute? || v.NoResponse? then 1 else sequence;
      FailPhase(s, store, attempted, v, sequence).attempted ==
        if Write(s, store, FailCalls(ErrorOf(v))).1 == CancelledError then attempted
        else attempted + [Event(s.request, number, FailedBody(ErrorOf(v)))]
  {
    var number := if v.BadRoute? || v.NoResponse? then 1 else sequence;
    var k := EmitsAPrefix(attempted, [Event(s.request, number, FailedBody(ErrorOf(v)))], s.callbackOutcomes);
    assert k == 1;
  }

  lemma SuccessEvents(s: Setup, store: Store, attempted: seq<Event>, x: Execution, sequence: nat) returns (k: nat)
    requires s.callback
    ensures k <= |ClosingEvents(s, x, sequence)|
    ensures SuccessPhase(s, store, attempted, x, sequence).attempted == attempted + ClosingEvents(s, x, sequence)[..k]
    ensures SuccessPhase(s, store, attempted, x, sequence).outcome.Returned? ==> k == |ClosingEvents(s, x, sequence)|
    ensures k == 0 || Write(s, store, SuccessCalls(x)).1 == Ok
  {
    if Write(s, store, SuccessCalls(x)).1 == Ok {
      k := EmitsAPrefix(attempted, ClosingEvents(s, x, sequence), s.callbackOutcomes);
    } else {
      k := 0;
    }
  }

  lemma ClosingIsNumbered(s: Setup, attempted: seq<Event>, x: Execution, k: nat)
    requires WellNumbered(attempted) && Progress(attempted) && s.callback
    requires !Live(s) ==> |attempted| == 1
    requires k <= |ClosingEvents(s, x, |attempted|)|
    ensures WellNumbered(attempted + ClosingEvents(s, x, |attempted|)[..k])
    ensures TerminalLast(attempted + ClosingEvents(s, x, |attempted|)[..k])
  {
  }

  lemma FailureIsNumbered(attempted: seq<Event>, e: Event)
    requires WellNumbered(attempted) && Progress(attempted)
    ensures WellNumbered(attempted + [e]) <==> e.sequence == |attempted|
    ensures TerminalLast(attempted + [e])
  {
    assert (attempted + [e])[|attempted|] == e;
  }

  lemma StartIsReported(s: Setup)
    ensures Report(s, [], [StartEvent(s)]).0 == if s.callback then [StartEvent(s)] else []
  {
    if s.callback {
      var k := EmitsAPrefix([], [StartEvent(s)], s.callbackOutcomes);
      assert k == 1;
    }
  }

  /**
   In every run, cancelled or not, at most one attempted event is terminal and it is the last. The
   events carry 0, 1, 2, ... exactly when the run is not one of the misnumbered ones.
   */
  lemma CallbackNumbering(s: Setup)
    ensures TerminalLast(Executed(s).attempted)
    ensures WellNumbered(Executed(s).attempted) <==> !Misnumbered(s)
  {
    if !Acceptable(s) {
    } else if !Begun(s) {
      StartIsReported(s);
      ExecutedWhenNotBegun(s);
    } else {
      StartIsReported(s);
      ExecutedWhenBegun(s);
      var store := Write(s, EmptyStore, StartCalls(s)).0;
      if s.callback {
        NumberingWhenBegun(s, store);
      } else {
        SilentWhenBegun(s, store);
      }
    }
  }

  lemma SilentWhenBegun(s: Setup, store: Store)
    requires !s.callback
    ensures AfterStart(s, store, []).attempted == []
  {
  }

  lemma NumberingWhenBegun(s: Setup, store: Store)
    requires Begun(s) && s.callback && store == Write(s, EmptyStore, StartCalls(s)).0
    ensures
      var attempted := AfterStart(s, store, [StartEvent(s)]).attempted;
      TerminalLast(attempted) && (WellNumbered(attempted) <==> !Misnumbered(s))
  {
    var (attempted, interrupted) := StreamPhase(s, [StartEvent(s)]);
    var sequence := CallbackSequence(s, attempted, interrupted);
    var v := VerdictOf(s, interrupted);
    StreamedLog(s);
    if v.Good? {
      var k := SuccessEvents(s, store, attempted, v.execution, sequence);
      ClosingIsNumbered(s, attempted, v.execution, k);
      assert !Misnumbered(s);
    } else {
      var number := if v.BadRoute? || v.NoResponse? then 1 else sequence;
      FailureWrite(s, ErrorOf(v));
      FailEvents(s, store, attempted, v, sequence);
      FailureIsNumbered(attempted, Event(s.request, number, FailedBody(ErrorOf(v))));
      assert number != |attempted| <==> interrupted || (RejectedAfterGraph(s) && Live(s) && LiveLog(s) != []);
    }
  }

  // ---------------------------------------------------------------- what the last event says

  /** A failure of the graph or a cancellation is reported last, unless a cancellation hits its write. */
  lemma FailureIsReported(s: Setup)
    requires Begun(s) && s.callback && !FinalVerdict(s).Good?
    ensures
      var attempted := Executed(s).attempted; var n := |attempted|;
      && (forall i :: 0 <= i < n - 1 ==> !Terminal(attempted[i].body))
      && n > 0 && (Terminal(attempted[n - 1].body) <==> !FailureWriteCancelled(s))
      && (!FailureWriteCancelled(s) ==> attempted[n - 1].body == FailedBody(ErrorOf(FinalVerdict(s))))
  {
    CallbackNumbering(s);
    StartIsReported(s);
    ExecutedWhenBegun(s);
    StreamedLog(s);
    var store := Write(s, EmptyStore, StartCalls(s)).0;
    var (attempted, interrupted) := StreamPhase(s, [StartEvent(s)]);
    var v := VerdictOf(s, interrupted);
    FailureWrite(s, ErrorOf(v));
    FailEvents(s, store, attempted, v, CallbackSequence(s, attempted, interrupted));
    assert attempted[|attempted| - 1] in attempted;
  }

  /** Events of the closing part end with the completion, and only with it. */
  lemma ClosingEnds(s: Setup, x: Execution, sequence: nat)
    ensures
      var closing := ClosingEvents(s, x, sequence); var n := |closing|;
      && n > 0 && closing[n - 1].body == CompletedBody(x)
      && forall i :: 0 <= i < n - 1 ==> !Terminal(closing[i].body)
  {
  }

  /** A completion that is attempted carries the result, which is returned unless its delivery is interrupted. */
  lemma CompletionIsTheResult(s: Setup, k: nat)
    requires s.callback && k < |Executed(s).attempted| && Executed(s).attempted[k].body.kind.ExecutionCompleted?
    ensures k == |Executed(s).attempted| - 1 && FinalVerdict(s).Good?
    ensures
      var x := FinalVerdict(s).execution;
      && Executed(s).attempted[k].body == CompletedBody(x) && x.response != ""
      && Executed(s).outcome == if s.callbackOutcomes(k).Interrupted? then CancelledOut else Returned(x)
  {
    CallbackNumbering(s);
    StartIsReported(s);
    if !Begun(s) {
      ExecutedWhenNotBegun(s);
    } else {
      ExecutedWhenBegun(s);
      StreamedLog(s);
      if FinalVerdict(s).Good? {
        CompletionOfResult(s, k);
      } else {
        FailureIsReported(s);
      }
    }
  }

  lemma CompletionOfResult(s: Setup, k: nat)
    requires Begun(s) && s.callback && FinalVerdict(s).Good?
    requires k == |Executed(s).attempted| - 1 && Executed(s).attempted[k].body.kind.ExecutionCompleted?
    ensures
      var x := FinalVerdict(s).execution;
      && Executed(s).attempted[k].body == CompletedBody(x) && x.response != ""
      && Executed(s).outcome == if s.callbackOutcomes(k).Interrupted? then CancelledOut else Returned(x)
  {
    StartIsReported(s);
    ExecutedWhenBegun(s);
    StreamedLog(s);
    var store := Write(s, EmptyStore, StartCalls(s)).0;
    var (attempted, interrupted) := StreamPhase(s, [StartEvent(s)]);
    var x, sequence := FinalVerdict(s).execution, CallbackSequence(s, attempted, interrupted);
    ClosingEnds(s, x, sequence);
    ClosingDelivered(s, store, attempted, x, sequence);
  }

  /** How the closing part comes out when it gets as far as the completion. */
  lemma ClosingDelivered(s: Setup, store: Store, attempted: seq<Event>, x: Execution, sequence: nat)
    requires s.callback && Progress(attempted) && attempted != []
    requires
      var run := SuccessPhase(s, store, attempted, x, sequence);
      run.attempted != [] && run.attempted[|run.attempted| - 1].body.kind.ExecutionCompleted?
    ensures
      var run := SuccessPhase(s, store, attempted, x, sequence); var k := |run.attempted| - 1;
      && run.attempted[k].body == CompletedBody(x)
      && run.outcome == if s.callbackOutcomes(k).Interrupted? then CancelledOut else Returned(x)
  {
    var closing := ClosingEvents(s, x, sequence);
    ClosingEnds(s, x, sequence);
    assert attempted[|attempted| - 1] in attempted;
    if Write(s, store, SuccessCalls(x)).1 == Ok {
      var k := EmitsAPrefix(attempted, closing, s.callbackOutcomes);
      assert k == |closing|;
      assert closing[..k] == closing;
    }
  }

  // ---------------------------------------------------------------- when the end is reported at all

  /** Every write of the result went through. */
  predicate ResultWritten(s: Setup) {
    Write(s, Write(s, EmptyStore, StartCalls(s)).0, LaterCalls(s)).1 == Ok
  }

  /** A cancellation hits one of the events reported behind the result, before the completion. */
  ghost predicate ClosingCut(s: Setup)
    requires FinalVerdict(s).Good?
  {
    !Live(s) &&
    exists j: nat :: 1 <= j < |SuccessBodies(FinalVerdict(s).execution)| && s.callbackOutcomes(j).Interrupted?
  }

  /** How far an execution has to get for its last event to be attempted. */
  ghost predicate ReportsItsEnd(s: Setup) {
    && s.callback && Begun(s)
    && if FinalVerdict(s).Good? then ResultWritten(s) && !ClosingCut(s) else !FailureWriteCancelled(s)
  }

  predicate Attempted(events: seq<Event>, kind: WorkflowEventType) {
    exists e <- events :: e.body.kind == kind
  }

  /** The closing part gets to its completion exactly when nothing stops it before. */
  lemma ClosingGetsThere(s: Setup, store: Store, attempted: seq<Event>, x: Execution, sequence: nat)
    requires s.callback && Progress(attempted) && (!Live(s) ==> |attempted| == 1)
    ensures
      var run := SuccessPhase(s, store, attempted, x, sequence);
      && !Attempted(run.attempted, ExecutionFailed)
      && (Attempted(run.attempted, ExecutionCompleted) <==>
            && Write(s, store, SuccessCalls(x)).1 == Ok
            && (Live(s) || forall j: nat :: 1 <= j < |SuccessBodies(x)| ==> !s.callbackOutcomes(j).Interrupted?))
  {
    var closing := ClosingEvents(s, x, sequence);
    ClosingEnds(s, x, sequence);
    if Write(s, store, SuccessCalls(x)).1 == Ok {
      var k := EmitsAPrefix(attempted, closing, s.callbackOutcomes);
      PrefixCompletes(attempted, closing, k);
    }
  }

  /** A beginning of the closing part holds the completion exactly when it is all of it. */
  lemma PrefixCompletes(attempted: seq<Event>, closing: seq<Event>, k: nat)
    requires Progress(attempted) && 0 < |closing| && k <= |closing|
    requires closing[|closing| - 1].body.kind.ExecutionCompleted?
    requires forall i :: 0 <= i < |closing| - 1 ==> !Terminal(closing[i].body)
    ensures Attempted(attempted + closing[..k], ExecutionCompleted) <==> k == |closing|
    ensures !Attempted(attempted + closing[..k], ExecutionFailed)
  {
    var all := attempted + closing[..k];
    if k == |closing| {
      assert all[|all| - 1] == closing[k - 1] && all[|all| - 1] in all;
    }
    forall e | e in all
      ensures !e.body.kind.ExecutionFailed? && (k < |closing| ==> !Terminal(e.body))
    {
      if e !in attempted {
        var i :| 0 <= i < k && closing[i] == e;
      }
    }
  }

  /** Of events of which only the last may be terminal, the last says how they end. */
  lemma LastSays(events: seq<Event>, kind: WorkflowEventType)
    requires events != [] && forall i :: 0 <= i < |events| - 1 ==> !Terminal(events[i].body)
    requires kind.ExecutionCompleted? || kind.ExecutionFailed?
    ensures Attempted(events, kind) <==> events[|events| - 1].body.kind == kind
  {
    assert events[|events| - 1] in events;
  }

  lemma FailureAttempted(s: Setup)
    requires Begun(s) && s.callback && !FinalVerdict(s).Good?
    ensures Attempted(Executed(s).attempted, ExecutionFailed) <==> !FailureWriteCancelled(s)
    ensures !Attempted(Executed(s).attempted, ExecutionCompleted)
  {
    FailureIsReported(s);
    LastSays(Executed(s).attempted, ExecutionFailed);
    LastSays(Executed(s).attempted, ExecutionCompleted);
  }

  lemma CompletionAttempted(s: Setup)
    requires Begun(s) && s.callback && FinalVerdict(s).Good?
    ensures !Attempted(Executed(s).attempted, ExecutionFailed)
    ensures Attempted(Executed(s).attempted, ExecutionCompleted) <==> ResultWritten(s) && !ClosingCut(s)
  {
    StartIsReported(s);
    ExecutedWhenBegun(s);
    StreamedLog(s);
    var store := Write(s, EmptyStore, StartCalls(s)).0;
    var (attempted, interrupted) := StreamPhase(s, [StartEvent(s)]);
    var x, sequence := FinalVerdict(s).execution, CallbackSequence(s, attempted, interrupted);
    ClosingGetsThere(s, store, attempted, x, sequence);
  }

  /**
   For every execution, whatever fails or is cancelled where: its failure is reported exactly when it
   had begun, no result was accepted, and no cancellation hit the write of the failure; its completion
   exactly when it had begun, a result was accepted and written, and no cancellation hit a delivery
   before it. In all other cases it ends without a word.
   */
  lemma EndIsReported(s: Setup)
    ensures Attempted(Executed(s).attempted, ExecutionFailed) <==>
      s.callback && Begun(s) && !FinalVerdict(s).Good? && !FailureWriteCancelled(s)
    ensures Attempted(Executed(s).attempted, ExecutionCompleted) <==>
      s.callback && Begun(s) && FinalVerdict(s).Good? && ResultWritten(s) && !ClosingCut(s)
  {
    if !Acceptable(s) {
    } else if !Begun(s) {
      ExecutedWhenNotBegun(s);
      StartIsReported(s);
    } else if !s.callback {
      ExecutedWhenBegun(s);
      SilentWhenBegun(s, Write(s, EmptyStore, StartCalls(s)).0);
    } else if FinalVerdict(s).Good? {
      CompletionAttempted(s);
    } else {
      FailureAttempted(s);
    }
  }

  // ---------------------------------------------------------------- the two ways numbering fails

  /** A run that streams one routed state without results, with nothing persisted. */
  ghost predicate OneRoutedState(s: Setup, x: GraphState) {
    && Acceptable(s) && !s.persist && Live(s)
    && s.graph == Graph([State(x)], Finishes) && x.route.Some? && x.results == []
  }

  lemma OneRoutedStateStreams(s: Setup, x: GraphState)
    requires OneRoutedState(s, x) && !s.callbackOutcomes(0).Interrupted?
    ensures Begun(s) && LiveLog(s) == [RoutingBody(x.route.value, x.routeReason), AgentStartedBody(x.route.value)]
  {
    var items := s.graph.items;
    assert items[1..] == [] && items[0] == State(x);
    assert LiveBodies(items[1..], true, 0) == [];
    assert DictResults(x.results) == [];
    assert LiveBodies(items, false, 0) == NewBodies(x, false, 0) + [];
    NothingBegins(s);
  }

  lemma NothingBegins(s: Setup)
    requires Acceptable(s) && !s.persist && !s.callbackOutcomes(0).Interrupted?
    ensures Begun(s)
  {
    var k := EmitsAPrefix([], [StartEvent(s)], s.callbackOutcomes);
  }

  /** A cancellation inside the delivery of event 1 makes the failure event number 1 as well. */
  lemma InterruptedDeliveryRepeatsItsNumber(s: Setup, x: GraphState)
    requires OneRoutedState(s, x)
    requires s.callbackOutcomes(0).Delivered? && s.callbackOutcomes(1).Interrupted?
    ensures Misnumbered(s) && !WellNumbered(Executed(s).attempted)
  {
    OneRoutedStateStreams(s, x);
    assert DeliveryInterrupted(s);
    CallbackNumbering(s);
  }

  lemma BlankAnswerIsRejected(s: Setup, x: GraphState)
    requires s.graph == Graph([State(x)], Finishes) && x.route.Some? && x.finalResponse == Missing
    ensures Judge(s) == NoResponse
  {
    assert s.graph.items[0] == State(x);
    assert ResponseText(x.finalResponse) == [] && Text.Strip([]) == [];
  }

  /** A blank answer after a streamed route reports its failure with number 1 again. */
  lemma BlankAnswerRepeatsANumber(s: Setup, x: GraphState)
    requires OneRoutedState(s, x) && NeverInterrupted(s)
    requires x.finalResponse == Missing
    ensures Misnumbered(s) && !WellNumbered(Executed(s).attempted)
  {
    OneRoutedStateStreams(s, x);
    BlankAnswerIsRejected(s, x);
    CallbackNumbering(s);
  }

  const AlwaysDelivered: nat -> CallbackOutcome := (n: nat) => Delivered

  // ---------------------------------------------------------------- an answer that is missing

  /** The graph gave an answer with something in it. */
  predicate HasAnswer(f: Field) {
    f.Given? && !Text.Blank(f.text)
  }

  lemma NoneIsVisible()
    ensures Text.Strip(ResponseText(Null)) == "None"
  {
    assert ResponseText(Null) == "None";
    Text.StripFixed("None");
  }

  /** A finished graph that sets the route is turned down exactly for an answer that is missing or blank. */
  lemma NoResponseExactly(s: Setup, x: GraphState)
    requires s.graph.ending.Finishes? && LastState(s.graph.items) == Some(x) && x.route.Some?
    ensures Judge(s).NoResponse? <==>
      x.finalResponse.Missing? || (x.finalResponse.Given? && Text.Blank(x.finalResponse.text))
    ensures !Judge(s).NoResponse? ==> Judge(s) == Good(ExecutionOf(s, x))
  {
    match x.finalResponse {
      case Missing => assert Text.Strip("") == "";
      case Null => NoneIsVisible();
      case Given(text) => Text.StripBlank(text);
    }
  }

  /** A null answer passes the check, as the word None. */
  lemma NullAnswerPasses(s: Setup, x: GraphState)
    requires s.graph == Graph([State(x)], Finishes) && x.route.Some? && x.finalResponse == Null
    ensures Judge(s).Good? && Judge(s).execution.response == "None"
  {
    assert s.graph.items[0] == State(x);
    NoResponseExactly(s, x);
    NoneIsVisible();
  }

  /** A finished graph without an answer gets past the check exactly when its answer is null. */
  lemma AnsweredUnlessNull(s: Setup)
    requires Judge(s).Good?
    ensures LastState(s.graph.items).Some?
    ensures
      var answer := LastState(s.graph.items).value.finalResponse;
      && (!HasAnswer(answer) <==> answer.Null?)
      && Judge(s).execution.response == if answer.Null? then "None" else Text.Strip(answer.text)
  {
    var x := LastState(s.graph.items).value;
    NoResponseExactly(s, x);
    NoneIsVisible();
  }

  /** An execution returns without an answer of the graph exactly when that answer was null. */
  lemma ReturnedUnlessNull(s: Setup)
    requires Executed(s).outcome.Returned?
    ensures LastState(s.graph.items).Some?
    ensures
      var answer := LastState(s.graph.items).value.finalResponse;
      && (!HasAnswer(answer) <==> answer.Null?)
      && Executed(s).outcome.execution.response == if answer.Null? then "None" else Text.Strip(answer.text)
  {
    StoreInTwoParts(s);
    AnsweredUnlessNull(s);
  }

  // ---------------------------------------------------------------- a result that cannot be written

  lemma {:induction false} DocumentsStay(store: Store, calls: seq<StoreCall>, outcomes: nat -> StoreOutcome)
    requires store.document.Some?
    ensures PerformAll(store, calls, outcomes).0.document.Some?
    decreases |calls|
  {
    if calls != [] {
      var (t, r) := Perform(store, calls[0], outcomes);
      DocumentsStay(t, calls[1..], outcomes);
    }
  }

  lemma MessagesDiffer()
    ensures RESULT_NOT_PERSISTED !in {CANCELLED, GRAPH_FAILED, INVALID_ROUTE, NO_RESPONSE, START_NOT_PERSISTED}
  {
    assert |RESULT_NOT_PERSISTED| == 47 && |CANCELLED| == 32 && |GRAPH_FAILED| == 35;
    assert |INVALID_ROUTE| == 48 && |NO_RESPONSE| == 49 && |START_NOT_PERSISTED| == 46;
  }

  lemma OnlyResultsFail(s: Setup, store: Store, attempted: seq<Event>)
    requires AfterStart(s, store, attempted).outcome == Failed(RESULT_NOT_PERSISTED)
    ensures FinalVerdictAfter(s, attempted).Good?
    ensures Write(s, store, SuccessCalls(FinalVerdictAfter(s, attempted).execution)).1 == RepositoryError
    ensures AfterStart(s, store, attempted).attempted == StreamPhase(s, attempted).0
  {
    MessagesDiffer();
  }

  function FinalVerdictAfter(s: Setup, attempted: seq<Event>): Verdict {
    VerdictOf(s, StreamPhase(s, attempted).1)
  }

  /** After the calls, the last document is there exactly when all were made and the last took effect. */
  lemma LastDocumentExactly(s: Setup)
    ensures
      var store := PerformAll(EmptyStore, AllCalls(s), s.storeOutcomes).0;
      store.document == Some(LastDocument(s)) <==>
        store.calls == |AllCalls(s)| && TakesEffect(s.storeOutcomes(|AllCalls(s)| - 1))
  {
    var log := AllCalls(s);
    var n := |log| - 1;
    assert log[..|log|] == log && log == log[..n] + [log[n]];
    AfterCalls(Script(s), LastDocument(s), |log|, s.storeOutcomes);
    AfterCalls(Script(s), LastDocument(s), n, s.storeOutcomes);
    PerformSplit(EmptyStore, log[..n], [log[n]], s.storeOutcomes);
    JustOne(PerformAll(EmptyStore, log[..n], s.storeOutcomes).0, log[n], s.storeOutcomes);
  }

  /**
   The document of a persisted execution that had begun, however it came out: it has its final state
   exactly when every call was made and the last of them, the replacement, took effect. Otherwise it
   says running.
   */
  lemma DocumentIsFinalExactly(s: Setup)
    requires Begun(s) && s.persist
    ensures
      var store := Executed(s).store;
      && (store.document == Some(LastDocument(s)) <==>
            store.calls == |AllCalls(s)| && TakesEffect(s.storeOutcomes(|AllCalls(s)| - 1)))
      && (store.document != Some(LastDocument(s)) ==> store.document == Some(RunningDocument))
  {
    var start := Write(s, EmptyStore, StartCalls(s)).0;
    StoreInTwoParts(s);
    CallsInTwoParts(s);
    PerformSplit(EmptyStore, StartCalls(s), LaterCalls(s), s.storeOutcomes);
    LastDocumentExactly(s);
    HistoryIsAScriptPrefix(s, |AllCalls(s)|);
    assert AllCalls(s)[..|AllCalls(s)|] == AllCalls(s) && AllCalls(s)[..2] == StartCalls(s);
    AfterCalls(Script(s), LastDocument(s), 2, s.storeOutcomes);
    DocumentsStay(start, LaterCalls(s), s.storeOutcomes);
  }

  /**
   An execution whose result could not be written reports no terminal event. Its document says
   completed exactly when the failing call was the replacement itself, the last of all calls, and it
   took effect; otherwise it stays running.
   */
  lemma UnwrittenResult(s: Setup)
    requires Executed(s).outcome == Failed(RESULT_NOT_PERSISTED)
    ensures Begun(s) && s.persist && FinalVerdict(s).Good?
    ensures Progress(Executed(s).attempted)
    ensures
      var store := Executed(s).store;
      && (store.document == Some(LastDocument(s)) <==>
            store.calls == |AllCalls(s)| && s.storeOutcomes(|AllCalls(s)| - 1) == Fails(true))
      && (store.document != Some(LastDocument(s)) ==> store.document == Some(RunningDocument))
  {
    MessagesDiffer();
    StartIsReported(s);
    if !Begun(s) {
      ExecutedWhenNotBegun(s);
    } else {
      ExecutedWhenBegun(s);
      var start := Write(s, EmptyStore, StartCalls(s)).0;
      OnlyResultsFail(s, start, Report(s, [], [StartEvent(s)]).0);
      if s.callback {
        StreamedLog(s);
      }
      FailingCall(s, start);
      DocumentIsFinalExactly(s);
    }
  }

  /** When the last call is made and a repository error comes out, it is that call that failed. */
  lemma FailingCall(s: Setup, start: Store)
    requires Begun(s) && s.persist && start == Write(s, EmptyStore, StartCalls(s)).0
    requires Write(s, start, LaterCalls(s)).1 == RepositoryError
    ensures Executed(s).store.calls == |AllCalls(s)| ==> s.storeOutcomes(|AllCalls(s)| - 1).Fails?
  {
    StoreInTwoParts(s);
    CallsInTwoParts(s);
    PerformSplit(EmptyStore, StartCalls(s), LaterCalls(s), s.storeOutcomes);
    assert AllCalls(s)[..|AllCalls(s)|] == AllCalls(s);
    AfterCalls(Script(s), LastDocument(s), |AllCalls(s)|, s.storeOutcomes);
  }

  /** Five calls, the last of which fails: whether it took effect decides what the document says. */
  lemma UnwrittenEitherWay(s: Setup, x: GraphState, applied: bool)
    requires Acceptable(s) && s.persist && !s.callback && s.graph == Graph([State(x)], Finishes)
    requires x.route.Some? && x.results == [] && HasAnswer(x.finalResponse)
    requires forall k: nat :: s.storeOutcomes(k) == if k == 4 then Fails(applied) else Works
    ensures Executed(s).outcome == Failed(RESULT_NOT_PERSISTED)
    ensures Executed(s).store.document == Some(if applied then LastDocument(s) else RunningDocument)
  {
    assert s.graph.items[0] == State(x);
    NoResponseExactly(s, x);
    assert DictResults(x.results) == [] && FinalVerdict(s) == Good(ExecutionOf(s, x));
    assert |Script(s)| == 3 && |AllCalls(s)| == 5;
    FifthCall(s);
    CallsInTwoParts(s);
    PerformSplit(EmptyStore, StartCalls(s), LaterCalls(s), s.storeOutcomes);
    ExecutedWhenBegun(s);
    UnwrittenResult(s);
    StoreInTwoParts(s);
  }

  lemma FifthCall(s: Setup)
    requires |Script(s)| == 3 && |AllCalls(s)| == 5 && !s.storeOutcomes(4).Works?
    requires forall k: nat | k < 4 :: s.storeOutcomes(k).Works?
    ensures PerformAll(EmptyStore, StartCalls(s), s.storeOutcomes).1 == Ok
    ensures
      var (store, r) := PerformAll(EmptyStore, AllCalls(s), s.storeOutcomes);
      r == ResultOf(s.storeOutcomes(4)) && store.calls == 5
  {
    var log := AllCalls(s);
    CallsInTwoParts(s);
    assert log[..2] == StartCalls(s) && log == log[..4] + [log[4]];
    AllWork(s, 2);
    AllWork(s, 4);
    PerformSplit(EmptyStore, log[..4], [log[4]], s.storeOutcomes);
    JustOne(PerformAll(EmptyStore, log[..4], s.storeOutcomes).0, log[4], s.storeOutcomes);
  }

  lemma AllWork(s: Setup, n: nat)
    requires n <= |AllCalls(s)| && forall k: nat | k < n :: s.storeOutcomes(k).Works?
    ensures
      var (store, r) := PerformAll(EmptyStore, AllCalls(s)[..n], s.storeOutcomes);
      r == Ok && store.calls == n
  {
    AfterCalls(Script(s), LastDocument(s), n, s.storeOutcomes);
  }

  // ---------------------------------------------------------------- one cancellation, and no end reported

  /** The first call is cancelled. */
  lemma CancelledAtTheStart(s: Setup)
    requires Acceptable(s) && s.persist && s.storeOutcomes(0) == Interrupts(false)
    requires forall k: nat :: k > 0 ==> s.storeOutcomes(k).Works?
    ensures Executed(s) == Run(Store([], None, 1), [], CancelledOut) && !FailureWriteCancelled(s)
  {
  }

  /** The replacement behind an accepted result is cancelled, with or without effect. */
  lemma CancelledResult(s: Setup, x: GraphState, applied: bool)
    requires Acceptable(s) && s.persist && s.graph == Graph([State(x)], Finishes)
    requires x.route.Some? && x.results == [] && HasAnswer(x.finalResponse)
    requires forall k: nat :: s.storeOutcomes(k) == if k == 4 then Interrupts(applied) else Works
    requires forall k: nat :: s.callbackOutcomes(k).Delivered?
    ensures Executed(s).outcome == CancelledOut && !FailureWriteCancelled(s)
    ensures !Attempted(Executed(s).attempted, ExecutionFailed) && !Attempted(Executed(s).attempted, ExecutionCompleted)
    ensures Executed(s).store.document == Some(if applied then LastDocument(s) else RunningDocument)
  {
    AcceptedResult(s, x);
    NothingInterrupted(s, [], [StartEvent(s)]);
    FifthCall(s);
    CallsInTwoParts(s);
    PerformSplit(EmptyStore, StartCalls(s), LaterCalls(s), s.storeOutcomes);
    StoreInTwoParts(s);
    ExecutedWhenBegun(s);
    DocumentIsFinalExactly(s);
    EndIsReported(s);
  }

  lemma AcceptedResult(s: Setup, x: GraphState)
    requires s.graph == Graph([State(x)], Finishes) && x.route.Some? && x.results == [] && HasAnswer(x.finalResponse)
    requires forall k: nat :: !s.callbackOutcomes(k).Interrupted?
    ensures FinalVerdict(s) == Good(ExecutionOf(s, x))
    ensures |Script(s)| == 3 && |AllCalls(s)| == 5
  {
    assert s.graph.items[0] == State(x) && DictResults(x.results) == [];
    NoResponseExactly(s, x);
    NothingInterrupted(s, [], [StartEvent(s)]);
    var attempted := Report(s, [], [StartEvent(s)]).0;
    NothingInterrupted(s, attempted, Numbered(s.request, LiveLog(s), 1));
  }

  /** Nothing is persisted; the first event behind the accepted result is cancelled. */
  lemma CancelledReport(s: Setup, x: GraphState)
    requires Acceptable(s) && !s.persist && s.callback && !s.streams && s.graph == Graph([State(x)], Finishes)
    requires x.route.Some? && x.results == [] && HasAnswer(x.finalResponse)
    requires forall k: nat :: s.callbackOutcomes(k) == if k == 1 then Interrupted else Delivered
    ensures Executed(s).outcome == CancelledOut && !FailureWriteCancelled(s)
    ensures !Attempted(Executed(s).attempted, ExecutionFailed) && !Attempted(Executed(s).attempted, ExecutionCompleted)
  {
    NothingBegins(s);
    assert s.graph.items[0] == State(x) && DictResults(x.results) == [];
    NoResponseExactly(s, x);
    assert FinalVerdict(s) == Good(ExecutionOf(s, x));
    ExecutedWhenBegun(s);
    EndIsReported(s);
    assert |SuccessBodies(ExecutionOf(s, x))| == 2 && s.callbackOutcomes(1).Interrupted?;
    assert ClosingCut(s);
    StartIsReported(s);
    var k := EmitsAPrefix([StartEvent(s)], ClosingEvents(s, ExecutionOf(s, x), 1), s.callbackOutcomes);
  }

  // ---------------------------------------------------------------- the callback changes nothing

  ghost predicate NeverInterrupted(s: Setup) {
    forall n: nat :: !s.callbackOutcomes(n).Interrupted?
  }

  /** The same execution with nobody listening. */
  function Silent(s: Setup): Setup {
    s.(callback := false, callbackOutcomes := AlwaysDelivered, streams := false)
  }

  lemma NothingInterrupted(s: Setup, attempted: seq<Event>, events: seq<Event>)
    requires NeverInterrupted(s)
    ensures !Report(s, attempted, events).1
    ensures s.callback ==> Report(s, attempted, events).0 == attempted + events
  {
    var k := EmitsAPrefix(attempted, events, s.callbackOutcomes);
    assert events[..|events|] == events;
  }

  lemma PhasesAreSilent(s: Setup, store: Store, attempted: seq<Event>, v: Verdict, sequence: nat)
    requires NeverInterrupted(s)
    ensures v.Good? ==>
      SuccessPhase(s, store, attempted, v.execution, sequence).(attempted := []) ==
        SuccessPhase(Silent(s), store, [], v.execution, 1).(attempted := [])
    ensures !v.Good? ==>
      FailPhase(s, store, attempted, v, sequence).(attempted := []) ==
        FailPhase(Silent(s), store, [], v, 1).(attempted := [])
  {
    if v.Good? {
      NothingInterrupted(s, attempted, ClosingEvents(s, v.execution, sequence));
    } else {
      var number := if v.BadRoute? || v.NoResponse? then 1 else sequence;
      NothingInterrupted(s, attempted, [Event(s.request, number, FailedBody(ErrorOf(v)))]);
    }
  }

  lemma SilentExecution(s: Setup)
    requires NeverInterrupted(s)
    ensures Executed(s).(attempted := []) == Executed(Silent(s)).(attempted := [])
  {
    var t := Silent(s);
    if Acceptable(s) {
      NothingInterrupted(s, [], [StartEvent(s)]);
      var start := Write(s, EmptyStore, StartCalls(s));
      assert start == Write(t, EmptyStore, StartCalls(t));
      if start.1 == Ok {
        var attempted := Report(s, [], [StartEvent(s)]).0;
        ExecutedWhenBegun(s);
        ExecutedWhenBegun(t);
        LaterIsSilent(s, start.0, attempted);
      }
    }
  }

  lemma LaterIsSilent(s: Setup, store: Store, attempted: seq<Event>)
    requires NeverInterrupted(s)
    ensures AfterStart(s, store, attempted).(attempted := []) == AfterStart(Silent(s), store, []).(attempted := [])
  {
    NothingInterrupted(s, attempted, Numbered(s.request, LiveLog(s), 1));
    var (later, interrupted) := StreamPhase(s, attempted);
    assert !interrupted && VerdictOf(s, interrupted) == Judge(s) == Judge(Silent(s));
    PhasesAreSilent(s, store, later, Judge(s), CallbackSequence(s, later, false));
  }

  /**
   Two runs over the same request, the same stores and the same graph behaviour leave the same rows
   and document and come to the same outcome, whichever deliveries raise, and whether or not there
   is a callback at all and the graph is streamed.
   */
  lemma CallbackNonInterference(s: Setup, t: Setup)
    requires NeverInterrupted(s) && NeverInterrupted(t)
    requires t == s.(callback := t.callback, callbackOutcomes := t.callbackOutcomes, streams := t.streams)
    ensures Executed(s).store == Executed(t).store
    ensures Executed(s).outcome == Executed(t).outcome
  {
    SilentExecution(s);
    SilentExecution(t);
    assert Silent(s) == Silent(t);
  }
}
