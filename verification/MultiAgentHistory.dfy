/**
 What the repositories hold of one execution, after any number of its calls and however each call
 comes out: the history is a prefix of one of two scripts, its rows are numbered from 0, and the
 document says completed or failed only when the history says so in full.
 */
module MultiAgentHistory {
  import opened MultiAgent
  import opened Options
  import opened Protocol

  /** The verdict the execution reaches, if it gets that far. */
  function FinalVerdict(s: Setup): Verdict {
    VerdictOf(s, StreamPhase(s, Report(s, [], [StartEvent(s)]).0).1)
  }

  /** The whole history: started and failed, or started, routing, the results and completed. */
  function Script(s: Setup): seq<Body> {
    var v := FinalVerdict(s);
    [StartedBody(s.request, Query(s))] + if v.Good? then SuccessBodies(v.execution) else [FailedBody(ErrorOf(v))]
  }

  function LastDocument(s: Setup): Document {
    var v := FinalVerdict(s);
    if v.Good? then CompletedDocument(v.execution) else FailedDocument(ErrorOf(v))
  }

  function Rows(bodies: seq<Body>): seq<Row> {
    seq(|bodies|, i requires 0 <= i < |bodies| => Row(i, bodies[i]))
  }

  /** Every call an execution can make, in order. */
  function AllCalls(s: Setup): seq<StoreCall> {
    Log(Script(s), LastDocument(s))
  }

  function Log(bodies: seq<Body>, last: Document): seq<StoreCall> {
    [CreateDocument(RunningDocument)] + Inserts(bodies, 0) + [ReplaceDocument(last)]
  }

  /** The store after the first n calls have taken effect. */
  function Reached(bodies: seq<Body>, last: Document, n: nat, calls: nat): Store
    requires n <= |bodies| + 2
  {
    if n == 0 then Store([], None, calls)
    else if n <= |bodies| + 1 then Store(Rows(bodies)[..n - 1], Some(RunningDocument), calls)
    else Store(Rows(bodies), Some(last), calls)
  }

  lemma ReachedAccepts(bodies: seq<Body>, last: Document, n: nat, calls: nat)
    requires n < |bodies| + 2
    ensures !Refused(Reached(bodies, last, n, calls), Log(bodies, last)[n])
    ensures Apply(Reached(bodies, last, n, calls), Log(bodies, last)[n]) == Reached(bodies, last, n + 1, calls)
  {
    var rows := Rows(bodies);
    if 0 < n <= |bodies| {
      assert Log(bodies, last)[n] == InsertRow(rows[n - 1]);
      assert rows[..n - 1] + [rows[n - 1]] == rows[..n];
    } else if n == |bodies| + 1 {
      assert rows[..n - 1] == rows;
    }
  }

  predicate TakesEffect(outcome: StoreOutcome) {
    outcome.Works? || outcome.applied
  }

  function ResultOf(outcome: StoreOutcome): CallResult {
    match outcome
    case Works => Ok
    case Fails(_) => RepositoryError
    case Interrupts(_) => CancelledError
  }

  /** One call of a log is never refused: its outcome alone says whether it takes effect and what it gives. */
  lemma OneCall(bodies: seq<Body>, last: Document, n: nat, calls: nat, outcomes: nat -> StoreOutcome)
    requires n < |bodies| + 2
    ensures
      var done := if TakesEffect(outcomes(calls)) then n + 1 else n;
      Perform(Reached(bodies, last, n, calls), Log(bodies, last)[n], outcomes) ==
        (Reached(bodies, last, done, calls + 1), ResultOf(outcomes(calls)))
  {
    ReachedAccepts(bodies, last, n, calls);
    var before, call := Reached(bodies, last, n, calls), Log(bodies, last)[n];
    assert Apply(before.(calls := calls + 1), call) == Apply(before, call).(calls := calls + 1);
    assert Refused(before.(calls := calls + 1), call) == Refused(before, call);
  }

  /** How many of the calls took effect when calls of them were made, the last with this result. */
  function Done(calls: nat, r: CallResult, outcomes: nat -> StoreOutcome): nat {
    if r == Ok || calls == 0 || TakesEffect(outcomes(calls - 1)) then calls else calls - 1
  }

  /**
   Whatever the outcomes, the store is what the calls made leave: all of them, or all but the last
   when that one failed without effect.
   */
  lemma {:induction false} AfterCalls(bodies: seq<Body>, last: Document, n: nat, outcomes: nat -> StoreOutcome)
    requires n <= |bodies| + 2
    ensures
      var (store, r) := PerformAll(EmptyStore, Log(bodies, last)[..n], outcomes);
      && store.calls <= n && store == Reached(bodies, last, Done(store.calls, r, outcomes), store.calls)
      && (if r == Ok then store.calls == n else store.calls > 0 && r == ResultOf(outcomes(store.calls - 1)))
  {
    var log := Log(bodies, last);
    if n > 0 {
      AfterCalls(bodies, last, n - 1, outcomes);
      assert log[..n] == log[..n - 1] + [log[n - 1]];
      PerformSplit(EmptyStore, log[..n - 1], [log[n - 1]], outcomes);
      var (before, r) := PerformAll(EmptyStore, log[..n - 1], outcomes);
      if r == Ok {
        JustOne(before, log[n - 1], outcomes);
        OneCall(bodies, last, n - 1, before.calls, outcomes);
      }
    }
  }

  lemma JustOne(store: Store, c: StoreCall, outcomes: nat -> StoreOutcome)
    ensures PerformAll(store, [c], outcomes) == Perform(store, c, outcomes)
  {
    assert [c][1..] == [];
  }

  /** The calls after the start. */
  function LaterCalls(s: Setup): seq<StoreCall> {
    var v := FinalVerdict(s);
    if v.Good? then SuccessCalls(v.execution) else FailCalls(ErrorOf(v))
  }

  /** The start was written and its event was not interrupted. */
  predicate Begun(s: Setup) {
    Acceptable(s) && Write(s, EmptyStore, StartCalls(s)).1 == Ok && !Report(s, [], [StartEvent(s)]).1
  }

  lemma LogInTwoParts(first: Body, rest: seq<Body>, last: Document)
    ensures Log([first] + rest, last) ==
      [CreateDocument(RunningDocument), InsertRow(Row(0, first))] + (Inserts(rest, 1) + [ReplaceDocument(last)])
  {
    InsertsSplit([first], rest, 0);
    assert Inserts([first], 0) == [InsertRow(Row(0, first))];
  }

  lemma CallsInTwoParts(s: Setup)
    ensures AllCalls(s) == StartCalls(s) + LaterCalls(s)
  {
    var v := FinalVerdict(s);
    if v.Good? {
      LogInTwoParts(StartedBody(s.request, Query(s)), SuccessBodies(v.execution), LastDocument(s));
    } else {
      FailInserts(ErrorOf(v));
      LogInTwoParts(StartedBody(s.request, Query(s)), [FailedBody(ErrorOf(v))], LastDocument(s));
    }
  }

  lemma FailInserts(error: string)
    ensures FailCalls(error) == Inserts([FailedBody(error)], 1) + [ReplaceDocument(FailedDocument(error))]
  {
  }

  lemma SuccessPhaseWrites(s: Setup, store: Store, attempted: seq<Event>, x: Execution, sequence: nat)
    ensures
      var run := SuccessPhase(s, store, attempted, x, sequence);
      var (written, r) := Write(s, store, SuccessCalls(x));
      run.store == written && (run.outcome.Returned? ==> r == Ok && run.outcome == Returned(x))
  {
  }

  lemma FailPhaseWrites(s: Setup, store: Store, attempted: seq<Event>, v: Verdict, sequence: nat)
    requires !v.Good?
    ensures
      var run := FailPhase(s, store, attempted, v, sequence);
      run.store == Write(s, store, FailCalls(ErrorOf(v))).0 && !run.outcome.Returned?
  {
  }

  /** The part of the execution after a start that was written and reported. */
  lemma LaterParts(s: Setup, store: Store, attempted: seq<Event>)
    requires attempted == Report(s, [], [StartEvent(s)]).0
    ensures
      var run := AfterStart(s, store, attempted);
      var (written, r) := Write(s, store, LaterCalls(s));
      run.store == written && (run.outcome.Returned? ==> r == Ok && FinalVerdict(s) == Good(run.outcome.execution))
  {
    var (later, interrupted) := StreamPhase(s, attempted);
    var sequence := CallbackSequence(s, later, interrupted);
    var v := VerdictOf(s, interrupted);
    assert v == FinalVerdict(s);
    if v.Good? {
      SuccessPhaseWrites(s, store, later, v.execution, sequence);
    } else {
      FailPhaseWrites(s, store, later, v, sequence);
    }
  }

  /** An execution is its start, and the later part when the start went well. */
  lemma ExecutedWhenBegun(s: Setup)
    requires Begun(s)
    ensures Executed(s) == AfterStart(s, Write(s, EmptyStore, StartCalls(s)).0, Report(s, [], [StartEvent(s)]).0)
  {
  }

  lemma ExecutedWhenNotBegun(s: Setup)
    requires Acceptable(s) && !Begun(s)
    ensures
      var (store, r) := Write(s, EmptyStore, StartCalls(s));
      && Executed(s).store == store && !Executed(s).outcome.Returned?
      && Executed(s).attempted == if r == Ok then Report(s, [], [StartEvent(s)]).0 else []
  {
  }

  lemma StoreInTwoParts(s: Setup)
    requires Acceptable(s)
    ensures
      var start := Write(s, EmptyStore, StartCalls(s)).0;
      Executed(s).store == if Begun(s) then Write(s, start, LaterCalls(s)).0 else start
    ensures Executed(s).outcome.Returned? ==>
      Begun(s) && Write(s, Write(s, EmptyStore, StartCalls(s)).0, LaterCalls(s)).1 == Ok
    ensures Executed(s).outcome.Returned? ==> FinalVerdict(s) == Good(Executed(s).outcome.execution)
  {
    if !Begun(s) {
      ExecutedWhenNotBegun(s);
    } else {
      ExecutedWhenBegun(s);
      LaterParts(s, Write(s, EmptyStore, StartCalls(s)).0, Report(s, [], [StartEvent(s)]).0);
    }
  }

  /** An execution makes the calls of its script, in order, up to the first that does not work. */
  lemma StoreIsScripted(s: Setup) returns (n: nat)
    requires s.persist && Acceptable(s)
    ensures n <= |AllCalls(s)|
    ensures Executed(s).store == PerformAll(EmptyStore, AllCalls(s)[..n], s.storeOutcomes).0
    ensures Executed(s).outcome.Returned? ==>
      n == |AllCalls(s)| && PerformAll(EmptyStore, AllCalls(s), s.storeOutcomes).1 == Ok
  {
    StoreInTwoParts(s);
    CallsInTwoParts(s);
    PerformSplit(EmptyStore, StartCalls(s), LaterCalls(s), s.storeOutcomes);
    n := if Begun(s) then |AllCalls(s)| else |StartCalls(s)|;
    assert AllCalls(s)[..|StartCalls(s)|] == StartCalls(s);
    assert AllCalls(s)[..|AllCalls(s)|] == AllCalls(s);
  }

  ghost predicate Consistent(s: Setup, store: Store) {
    && store.rows <= Rows(Script(s))
    && (store.document.None? ==> store.rows == [])
    && (store.document.Some? && !store.document.value.RunningDocument? ==>
          store.document.value == LastDocument(s) && store.rows == Rows(Script(s)))
  }

  /**
   After any number of calls, whichever of them failed and whether or not a failed one took effect:
   the history is a prefix of the script with sequences 0, 1, ...; the document is completed only
   when the history runs to its completed row, and failed only when it is started and failed. No
   call is ever refused by the stores, so the key of the history is never violated.
   */
  lemma HistoryIsAScriptPrefix(s: Setup, n: nat)
    requires n <= |AllCalls(s)|
    ensures
      var (store, r) := PerformAll(EmptyStore, AllCalls(s)[..n], s.storeOutcomes);
      && Consistent(s, store)
      && (forall i :: 0 <= i < |store.rows| ==> store.rows[i].sequence == i)
      && (r == Ok && n < |AllCalls(s)| ==> !Refused(store, AllCalls(s)[n]))
  {
    AfterCalls(Script(s), LastDocument(s), n, s.storeOutcomes);
    var (store, r) := PerformAll(EmptyStore, AllCalls(s)[..n], s.storeOutcomes);
    assert Rows(Script(s))[..|Script(s)|] == Rows(Script(s));
    if r == Ok && n < |AllCalls(s)| {
      ReachedAccepts(Script(s), LastDocument(s), n, store.calls);
    }
  }

  /** Once the document is completed or failed, later calls leave it as it is. */
  lemma DocumentSettlesOnce(s: Setup, n: nat, m: nat)
    requires n <= m <= |AllCalls(s)|
    requires
      var document := PerformAll(EmptyStore, AllCalls(s)[..n], s.storeOutcomes).0.document;
      document.Some? && !document.value.RunningDocument?
    ensures PerformAll(EmptyStore, AllCalls(s)[..m], s.storeOutcomes).0 ==
      PerformAll(EmptyStore, AllCalls(s)[..n], s.storeOutcomes).0
  {
    AfterCalls(Script(s), LastDocument(s), n, s.storeOutcomes);
    assert n == m;
  }

  /** The history of a finished execution: consistent, and complete when it returned. */
  lemma ExecutionIsConsistent(s: Setup)
    requires s.persist
    ensures Consistent(s, Executed(s).store)
    ensures forall i :: 0 <= i < |Executed(s).store.rows| ==> Executed(s).store.rows[i].sequence == i
    ensures Executed(s).outcome.Returned? ==>
              && FinalVerdict(s) == Good(Executed(s).outcome.execution)
              && Executed(s).store.rows == Rows(Script(s))
              && Executed(s).store.document == Some(CompletedDocument(Executed(s).outcome.execution))
  {
    if Acceptable(s) {
      var n := StoreIsScripted(s);
      HistoryIsAScriptPrefix(s, n);
      if Executed(s).outcome.Returned? {
        assert AllCalls(s)[..n] == AllCalls(s);
        AfterCalls(Script(s), LastDocument(s), n, s.storeOutcomes);
      }
    }
  }
}
