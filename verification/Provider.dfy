/**
 The Ollama client's two retry loops. A streaming request may be attempted again after a timeout
 or a broken transport, but only while it has yielded nothing, so its reader never sees the
 beginning of an answer twice.
 */
module Provider {
  import opened Options

  /** One line of a streamed answer, after parsing. */
  datatype Line =
    | Blank
    | NotJson
    | NotObject
    | ErrorLine(message: string)
    | DoneWithoutMessage
    | NoMessage
    | BadContent
    | Content(text: string, done: bool)

  /** What the transport delivers to the loop, one event at a time. */
  datatype NetEvent =
    | Arrives(line: Line)
    | Ends
    | TimesOut
    | TransportFails
    | HttpStatus(code: nat)

  datatype ProviderError =
    | TimeoutError(attempts: nat)
    | ConnectionError(attempts: nat)
    | ModelNotFound
    | HttpError(detail: string)
    | HttpStatusError(code: nat)
    | InvalidResponse
    | UnreachableState

  datatype Result = Returned | Raised(error: ProviderError)

  /**
   A streaming request in progress. produced has one entry for each attempt made so far, the chunks
   that attempt yielded; sleeps the waits between attempts.
   */
  datatype Stream = Stream(
    maxRetries: int,
    baseDelay: real,
    attempt: nat,
    produced: seq<seq<string>>,
    sleeps: seq<real>,
    result: Option<Result>)

  /** The wait after attempt k: the base delay doubled k times. */
  function Delay(base: real, k: nat): real {
    if k == 0 then base else 2.0 * Delay(base, k - 1)
  }

  /** base * (2^n - 1) */
  function TotalDelay(base: real, n: nat): real {
    Delay(base, n) - base
  }

  /** range(max_retries + 1) is empty for a negative bound. */
  function Start(maxRetries: int, baseDelay: real): Stream {
    if maxRetries < 0 then Stream(maxRetries, baseDelay, 0, [[]], [], Some(Raised(UnreachableState)))
    else Stream(maxRetries, baseDelay, 0, [[]], [], None)
  }

  predicate WellFormed(s: Stream) {
    |s.produced| == s.attempt + 1
  }

  function Raise(s: Stream, e: ProviderError): Stream {
    s.(result := Some(Raised(e)))
  }

  function Yield(s: Stream, text: string): Stream
    requires WellFormed(s)
  {
    s.(produced := s.produced[s.attempt := s.produced[s.attempt] + [text]])
  }

  function Retry(s: Stream): Stream {
    var s := s.(sleeps := s.sleeps + [Delay(s.baseDelay, s.attempt)]);
    if s.attempt >= s.maxRetries then Raise(s, UnreachableState)
    else s.(attempt := s.attempt + 1, produced := s.produced + [[]])
  }

  function RetryUnless(s: Stream, e: ProviderError): Stream
    requires WellFormed(s)
  {
    if s.produced[s.attempt] != [] || s.attempt >= s.maxRetries then Raise(s, e) else Retry(s)
  }

  function HandleLine(s: Stream, line: Line): Stream
    requires WellFormed(s)
  {
    match line
    case Blank => s
    case NotJson => Raise(s, InvalidResponse)
    case NotObject => Raise(s, InvalidResponse)
    case ErrorLine(message) => Raise(s, HttpError(message))
    case DoneWithoutMessage => s.(result := Some(Returned))
    case NoMessage => Raise(s, InvalidResponse)
    case BadContent => Raise(s, InvalidResponse)
    case Content(text, done) =>
      var s := if text != "" then Yield(s, text) else s;
      if done then s.(result := Some(Returned)) else s
  }

  /** An event after the request has ended changes nothing. */
  function Next(s: Stream, event: NetEvent): (r: Stream)
    requires WellFormed(s)
    ensures WellFormed(r)
  {
    if s.result.Some? then s
    else
      match event
      case Arrives(line) => HandleLine(s, line)
      case Ends => Raise(s, InvalidResponse)
      case TimesOut => RetryUnless(s, TimeoutError(s.attempt + 1))
      case TransportFails => RetryUnless(s, ConnectionError(s.attempt + 1))
      case HttpStatus(code) => Raise(s, if code == 404 then ModelNotFound else HttpStatusError(code))
  }

  function Run(s: Stream, events: seq<NetEvent>): (r: Stream)
    requires WellFormed(s)
    ensures WellFormed(r)
    decreases |events|
  {
    if events == [] then s else Run(Next(s, events[0]), events[1..])
  }

  function Concat(parts: seq<seq<string>>): seq<string> {
    if parts == [] then [] else parts[0] + Concat(parts[1..])
  }

  /** Everything the reader of the stream has been given. */
  function Yielded(s: Stream): seq<string> {
    Concat(s.produced)
  }

  // ---------------------------------------------------------------- every run

  ghost predicate Invariant(s: Stream) {
    && WellFormed(s)
    && (s.maxRetries >= 0 ==> s.attempt <= s.maxRetries && s.result != Some(Raised(UnreachableState)))
    && (forall k :: 0 <= k < s.attempt ==> s.produced[k] == [])
    && (forall text <- s.produced[s.attempt] :: text != "")
    && |s.sleeps| == s.attempt
    && (forall k :: 0 <= k < s.attempt ==> s.sleeps[k] == Delay(s.baseDelay, k))
  }

  /** A negative retry bound leaves nothing to run. */
  predicate CanRun(s: Stream) {
    s.maxRetries >= 0 || s.result.Some?
  }

  lemma {:induction false} RunKeepsInvariant(s: Stream, events: seq<NetEvent>)
    requires Invariant(s) && CanRun(s)
    ensures Invariant(Run(s, events))
    decreases |events|
  {
    if events != [] {
      NextKeepsInvariant(s, events[0]);
      RunKeepsInvariant(Next(s, events[0]), events[1..]);
    }
  }

  lemma NextKeepsInvariant(s: Stream, event: NetEvent)
    requires Invariant(s) && CanRun(s)
    ensures Invariant(Next(s, event)) && Next(s, event).maxRetries == s.maxRetries
    ensures s.result.Some? ==> Next(s, event).result.Some?
  {
  }

  lemma {:induction false} ConcatOfEmpties(parts: seq<seq<string>>)
    requires parts != [] && forall k :: 0 <= k < |parts| - 1 ==> parts[k] == []
    ensures Concat(parts) == parts[|parts| - 1]
  {
    if |parts| > 1 {
      ConcatOfEmpties(parts[1..]);
    } else {
      assert Concat(parts[1..]) == [];
    }
  }

  function Sum(delays: seq<real>): real {
    if delays == [] then 0.0 else Sum(delays[..|delays| - 1]) + delays[|delays| - 1]
  }

  lemma OneMoreDelay(delays: seq<real>, base: real)
    requires Sum(delays) == TotalDelay(base, |delays|)
    ensures Sum(delays + [Delay(base, |delays|)]) == TotalDelay(base, |delays| + 1)
  {
    assert (delays + [Delay(base, |delays|)])[..|delays|] == delays;
  }

  lemma {:induction false} GeometricSum(delays: seq<real>, base: real)
    requires forall k :: 0 <= k < |delays| ==> delays[k] == Delay(base, k)
    ensures Sum(delays) == TotalDelay(base, |delays|)
  {
    if delays != [] {
      var n := |delays| - 1;
      GeometricSum(delays[..n], base);
      OneMoreDelay(delays[..n], base);
      assert delays == delays[..n] + [Delay(base, n)];
    }
  }

  /**
   A stream never repeats itself: whatever the network does, all that was yielded comes from the
   last attempt; there are at most max_retries + 1 attempts; k retries waited base * (2^k - 1) in
   all; and the error after the loop is never raised.
   */
  lemma StreamNeverRepeats(maxRetries: nat, baseDelay: real, events: seq<NetEvent>)
    ensures var s := Run(Start(maxRetries, baseDelay), events);
            && WellFormed(s)
            && Yielded(s) == s.produced[s.attempt]
            && s.attempt + 1 <= maxRetries + 1
            && Sum(s.sleeps) == TotalDelay(baseDelay, s.attempt)
            && s.result != Some(Raised(UnreachableState))
  {
    var s := Run(Start(maxRetries, baseDelay), events);
    RunKeepsInvariant(Start(maxRetries, baseDelay), events);
    RunKeepsParameters(Start(maxRetries, baseDelay), events);
    ConcatOfEmpties(s.produced);
    GeometricSum(s.sleeps, baseDelay);
  }

  lemma {:induction false} RunKeepsParameters(s: Stream, events: seq<NetEvent>)
    requires WellFormed(s)
    ensures Run(s, events).maxRetries == s.maxRetries && Run(s, events).baseDelay == s.baseDelay
    decreases |events|
  {
    if events != [] {
      RunKeepsParameters(Next(s, events[0]), events[1..]);
    }
  }

  /** The error after the loop is raised exactly for a negative retry bound, before any attempt. */
  lemma UnreachableIffNegative(maxRetries: int, baseDelay: real, events: seq<NetEvent>)
    ensures Run(Start(maxRetries, baseDelay), events).result == Some(Raised(UnreachableState)) <==> maxRetries < 0
  {
    if maxRetries >= 0 {
      StreamNeverRepeats(maxRetries, baseDelay, events);
    } else {
      EndedStays(Start(maxRetries, baseDelay), events);
    }
  }

  lemma {:induction false} EndedStays(s: Stream, events: seq<NetEvent>)
    requires WellFormed(s) && s.result.Some?
    ensures Run(s, events) == s
    decreases |events|
  {
    if events != [] {
      EndedStays(s, events[1..]);
    }
  }

  predicate IsDone(event: NetEvent) {
    event.Arrives? && (event.line.DoneWithoutMessage? || (event.line.Content? && event.line.done))
  }

  /** A stream that ends normally was told so: some event it received is a done line. */
  lemma {:induction false} ReturnsOnlyWhenDone(s: Stream, events: seq<NetEvent>)
    requires WellFormed(s) && s.result.None? && Run(s, events).result == Some(Returned)
    ensures exists event <- events :: IsDone(event)
    decreases |events|
  {
    if Next(s, events[0]).result.None? {
      ReturnsOnlyWhenDone(Next(s, events[0]), events[1..]);
      var event :| event in events[1..] && IsDone(event);
      assert event in events;
    } else {
      EndedStays(Next(s, events[0]), events[1..]);
      assert IsDone(events[0]) && events[0] in events;
    }
  }

  // ---------------------------------------------------------------- the streaming loop

  /** All that happens on the wire during one attempt. */
  datatype Attempt = Answered(lines: seq<Line>, ending: NetEvent) | Refused(code: nat)

  predicate Possible(a: Attempt) {
    a.Answered? ==> a.ending in {Ends, TimesOut, TransportFails}
  }

  function LineEvents(lines: seq<Line>): (r: seq<NetEvent>)
    ensures |r| == |lines|
  {
    seq(|lines|, i requires 0 <= i < |lines| => Arrives(lines[i]))
  }

  function AttemptEvents(a: Attempt): seq<NetEvent> {
    match a
    case Answered(lines, ending) => LineEvents(lines) + [ending]
    case Refused(code) => [HttpStatus(code)]
  }

  function Wire(attempts: seq<Attempt>): seq<NetEvent> {
    if attempts == [] then [] else AttemptEvents(attempts[0]) + Wire(attempts[1..])
  }

  lemma {:induction false} RunConcat(s: Stream, a: seq<NetEvent>, b: seq<NetEvent>)
    requires WellFormed(s)
    ensures Run(s, a + b) == Run(Run(s, a), b)
    decreases |a|
  {
    if a == [] {
      assert a + b == b;
    } else {
      assert (a + b)[1..] == a[1..] + b;
      RunConcat(Next(s, a[0]), a[1..], b);
    }
  }

  lemma YieldedIsLastAttempt(s: Stream)
    requires Invariant(s)
    ensures Yielded(s) == s.produced[s.attempt]
  {
    ConcatOfEmpties(s.produced);
  }

  // ---------------------------------------------------------------- what a stream comes to

  /** A line that neither ends the request nor breaks it. */
  predicate Ordinary(line: Line) {
    line.Blank? || (line.Content? && !line.done)
  }

  /** The texts among some lines, without the empty ones. */
  function Words(lines: seq<Line>): seq<string> {
    if lines == [] then []
    else (if lines[0].Content? && lines[0].text != "" then [lines[0].text] else []) + Words(lines[1..])
  }

  predicate Transitory(event: NetEvent) {
    event.TimesOut? || event.TransportFails?
  }

  /** An attempt that breaks off with a timeout or a transport error before any text. */
  predicate BreaksOff(a: Attempt) {
    a.Answered? && Transitory(a.ending) && (forall line <- a.lines :: Ordinary(line)) && Words(a.lines) == []
  }

  lemma {:induction false} OrdinaryLines(s: Stream, lines: seq<Line>)
    requires WellFormed(s) && s.result.None? && forall line <- lines :: Ordinary(line)
    ensures Run(s, LineEvents(lines)) ==
      s.(produced := s.produced[s.attempt := s.produced[s.attempt] + Words(lines)])
    decreases |lines|
  {
    if lines == [] {
      assert s.produced[s.attempt] + [] == s.produced[s.attempt];
      assert s.produced[s.attempt := s.produced[s.attempt]] == s.produced;
    } else {
      var t := Next(s, Arrives(lines[0]));
      assert lines[0] in lines && LineEvents(lines)[1..] == LineEvents(lines[1..]);
      OrdinaryLine(s, lines[0]);
      OrdinaryLines(t, lines[1..]);
      assert t.produced[t.attempt] + Words(lines[1..]) == s.produced[s.attempt] + Words(lines);
    }
  }

  lemma OrdinaryLine(s: Stream, line: Line)
    requires WellFormed(s) && s.result.None? && Ordinary(line)
    ensures Next(s, Arrives(line)) ==
      if line.Content? && line.text != "" then Yield(s, line.text) else s
  {
  }

  /** Nothing yielded yet, and the attempt under way is number attempt, from 0. */
  ghost predicate Untold(s: Stream, maxRetries: nat, attempt: nat) {
    && Invariant(s) && s.maxRetries == maxRetries && s.result.None?
    && s.attempt == attempt <= maxRetries && s.produced[attempt] == []
  }

  lemma RunOfOne(s: Stream, event: NetEvent)
    requires WellFormed(s)
    ensures Run(s, [event]) == Next(s, event)
  {
  }

  /** An attempt that breaks off while another is left is followed by it. */
  lemma OneMoreAttempt(s: Stream, maxRetries: nat, a: Attempt)
    requires Untold(s, maxRetries, s.attempt) && s.attempt < maxRetries && BreaksOff(a)
    ensures Untold(Run(s, AttemptEvents(a)), maxRetries, s.attempt + 1)
  {
    WordlessLines(s, a.lines);
    RunConcat(s, LineEvents(a.lines), [a.ending]);
    RunOfOne(s, a.ending);
    BrokenOff(s, maxRetries, a.ending);
  }

  lemma WordlessLines(s: Stream, lines: seq<Line>)
    requires WellFormed(s) && s.result.None? && s.produced[s.attempt] == []
    requires (forall line <- lines :: Ordinary(line)) && Words(lines) == []
    ensures Run(s, LineEvents(lines)) == s
  {
    OrdinaryLines(s, lines);
    assert s.produced[s.attempt := [] + []] == s.produced;
  }

  lemma BrokenOff(s: Stream, maxRetries: nat, ending: NetEvent)
    requires Untold(s, maxRetries, s.attempt) && s.attempt < maxRetries && Transitory(ending)
    ensures Untold(Next(s, ending), maxRetries, s.attempt + 1)
  {
    NextKeepsInvariant(s, ending);
  }

  /** Each of the attempts breaks off. */
  predicate AllBreakOff(failed: seq<Attempt>) {
    failed == [] || (BreaksOff(failed[0]) && AllBreakOff(failed[1..]))
  }

  lemma {:induction false} AttemptsBreakOff(s: Stream, maxRetries: nat, n: nat, failed: seq<Attempt>)
    requires Untold(s, maxRetries, n) && n + |failed| <= maxRetries && AllBreakOff(failed)
    ensures Untold(Run(s, Wire(failed)), maxRetries, n + |failed|)
    decreases |failed|
  {
    if failed != [] {
      var t := Run(s, AttemptEvents(failed[0]));
      OneMoreAttempt(s, maxRetries, failed[0]);
      RunConcat(s, AttemptEvents(failed[0]), Wire(failed[1..]));
      AttemptsBreakOff(t, maxRetries, n + 1, failed[1..]);
    }
  }

  /** s has given its reader these texts and has come to this result. */
  predicate ComesTo(s: Stream, texts: seq<string>, result: Result) {
    Yielded(s) == texts && s.result == Some(result)
  }

  /** What the event after these texts of attempt number n, from 1, makes of the stream. */
  predicate DecidedBy(s: Stream, maxRetries: nat, n: nat, texts: seq<string>, last: NetEvent) {
    match last
    case Arrives(line) =>
      (match line
       case Blank => s.result.None? && Yielded(s) == texts
       case Content(text, done) =>
         && Yielded(s) == texts + (if text == "" then [] else [text])
         && s.result == (if done then Some(Returned) else None)
       case DoneWithoutMessage => ComesTo(s, texts, Returned)
       case ErrorLine(message) => ComesTo(s, texts, Raised(HttpError(message)))
       case _ => ComesTo(s, texts, Raised(InvalidResponse)))
    case Ends => ComesTo(s, texts, Raised(InvalidResponse))
    case HttpStatus(code) => ComesTo(s, texts, Raised(if code == 404 then ModelNotFound else HttpStatusError(code)))
    case _ =>
      if texts != [] || n == maxRetries + 1
      then ComesTo(s, texts, Raised(if last.TimesOut? then TimeoutError(n) else ConnectionError(n)))
      else s.result.None? && s.attempt == n && Yielded(s) == [] && |s.sleeps| == n
  }

  /**
   What a stream comes to, for every way it can go: after some attempts that broke off without a text,
   and the ordinary lines of one more, the next event decides. A done line ends it well and a broken one
   badly; a timeout or a transport error ends it when a text has gone out or no attempt is left, with the
   number of attempts made, and is answered by another attempt in all other cases.
   */
  lemma StreamComesTo(maxRetries: nat, baseDelay: real, failed: seq<Attempt>, lines: seq<Line>, last: NetEvent)
    requires |failed| <= maxRetries && AllBreakOff(failed)
    requires forall line <- lines :: Ordinary(line)
    ensures
      DecidedBy(Run(Start(maxRetries, baseDelay), Wire(failed) + (LineEvents(lines) + [last])), maxRetries,
        |failed| + 1, Words(lines), last)
  {
    var start := Start(maxRetries, baseDelay);
    AttemptsBreakOff(start, maxRetries, 0, failed);
    RunConcat(start, Wire(failed), LineEvents(lines) + [last]);
    LinesThenEvent(Run(start, Wire(failed)), maxRetries, |failed|, lines, last);
  }

  lemma LinesThenEvent(s: Stream, maxRetries: nat, n: nat, lines: seq<Line>, last: NetEvent)
    requires Untold(s, maxRetries, n) && forall line <- lines :: Ordinary(line)
    ensures DecidedBy(Run(s, LineEvents(lines) + [last]), maxRetries, n + 1, Words(lines), last)
  {
    OrdinaryLines(s, lines);
    RunConcat(s, LineEvents(lines), [last]);
    var u := Run(s, LineEvents(lines));
    RunKeepsInvariant(s, LineEvents(lines));
    RunOfOne(u, last);
    assert [] + Words(lines) == Words(lines);
    OneMoreEvent(u, maxRetries, last);
  }

  lemma OneMoreEvent(u: Stream, maxRetries: nat, last: NetEvent)
    requires Invariant(u) && u.maxRetries == maxRetries && u.result.None? && u.attempt <= maxRetries
    ensures DecidedBy(Next(u, last), maxRetries, u.attempt + 1, u.produced[u.attempt], last)
  {
    NextKeepsInvariant(u, last);
    YieldedIsLastAttempt(u);
    YieldedIsLastAttempt(Next(u, last));
  }

  /** Reads one attempt's answer; stops at the first line that ends the request. */
  method ReadLines(lines: seq<Line>, ghost before: Stream) returns (emitted: seq<string>, result: Option<Result>)
    requires WellFormed(before) && before.result.None? && before.produced[before.attempt] == []
    ensures Run(before, LineEvents(lines)) ==
              before.(produced := before.produced[before.attempt := emitted], result := result)
  {
    emitted := [];
    var i := 0;
    ghost var s := before;
    assert s.produced[s.attempt := emitted] == s.produced;
    while i < |lines|
      invariant 0 <= i <= |lines|
      invariant s == before.(produced := before.produced[before.attempt := emitted])
      invariant Run(before, LineEvents(lines)) == Run(s, LineEvents(lines[i..]))
    {
      var line := lines[i];
      assert LineEvents(lines[i..])[1..] == LineEvents(lines[i + 1..]);
      s := Next(s, Arrives(line));
      i := i + 1;
      match line {
        case Blank =>
        case NotJson => result := Some(Raised(InvalidResponse));
        case NotObject => result := Some(Raised(InvalidResponse));
        case ErrorLine(message) => result := Some(Raised(HttpError(message)));
        case DoneWithoutMessage => result := Some(Returned);
        case NoMessage => result := Some(Raised(InvalidResponse));
        case BadContent => result := Some(Raised(InvalidResponse));
        case Content(text, done) =>
          if text != "" {
            emitted := emitted + [text];
          }
          if done {
            result := Some(Returned);
          } else {
            result := None;
          }
      }
      if !line.Blank? && result.Some? {
        EndedStays(s, LineEvents(lines[i..]));
        return;
      }
    }
    result := None;
  }

  lemma RefusedRuns(s: Stream, a: Attempt, rest: seq<NetEvent>)
    requires a.Refused? && Invariant(s) && s.result.None?
    ensures var t := Next(s, HttpStatus(a.code));
            Run(s, AttemptEvents(a) + rest) == t && Yielded(t) == s.produced[s.attempt]
  {
    EndedStays(Next(s, HttpStatus(a.code)), rest);
    assert (AttemptEvents(a) + rest)[1..] == rest;
    YieldedIsLastAttempt(s);
  }

  /** Running one whole attempt: its lines, then how its answer ended. */
  lemma AnsweredRuns(s: Stream, a: Attempt, rest: seq<NetEvent>)
    requires a.Answered? && Invariant(s) && s.maxRetries >= 0 && s.result.None?
    ensures var u := Run(s, LineEvents(a.lines)); var t := Next(u, a.ending);
            && Run(s, AttemptEvents(a) + rest) == Run(t, rest)
            && Invariant(u) && Invariant(t)
            && (u.result.Some? ==> Run(t, rest) == u)
            && (t.result.Some? ==> Run(t, rest) == t)
  {
    var u := Run(s, LineEvents(a.lines));
    RunConcat(s, LineEvents(a.lines), [a.ending]);
    RunConcat(s, AttemptEvents(a), rest);
    RunKeepsInvariant(s, LineEvents(a.lines));
    RunKeepsParameters(s, LineEvents(a.lines));
    NextKeepsInvariant(u, a.ending);
    assert Run(u, [a.ending]) == Next(u, a.ending);
    if Next(u, a.ending).result.Some? {
      EndedStays(Next(u, a.ending), rest);
    }
  }

  /** The exception handlers of one attempt: None stands for going round the loop again. */
  method HandleEnding(ending: NetEvent, emittedChunk: bool, attempt: nat, maxRetries: nat, ghost u: Stream)
    returns (raised: Option<Result>)
    requires ending in {Ends, TimesOut, TransportFails}
    requires WellFormed(u) && u.result.None? && u.attempt == attempt && u.maxRetries == maxRetries
    requires emittedChunk <==> u.produced[attempt] != []
    ensures raised.Some? ==> Next(u, ending) == u.(result := raised)
    ensures raised.None? ==> Next(u, ending) == Retry(u) && !emittedChunk && attempt < maxRetries
  {
    match ending {
      case TimesOut =>
        if emittedChunk || attempt >= maxRetries {
          return Some(Raised(TimeoutError(attempt + 1)));
        }
      case TransportFails =>
        if emittedChunk || attempt >= maxRetries {
          return Some(Raised(ConnectionError(attempt + 1)));
        }
      case _ => return Some(Raised(InvalidResponse));
    }
    raised := None;
  }

  /** One attempt: what it yielded, and how the request ended unless it is to be tried again. */
  method TryAttempt(a: Attempt, attempt: nat, maxRetries: nat, ghost s: Stream, ghost rest: seq<NetEvent>)
    returns (emitted: seq<string>, result: Option<Result>)
    requires Possible(a) && Invariant(s) && s.result.None? && s.produced[s.attempt] == []
    requires s.attempt == attempt && s.maxRetries == maxRetries
    ensures result.Some? ==>
      Run(s, AttemptEvents(a) + rest) == s.(produced := s.produced[attempt := emitted], result := result)
    ensures result.None? ==> Run(s, AttemptEvents(a) + rest) == Run(Retry(s), rest)
    ensures result.None? ==> emitted == [] && attempt < maxRetries
  {
    if a.Refused? {
      RefusedRuns(s, a, rest);
      assert s.produced[attempt := []] == s.produced;
      return [], Some(Raised(if a.code == 404 then ModelNotFound else HttpStatusError(a.code)));
    }
    AnsweredRuns(s, a, rest);
    emitted, result := ReadLines(a.lines, s);
    ghost var u := s.(produced := s.produced[attempt := emitted], result := result);
    if result.Some? {
      return;
    }
    result := HandleEnding(a.ending, emitted != [], attempt, maxRetries, u);
    if result.None? {
      assert s.produced[attempt := []] == s.produced;
    }
  }

  /** Trying again after an attempt that yielded nothing. */
  lemma RetryKeepsInvariant(s: Stream)
    requires Invariant(s) && s.result.None? && s.produced[s.attempt] == [] && s.attempt < s.maxRetries
    ensures
      var r := Retry(s);
      && Invariant(r) && r.attempt == s.attempt + 1 && r.produced[r.attempt] == []
      && r == Stream(s.maxRetries, s.baseDelay, s.attempt + 1, r.produced,
                     s.sleeps + [Delay(s.baseDelay, s.attempt)], None)
  {
  }

  lemma WireFrom(attempts: seq<Attempt>, k: nat)
    requires k < |attempts|
    ensures Wire(attempts[k..]) == AttemptEvents(attempts[k]) + Wire(attempts[k + 1..])
  {
    assert attempts[k..][0] == attempts[k] && attempts[k..][1..] == attempts[k + 1..];
  }

  lemma EndedWith(s: Stream, emitted: seq<string>, result: Option<Result>)
    requires Invariant(s)
    ensures Yielded(s.(produced := s.produced[s.attempt := emitted], result := result)) == emitted
  {
    ConcatOfEmpties(s.produced[s.attempt := emitted]);
  }

  /** attempts says what each attempt would meet on the wire. */
  method StreamChunks(attempts: seq<Attempt>, maxRetries: int, baseDelay: real)
    returns (yielded: seq<string>, result: Result, sleeps: seq<real>)
    requires |attempts| == maxRetries + 1 || (maxRetries < 0 && attempts == [])
    requires forall a <- attempts :: Possible(a)
    ensures var s := Run(Start(maxRetries, baseDelay), Wire(attempts));
            yielded == Yielded(s) && Some(result) == s.result && sleeps == s.sleeps
  {
    yielded, sleeps := [], [];
    ghost var s := Start(maxRetries, baseDelay);
    var attempt := 0;
    while attempt < maxRetries + 1
      invariant 0 <= attempt && (maxRetries >= 0 ==> attempt <= maxRetries)
      invariant maxRetries < 0 ==> s == Start(maxRetries, baseDelay) && attempt == 0
      invariant maxRetries >= 0 ==> s == Stream(maxRetries, baseDelay, attempt, s.produced, sleeps, None)
      invariant Invariant(s) && s.produced[s.attempt] == [] && yielded == [] && sleeps == s.sleeps
      invariant maxRetries >= 0 ==>
        Run(Start(maxRetries, baseDelay), Wire(attempts)) == Run(s, Wire(attempts[attempt..]))
      decreases maxRetries + 1 - attempt
    {
      assert attempts[attempt] in attempts;
      WireFrom(attempts, attempt);
      assert maxRetries >= 0;
      ghost var rest := Wire(attempts[attempt + 1..]);
      var emitted, ended := TryAttempt(attempts[attempt], attempt, maxRetries, s, rest);
      yielded := yielded + emitted;
      if ended.Some? {
        EndedWith(s, emitted, ended);
        return yielded, ended.value, sleeps;
      }
      RetryKeepsInvariant(s);
      sleeps := sleeps + [Delay(baseDelay, attempt)];
      attempt := attempt + 1;
      s := Retry(s);
    }
    EndedStays(s, Wire(attempts));
    result := Raised(UnreachableState);
  }

  // ---------------------------------------------------------------- the loop without streaming

  /** How one non-streaming attempt comes out. */
  datatype Reply = Good(content: string) | Malformed | ReplyTimesOut | ReplyTransportFails | ReplyStatus(code: nat)

  predicate Transient(r: Reply) {
    r.ReplyTimesOut? || r.ReplyTransportFails?
  }

  datatype Generated = Response(content: string) | GenerationFailed(error: ProviderError)

  function FailureOf(r: Reply, attempts: nat): ProviderError
    requires !r.Good?
  {
    match r
    case Malformed => InvalidResponse
    case ReplyTimesOut => TimeoutError(attempts)
    case ReplyTransportFails => ConnectionError(attempts)
    case ReplyStatus(code) => if code == 404 then ModelNotFound else HttpStatusError(code)
  }

  /**
   The answer of the first reply that is not a passing failure, or the last failure when there is
   none; a negative bound makes no attempt and falls through to the error behind the loop.
   */
  method GenerateRequest(replies: seq<Reply>, maxRetries: int, baseDelay: real)
    returns (answer: Generated, attempts: nat, sleeps: seq<real>)
    requires |replies| == maxRetries + 1 || (maxRetries < 0 && replies == [])
    ensures maxRetries < 0 ==> attempts == 0 && sleeps == [] && answer == GenerationFailed(UnreachableState)
    ensures maxRetries >= 0 ==> 1 <= attempts <= maxRetries + 1
    ensures forall k :: 0 <= k < attempts - 1 ==> Transient(replies[k])
    ensures maxRetries >= 0 ==>
      var last := replies[attempts - 1];
      && (Transient(last) ==> attempts == maxRetries + 1)
      && Sum(sleeps) == TotalDelay(baseDelay, attempts - 1)
      && answer == if last.Good? then Response(last.content) else GenerationFailed(FailureOf(last, attempts))
  {
    sleeps := [];
    var attempt := 0;
    while attempt < maxRetries + 1
      invariant 0 <= attempt && |sleeps| == attempt
      invariant if maxRetries < 0 then attempt == 0 else attempt <= maxRetries
      invariant forall k :: 0 <= k < attempt ==> Transient(replies[k])
      invariant Sum(sleeps) == TotalDelay(baseDelay, attempt)
      decreases maxRetries - attempt
    {
      attempts := attempt + 1;
      match replies[attempt] {
        case Good(content) => return Response(content), attempts, sleeps;
        case Malformed => return GenerationFailed(InvalidResponse), attempts, sleeps;
        case ReplyStatus(code) =>
          return GenerationFailed(if code == 404 then ModelNotFound else HttpStatusError(code)), attempts, sleeps;
        case ReplyTimesOut =>
          if attempt >= maxRetries {
            return GenerationFailed(TimeoutError(attempts)), attempts, sleeps;
          }
        case ReplyTransportFails =>
          if attempt >= maxRetries {
            return GenerationFailed(ConnectionError(attempts)), attempts, sleeps;
          }
      }
      OneMoreDelay(sleeps, baseDelay);
      sleeps := sleeps + [Delay(baseDelay, attempt)];
      attempt := attempt + 1;
    }
    answer, attempts := GenerationFailed(UnreachableState), 0;
  }
}
