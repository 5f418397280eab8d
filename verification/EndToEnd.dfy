/**
 The whole path of a direct answer: provider attempts, the server's chat task, the wire, the
 socket service and the page.

 There is one server connection for each socket the browser ever created. A link remembers how
 much of each direction has been handed over, and which client message each task came from; both
 directions keep their order. answers remembers for which request, over which socket, each
 assistant message was begun, and whether its completion has been handled.
 */
module EndToEnd {
  import opened Options
  import opened Protocol
  import P = Provider
  import S = Server
  import Sock = SocketService
  import W = Workspace
  import Wire

  datatype Link = Link(conn: S.Conn, read: nat, origins: seq<nat>, delivered: nat)

  datatype Answer = Answer(request: RequestId, socket: nat, complete: bool)

  datatype System = System(app: W.App, links: seq<Link>, answers: map<nat, Answer>)

  const FreshLink := Link(S.Initial, 0, [], 0)

  const Initial := System(W.InitialApp, [], map[])

  /**
   EventArrives hands the next event of a connection to the current, open socket; on any other
   socket the event is lost. Receiving is the one server step that takes a client message.
   */
  datatype Step =
    | PageMoves(step: W.Step)
    | OtherPageSends(message: ClientMessage)
    | ServerReceives(link: nat, maxRetries: int, baseDelay: real, available: bool, valid: bool)
    | ServerMoves(link: nat, move: S.Step)
    | EventArrives(link: nat)

  /** Notes which request the assistant message being written answers. */
  function Record(s: System): System {
    var c := s.app.client;
    if c.assistant.Some? && c.state.active.Some? && s.app.service.current.Some?
    then s.(answers := s.answers[c.assistant.value := Answer(c.state.active.value, s.app.service.current.value, false)])
    else s
  }

  /** The answer that event completes, if any. */
  function Completes(c: W.Client, event: ServerEvent): Option<nat> {
    if event.Completed? && Some(event.request) == c.state.active && c.state.mode == W.DirectMode
    then c.assistant else None
  }

  function MarkComplete(answers: map<nat, Answer>, id: Option<nat>): map<nat, Answer> {
    if id.Some? && id.value in answers then answers[id.value := answers[id.value].(complete := true)] else answers
  }

  function ReceiveStep(m: ClientMessage, maxRetries: int, baseDelay: real, available: bool, valid: bool): S.Step {
    if valid then S.HandlerReceives(m, maxRetries, baseDelay, available)
    else S.HandlerReceivesInvalid(if m.Ping? then UnknownId else m.request)
  }

  predicate CanReceive(s: System, i: nat) {
    && i < |s.links| && i < |s.app.service.sockets| && s.links[i].read < |s.app.service.sockets[i].sent|
    && s.links[i].conn.phase.Receiving?
  }

  function ServerReceive(s: System, i: nat, step: S.Step): System
    requires i < |s.links|
  {
    var l := s.links[i];
    var conn := S.Next(l.conn, step);
    var origins := if |conn.tasks| > |l.conn.tasks| then l.origins + [l.read] else l.origins;
    s.(links := s.links[i := l.(conn := conn, read := l.read + 1, origins := origins)])
  }

  predicate CanDeliver(s: System, i: nat) {
    && i < |s.links| && s.links[i].delivered < |s.links[i].conn.sent|
    && s.app.service.current == Some(i) && Sock.CanSend(s.app.service)
  }

  function Deliver(s: System, i: nat): System
    requires CanDeliver(s, i)
  {
    var l := s.links[i];
    var event := l.conn.sent[l.delivered].event;
    Record(System(
      W.Next(s.app, W.Receives(i, event)),
      s.links[i := l.(delivered := l.delivered + 1)],
      MarkComplete(s.answers, Completes(s.app.client, event))))
  }

  function Next(s: System, step: Step): System {
    match step
    case PageMoves(step) =>
      if step.Receives? then s
      else
        var app := W.Next(s.app, step);
        var added := if |app.service.sockets| > |s.app.service.sockets| then [FreshLink] else [];
        Record(System(app, s.links + added, s.answers))
    case OtherPageSends(m) =>
      if Sock.CanSend(s.app.service) && (m.Ping? || m.request.ChatId?)
      then s.(app := s.app.(service := Sock.Send(s.app.service, m))) else s
    case ServerReceives(i, maxRetries, baseDelay, available, valid) =>
      if CanReceive(s, i) then
        var m := s.app.service.sockets[i].sent[s.links[i].read];
        ServerReceive(s, i, ReceiveStep(m, maxRetries, baseDelay, available, valid))
      else s
    case ServerMoves(i, move) =>
      if i < |s.links| && !S.IsReceive(move)
      then s.(links := s.links[i := s.links[i].(conn := S.Next(s.links[i].conn, move))])
      else s
    case EventArrives(i) => if CanDeliver(s, i) then Deliver(s, i) else s
  }

  function Run(s: System, steps: seq<Step>): System
    decreases |steps|
  {
    if steps == [] then s else Run(Next(s, steps[0]), steps[1..])
  }

  // ---------------------------------------------------------------- texts

  function Flat(texts: seq<string>): string {
    if texts == [] then "" else Flat(texts[..|texts| - 1]) + texts[|texts| - 1]
  }

  /** The texts of the chunks among some events. */
  function Texts(events: seq<ServerEvent>): seq<string> {
    if events == [] then []
    else
      var last := events[|events| - 1];
      Texts(events[..|events| - 1]) + (if last.Chunk? then [last.content] else [])
  }

  /** The events of a log that speak about r, in order. */
  function About(sent: seq<S.Sent>, r: RequestId): seq<ServerEvent> {
    if sent == [] then []
    else
      var event := sent[|sent| - 1].event;
      About(sent[..|sent| - 1], r) + (if !event.Pong? && event.request == r then [event] else [])
  }

  lemma AppendText(texts: seq<string>, text: string)
    ensures Flat(texts + [text]) == Flat(texts) + text
  {
    assert (texts + [text])[..|texts|] == texts;
  }

  lemma AppendEvent(events: seq<ServerEvent>, event: ServerEvent)
    ensures Texts(events + [event]) == Texts(events) + if event.Chunk? then [event.content] else []
  {
    assert (events + [event])[..|events|] == events;
  }

  lemma {:induction false} TextsOfPrefix(a: seq<ServerEvent>, b: seq<ServerEvent>)
    requires a <= b
    ensures Texts(a) <= Texts(b)
    decreases |b|
  {
    if |a| < |b| {
      TextsOfPrefix(a, b[..|b| - 1]);
    } else {
      assert a == b;
    }
  }

  lemma {:induction false} TextsOfOpening(r: RequestId, texts: seq<string>)
    ensures Texts([Started(r, S.MODEL)] + S.Chunks(r, texts)) == texts
  {
    var events := [Started(r, S.MODEL)] + S.Chunks(r, texts);
    if texts == [] {
      assert events == [Started(r, S.MODEL)];
      assert Texts([]) == [] && events[..0] == [];
    } else {
      var n := |texts| - 1;
      TextsOfOpening(r, texts[..n]);
      assert events[..|events| - 1] == [Started(r, S.MODEL)] + S.Chunks(r, texts[..n]);
      assert texts == texts[..n] + [texts[n]];
    }
  }

  /** content is what some beginning of the chunks comes to. */
  ghost predicate FlatPrefix(content: string, texts: seq<string>) {
    exists k :: 0 <= k <= |texts| && content == Flat(texts[..k])
  }

  // ---------------------------------------------------------------- one connection

  /** Some client message among the first n mentions r. */
  ghost predicate Mentioned(log: seq<ClientMessage>, n: nat, r: RequestId) {
    exists j :: 0 <= j < n <= |log| && Wire.Mentions(log[j], r)
  }

  ghost predicate LinkInvariant(l: Link, log: seq<ClientMessage>) {
    && S.Invariant(l.conn)
    && l.read <= |log| && l.delivered <= |l.conn.sent|
    && |l.origins| == |l.conn.tasks|
    && (forall t :: 0 <= t < |l.origins| ==> OriginFits(l, log, t))
    && (forall t, u :: 0 <= t < u < |l.origins| ==> l.origins[t] < l.origins[u])
    && (forall x <- l.conn.sent :: AnswerFits(l, log, x))
  }

  /** Task t was created for the submission at its origin. */
  predicate OriginFits(l: Link, log: seq<ClientMessage>, t: nat)
    requires t < |l.origins|
  {
    && l.origins[t] < l.read && l.origins[t] < |log| && t < |l.conn.tasks|
    && l.conn.tasks[t].message == log[l.origins[t]]
    && Wire.Submits(log[l.origins[t]], l.conn.tasks[t].request)
    && (l.conn.tasks[t].kind == S.ChatTask <==> log[l.origins[t]].Chat?)
  }

  ghost predicate AnswerFits(l: Link, log: seq<ClientMessage>, x: S.Sent) {
    x.author.Handler? && !x.event.Pong? && x.event.request != UnknownId ==> Mentioned(log, l.read, x.event.request)
  }

  /** Nothing a connection has said speaks of a request its client never mentioned. */
  lemma UnsentIsUnspoken(l: Link, log: seq<ClientMessage>, n: nat, r: RequestId)
    requires LinkInvariant(l, log) && n <= |l.conn.sent| && r != UnknownId
    requires forall m <- log :: !Wire.Mentions(m, r)
    ensures About(l.conn.sent[..n], r) == []
  {
    if n > 0 {
      UnsentIsUnspoken(l, log, n - 1, r);
      var x := l.conn.sent[n - 1];
      assert l.conn.sent[..n][..n - 1] == l.conn.sent[..n - 1];
      assert x in l.conn.sent && AnswerFits(l, log, x) && S.AuthorFits(l.conn, x);
      forall j | 0 <= j < |log|
        ensures !Wire.Mentions(log[j], r)
      {
        assert log[j] in log;
      }
      assert x.event.Pong? || x.event.request != r by {
        if !x.author.Handler? {
          assert OriginFits(l, log, x.author.task);
        }
      }
    }
  }

  /** Two tasks of one connection answer two submissions, so no two of them share a request of this page. */
  lemma OneTaskPerRequest(s: Sock.Service, i: nat, l: Link, t: nat, u: nat)
    requires i < |s.sockets| && LinkInvariant(l, s.sockets[i].sent)
    requires t < |l.conn.tasks| && u < |l.conn.tasks| && l.conn.tasks[t].request == l.conn.tasks[u].request
    requires Wire.SentOnce(s, l.conn.tasks[t].request)
    ensures t == u
  {
    assert OriginFits(l, s.sockets[i].sent, t) && OriginFits(l, s.sockets[i].sent, u);
    assert Wire.At(s, i, l.origins[t]) && Wire.At(s, i, l.origins[u]);
    assert Wire.Submits(Wire.MessageAt(s, i, l.origins[t]), l.conn.tasks[t].request);
    assert Wire.Submits(Wire.MessageAt(s, i, l.origins[u]), l.conn.tasks[t].request);
  }

  /** When only task t speaks of r, what is said about r is what task t says. */
  lemma {:induction false} AboutIsOwn(sent: seq<S.Sent>, r: RequestId, t: nat)
    requires forall x <- sent :: (!x.event.Pong? && x.event.request == r) <==> x.author == S.By(t)
    ensures About(sent, r) == S.Own(sent, t)
  {
    if sent != [] {
      assert sent[|sent| - 1] in sent;
      AboutIsOwn(sent[..|sent| - 1], r, t);
    }
  }

  lemma {:induction false} OwnPrefix(sent: seq<S.Sent>, n: nat, t: nat)
    requires n <= |sent|
    ensures S.Own(sent[..n], t) <= S.Own(sent, t)
    decreases |sent|
  {
    if n < |sent| {
      OwnPrefix(sent[..|sent| - 1], n, t);
      assert sent[..|sent| - 1][..n] == sent[..n];
    } else {
      assert sent[..n] == sent;
    }
  }

  /** Events the page takes as part of an answer. */
  predicate Streaming(event: ServerEvent) {
    event.Started? || event.Chunk?
  }

  /** The last entry of a log that speaks of r. */
  lemma {:induction false} LastAbout(sent: seq<S.Sent>, r: RequestId) returns (k: nat)
    requires About(sent, r) != []
    ensures k < |sent| && !sent[k].event.Pong? && sent[k].event.request == r
    ensures var about := About(sent, r); sent[k].event == about[|about| - 1]
  {
    k := |sent| - 1;
    if sent[k].event.Pong? || sent[k].event.request != r {
      k := LastAbout(sent[..k], r);
    }
  }

  lemma {:induction false} AboutContains(sent: seq<S.Sent>, k: nat, r: RequestId)
    requires k < |sent| && !sent[k].event.Pong? && sent[k].event.request == r
    ensures sent[k].event in About(sent, r)
  {
    if k < |sent| - 1 {
      AboutContains(sent[..|sent| - 1], k, r);
    }
  }

  /** Events that only tasks say. */
  predicate TaskEvent(event: ServerEvent) {
    Streaming(event) || event.Completed? || event.AgentEvent?
  }

  /** If a connection has so far said nothing about r but what only tasks say, one task for r has said all of it. */
  lemma OneTaskSpeaks(s: Sock.Service, i: nat, l: Link, n: nat, r: RequestId) returns (t: nat)
    requires i < |s.sockets| && LinkInvariant(l, s.sockets[i].sent) && n <= |l.conn.sent|
    requires Wire.SentOnce(s, r)
    requires var about := About(l.conn.sent[..n], r);
             about != [] && forall event <- about :: TaskEvent(event)
    ensures t < |l.conn.tasks| && l.conn.tasks[t].request == r
    ensures var about := About(l.conn.sent[..n], r);
            && about == S.Own(l.conn.sent[..n], t) && about <= l.conn.tasks[t].log
            && if about[|about| - 1].AgentEvent? then l.conn.tasks[t].kind == S.AgentTask
               else l.conn.tasks[t].kind == S.ChatTask && S.ChatLog(l.conn.tasks[t])
  {
    var sent := l.conn.sent[..n];
    var k := LastAbout(sent, r);
    t := SpeakerOf(l, s.sockets[i].sent, k);
    OnlySpeaker(s, i, l, n, r, t);
    OwnPrefix(l.conn.sent, n, t);
    assert S.TaskInvariant(l.conn, t) && l.conn.tasks[t] in l.conn.tasks;
  }

  /** When all that is said about r is what only tasks say, it is what the task for r says. */
  lemma OnlySpeaker(s: Sock.Service, i: nat, l: Link, n: nat, r: RequestId, t: nat)
    requires i < |s.sockets| && LinkInvariant(l, s.sockets[i].sent) && n <= |l.conn.sent|
    requires Wire.SentOnce(s, r)
    requires forall event <- About(l.conn.sent[..n], r) :: TaskEvent(event)
    requires t < |l.conn.tasks| && l.conn.tasks[t].request == r
    ensures About(l.conn.sent[..n], r) == S.Own(l.conn.sent[..n], t)
  {
    var sent := l.conn.sent[..n];
    forall x | x in sent
      ensures (!x.event.Pong? && x.event.request == r) <==> x.author == S.By(t)
    {
      var j :| 0 <= j < |sent| && sent[j] == x;
      assert S.AuthorFits(l.conn, l.conn.sent[j]);
      if !x.event.Pong? && x.event.request == r {
        AboutContains(sent, j, r);
        var u := SpeakerOf(l, s.sockets[i].sent, j);
        OneTaskPerRequest(s, i, l, t, u);
      }
    }
    AboutIsOwn(sent, r, t);
  }

  /** Who says a thing that only tasks say: a task of the right kind, about its own request. */
  lemma SpeakerOf(l: Link, log: seq<ClientMessage>, k: nat) returns (t: nat)
    requires LinkInvariant(l, log) && k < |l.conn.sent|
    requires TaskEvent(l.conn.sent[k].event)
    ensures l.conn.sent[k].author == S.By(t) && t < |l.conn.tasks|
    ensures l.conn.tasks[t].request == l.conn.sent[k].event.request
    ensures l.conn.tasks[t].kind == if l.conn.sent[k].event.AgentEvent? then S.AgentTask else S.ChatTask
  {
    var x := l.conn.sent[k];
    assert S.AuthorFits(l.conn, x);
    t := x.author.task;
  }

  // ---------------------------------------------------------------- what a task explains

  /** content answers r with chunks of this task: a beginning of them, or all of them when the answer is complete. */
  ghost predicate Explains(task: S.Task, r: RequestId, content: string, complete: bool) {
    && task.kind == S.ChatTask && task.request == r && P.Invariant(task.stream)
    && FlatPrefix(content, P.Yielded(task.stream))
    && (complete ==> task.stream.result == Some(P.Returned) && content == Flat(P.Yielded(task.stream)))
  }

  lemma ExplainsStays(a: S.Task, b: S.Task, r: RequestId, content: string, complete: bool)
    requires Explains(a, r, content, complete) && S.TaskGrows(a, b) && P.Invariant(b.stream)
    ensures Explains(b, r, content, complete)
  {
    var k :| 0 <= k <= |P.Yielded(a.stream)| && content == Flat(P.Yielded(a.stream)[..k]);
    assert P.Yielded(b.stream)[..k] == P.Yielded(a.stream)[..k];
  }

  /** Parts of an answer said so far by a chat task make a beginning of its chunks. */
  lemma PartExplains(l: Link, log: seq<ClientMessage>, t: nat, events: seq<ServerEvent>)
    requires LinkInvariant(l, log) && t < |l.conn.tasks| && l.conn.tasks[t].kind == S.ChatTask
    requires events <= l.conn.tasks[t].log && forall event <- events :: Streaming(event)
    ensures Explains(l.conn.tasks[t], l.conn.tasks[t].request, Flat(Texts(events)), false)
  {
    var task := l.conn.tasks[t];
    assert S.TaskInvariant(l.conn, t) && task in l.conn.tasks;
    var opening := S.Opening(task.request, task.stream);
    assert |opening| < |task.log| ==> !Streaming(task.log[|opening|]);
    assert |events| <= |opening|;
    assert events <= opening;
    TextsOfPrefix(events, opening);
    TextsOfOpening(task.request, P.Yielded(task.stream));
    assert Texts(events) == P.Yielded(task.stream)[..|Texts(events)|];
  }

  /** Once the task has said completed, the parts before it are all its chunks. */
  lemma CompletionExplains(l: Link, log: seq<ClientMessage>, t: nat, events: seq<ServerEvent>, done: ServerEvent)
    requires LinkInvariant(l, log) && t < |l.conn.tasks| && l.conn.tasks[t].kind == S.ChatTask
    requires events + [done] <= l.conn.tasks[t].log && done.Completed?
    requires forall event <- events :: Streaming(event)
    ensures Explains(l.conn.tasks[t], l.conn.tasks[t].request, Flat(Texts(events)), true)
  {
    var task := l.conn.tasks[t];
    assert S.TaskInvariant(l.conn, t) && task in l.conn.tasks;
    CompletedLog(task, events, done);
    TextsOfOpening(task.request, P.Yielded(task.stream));
    assert P.Yielded(task.stream)[..|P.Yielded(task.stream)|] == P.Yielded(task.stream);
  }

  /** A chat task that has said completed had said all its chunks, and its stream returned. */
  lemma CompletedLog(task: S.Task, events: seq<ServerEvent>, done: ServerEvent)
    requires S.ChatLog(task) && events + [done] <= task.log && done.Completed?
    requires forall event <- events :: Streaming(event)
    ensures events == S.Opening(task.request, task.stream) && task.stream.result == Some(P.Returned)
  {
    var opening := S.Opening(task.request, task.stream);
    assert task.log[|events|] == done;
    assert forall j :: 0 <= j < |opening| && j < |task.log| ==> !task.log[j].Completed?;
    assert |events| == |opening| && opening <= task.log;
    assert events == task.log[..|events|] == opening;
  }

  // ---------------------------------------------------------------- the invariant of the whole system

  /** The page has turned the events heard so far about its request into the answer being written. */
  ghost predicate Heard(c: W.Client, events: seq<ServerEvent>) {
    && (forall event <- events :: Streaming(event))
    && W.Draft(c) == Flat(Texts(events))
    && if c.assistant.Some? then events != [] else forall event <- events :: !event.Started?
  }

  function HeardAbout(l: Link, r: RequestId): seq<ServerEvent>
    requires l.delivered <= |l.conn.sent|
  {
    About(l.conn.sent[..l.delivered], r)
  }

  ghost predicate WritingInvariant(s: System)
    requires forall l <- s.links :: l.delivered <= |l.conn.sent|
  {
    var c, current := s.app.client, s.app.service.current;
    && (c.assistant.Some? ==>
          && c.state.active.Some? && current.Some? && c.assistant.value in s.answers
          && s.answers[c.assistant.value] == Answer(c.state.active.value, current.value, false))
    && (c.state.active.Some? && c.pending.None? && c.state.mode == W.DirectMode ==>
          && current.Some? && current.value < |s.links|
          && Heard(c, HeardAbout(s.links[current.value], c.state.active.value)))
  }

  ghost predicate Explained(links: seq<Link>, a: Answer, content: string) {
    && a.socket < |links|
    && exists t :: 0 <= t < |links[a.socket].conn.tasks| &&
         Explains(links[a.socket].conn.tasks[t], a.request, content, a.complete)
  }

  ghost predicate AnswersInvariant(s: System) {
    && (forall id <- s.answers :: id <= s.app.client.messageCounter)
    && (forall m <- s.app.client.state.messages :: m.id in s.answers ==> Explained(s.links, s.answers[m.id], m.content))
  }

  ghost predicate LinksInvariant(s: System) {
    && |s.links| == |s.app.service.sockets|
    && (forall i :: 0 <= i < |s.links| ==> LinkInvariant(s.links[i], s.app.service.sockets[i].sent))
  }

  ghost predicate Invariant(s: System) {
    && W.AppInvariant(s.app) && Wire.Invariant(s.app)
    && LinksInvariant(s) && WritingInvariant(s) && AnswersInvariant(s)
  }

  // ---------------------------------------------------------------- links

  lemma LogGrows(l: Link, log: seq<ClientMessage>, longer: seq<ClientMessage>)
    requires LinkInvariant(l, log) && log <= longer
    ensures LinkInvariant(l, longer)
  {
    forall x | x in l.conn.sent
      ensures AnswerFits(l, longer, x)
    {
      assert AnswerFits(l, log, x);
      ReadGrows(log, l.read, longer, l.read, x.event);
    }
    forall t | 0 <= t < |l.origins|
      ensures OriginFits(l, longer, t)
    {
      assert OriginFits(l, log, t);
    }
  }

  lemma ReadGrows(log: seq<ClientMessage>, n: nat, longer: seq<ClientMessage>, m: nat, event: ServerEvent)
    requires log <= longer && n <= m <= |longer| && n <= |log|
    ensures !event.Pong? && Mentioned(log, n, event.request) ==> Mentioned(longer, m, event.request)
  {
    if !event.Pong? && Mentioned(log, n, event.request) {
      var j :| 0 <= j < n <= |log| && Wire.Mentions(log[j], event.request);
      assert Wire.Mentions(longer[j], event.request);
    }
  }

  lemma ServerMovesLink(l: Link, log: seq<ClientMessage>, move: S.Step)
    requires LinkInvariant(l, log) && !S.IsReceive(move)
    ensures var conn := S.Next(l.conn, move);
            && LinkInvariant(l.(conn := conn), log)
            && l.conn.sent <= conn.sent && |conn.tasks| == |l.conn.tasks|
            && forall t :: 0 <= t < |l.conn.tasks| ==> S.TaskGrows(l.conn.tasks[t], conn.tasks[t])
  {
    var news := S.TasksGrow(l.conn, move);
    S.NextKeepsInvariant(l.conn, move);
    var m := l.(conn := S.Next(l.conn, move));
    forall x | x in m.conn.sent
      ensures AnswerFits(m, log, x)
    {
      assert x in l.conn.sent ==> AnswerFits(l, log, x);
    }
    forall t | 0 <= t < |m.origins|
      ensures OriginFits(m, log, t)
    {
      assert OriginFits(l, log, t);
    }
  }

  lemma ReceivingNews(conn: S.Conn, m: ClientMessage, step: S.Step) returns (news: seq<S.Sent>)
    requires S.Invariant(conn) && conn.phase.Receiving?
    requires step.HandlerReceives? ==> step.message == m
    requires step.HandlerReceives? || step == S.HandlerReceivesInvalid(if m.Ping? then UnknownId else m.request)
    ensures var r := S.Next(conn, step);
            && r.sent == conn.sent + news
            && (forall x <- news :: x.author.Handler? &&
                 (x.event.Pong? || x.event.request == UnknownId || Wire.Mentions(m, x.event.request)))
            && |conn.tasks| <= |r.tasks| <= |conn.tasks| + 1
            && (forall t :: 0 <= t < |conn.tasks| ==> S.TaskGrows(conn.tasks[t], r.tasks[t]))
            && (|r.tasks| > |conn.tasks| ==>
                  var task := r.tasks[|conn.tasks|];
                  task.message == m && Wire.Submits(m, task.request) && (task.kind == S.ChatTask <==> m.Chat?))
  {
    if step.HandlerReceives? {
      news := S.ReceivingAdds(conn, m, step.maxRetries, step.baseDelay, step.available);
    } else {
      news := if conn.open then [S.Sent(S.Handler, Error(step.request, S.INVALID_REQUEST))] else [];
    }
  }

  lemma ServerReceivesLink(s: System, i: nat, step: S.Step)
    requires LinksInvariant(s) && CanReceive(s, i)
    requires var m := s.app.service.sockets[i].sent[s.links[i].read];
             || (step.HandlerReceives? && step.message == m)
             || step == S.HandlerReceivesInvalid(if m.Ping? then UnknownId else m.request)
    ensures var l, r := s.links[i], ServerReceive(s, i, step).links[i];
            && LinkInvariant(r, s.app.service.sockets[i].sent)
            && r.delivered == l.delivered && l.conn.sent <= r.conn.sent && |l.conn.tasks| <= |r.conn.tasks|
            && forall t :: 0 <= t < |l.conn.tasks| ==> S.TaskGrows(l.conn.tasks[t], r.conn.tasks[t])
  {
    var l, log := s.links[i], s.app.service.sockets[i].sent;
    var r, m := ServerReceive(s, i, step).links[i], log[l.read];
    var news := ReceivingNews(l.conn, m, step);
    S.NextKeepsInvariant(l.conn, step);
    forall x | x in r.conn.sent
      ensures AnswerFits(r, log, x)
    {
      if x in l.conn.sent {
        assert AnswerFits(l, log, x);
        ReadGrows(log, l.read, log, r.read, x.event);
      } else {
        assert x in news;
        assert !x.event.Pong? && x.event.request != UnknownId ==> Wire.Mentions(log[l.read], x.event.request);
      }
    }
    forall t | 0 <= t < |r.origins|
      ensures OriginFits(r, log, t)
    {
      assert t < |l.origins| ==> OriginFits(l, log, t);
    }
    forall t, u | 0 <= t < u < |r.origins|
      ensures r.origins[t] < r.origins[u]
    {
      assert OriginFits(l, log, t);
    }
  }

  /** One link moves on the server's side; the page does not notice yet. */
  lemma LinkMoves(s: System, i: nat, r: Link)
    requires Invariant(s) && i < |s.links| && LinkInvariant(r, s.app.service.sockets[i].sent)
    requires var l := s.links[i];
             && r.delivered == l.delivered && l.conn.sent <= r.conn.sent && |l.conn.tasks| <= |r.conn.tasks|
             && forall t :: 0 <= t < |l.conn.tasks| ==> S.TaskGrows(l.conn.tasks[t], r.conn.tasks[t])
    ensures Invariant(s.(links := s.links[i := r]))
  {
    var l, n := s.links[i], s.(links := s.links[i := r]);
    assert r.conn.sent[..r.delivered] == l.conn.sent[..l.delivered];
    forall m | m in s.app.client.state.messages && m.id in s.answers
      ensures Explained(n.links, s.answers[m.id], m.content)
    {
      var a := s.answers[m.id];
      var t :| 0 <= t < |s.links[a.socket].conn.tasks| &&
               Explains(s.links[a.socket].conn.tasks[t], a.request, m.content, a.complete);
      if a.socket == i {
        assert S.TaskInvariant(r.conn, t);
        ExplainsStays(l.conn.tasks[t], r.conn.tasks[t], a.request, m.content, a.complete);
      }
      assert Explains(n.links[a.socket].conn.tasks[t], a.request, m.content, a.complete);
    }
  }

  // ---------------------------------------------------------------- the page moves by itself

  lemma UnsentLog(service: Sock.Service, i: nat, r: RequestId)
    requires i < |service.sockets| && Wire.Unsent(service, r)
    ensures forall m <- service.sockets[i].sent :: !Wire.Mentions(m, r)
  {
    forall m | m in service.sockets[i].sent
      ensures !Wire.Mentions(m, r)
    {
      var j :| 0 <= j < |service.sockets[i].sent| && service.sockets[i].sent[j] == m;
      assert Wire.At(service, i, j) && Wire.MessageAt(service, i, j) == m;
    }
  }

  /** links holds the links of s and perhaps a fresh one, for the sockets of a page that has moved by itself. */
  ghost predicate PageMoved(s: System, app: W.App, links: seq<Link>) {
    && Invariant(s) && W.AppInvariant(app) && Wire.Invariant(app) && Wire.Evolves(s.app, app)
    && (links == s.links || links == s.links + [FreshLink])
    && |links| == |app.service.sockets|
  }

  lemma PageKeepsLinks(s: System, app: W.App, links: seq<Link>)
    requires PageMoved(s, app, links)
    ensures LinksInvariant(System(app, links, s.answers))
  {
    forall i | 0 <= i < |links|
      ensures LinkInvariant(links[i], app.service.sockets[i].sent)
    {
      if i < |s.links| {
        LogGrows(s.links[i], s.app.service.sockets[i].sent, app.service.sockets[i].sent);
      } else {
        S.InitialInvariant();
      }
    }
  }

  /** A request nobody mentioned before has not been spoken of on any connection. */
  lemma NothingHeardYet(s: System, app: W.App, links: seq<Link>, i: nat, r: RequestId)
    requires PageMoved(s, app, links) && i < |links| && Wire.Unsent(s.app.service, r) && r.WorkspaceId?
    requires links[i].delivered <= |links[i].conn.sent|
    ensures HeardAbout(links[i], r) == []
  {
    if i < |s.links| {
      UnsentLog(s.app.service, i, r);
      UnsentIsUnspoken(s.links[i], s.app.service.sockets[i].sent, s.links[i].delivered, r);
    }
  }

  lemma PageKeepsWriting(s: System, app: W.App, links: seq<Link>)
    requires PageMoved(s, app, links) && LinksInvariant(System(app, links, s.answers))
    ensures WritingInvariant(System(app, links, s.answers))
  {
    var c, d := s.app.client, app.client;
    if d.state.active.Some? && d.pending.None? {
      if Wire.Unsent(s.app.service, d.state.active.value) && d.assistant.None? {
        NothingHeardYet(s, app, links, app.service.current.value, d.state.active.value);
      } else {
        SameHeard(s, app, links);
      }
    }
  }

  /** The answer in progress is the one that was there, over the same socket. */
  lemma SameHeard(s: System, app: W.App, links: seq<Link>)
    requires PageMoved(s, app, links) && LinksInvariant(System(app, links, s.answers))
    requires app.client.state.active.Some? && app.client.pending.None?
    requires Wire.SameAnswer(s.app.client, app.client) && app.service.current == s.app.service.current
    ensures WritingInvariant(System(app, links, s.answers))
  {
  }

  lemma PageKeepsAnswers(s: System, app: W.App, links: seq<Link>)
    requires PageMoved(s, app, links)
    ensures AnswersInvariant(System(app, links, s.answers))
  {
    forall m | m in app.client.state.messages && m.id in s.answers
      ensures Explained(links, s.answers[m.id], m.content)
    {
      var a := s.answers[m.id];
      assert Explained(s.links, a, m.content);
      assert links[a.socket] == s.links[a.socket];
    }
  }

  /** The page and its service have moved without a server event. */
  lemma PageEvolves(s: System, app: W.App, links: seq<Link>)
    requires PageMoved(s, app, links)
    ensures Invariant(System(app, links, s.answers)) &&
      Record(System(app, links, s.answers)) == System(app, links, s.answers)
  {
    PageKeepsLinks(s, app, links);
    PageKeepsWriting(s, app, links);
    PageKeepsAnswers(s, app, links);
    var id := app.client.assistant;
    if id.Some? {
      assert s.answers[id.value := s.answers[id.value]] == s.answers;
    }
  }

  lemma PageMovesKeepsInvariant(s: System, step: W.Step)
    requires Invariant(s) && !step.Receives?
    ensures Invariant(Next(s, PageMoves(step))) && Next(s, PageMoves(step)).answers == s.answers
  {
    var app := W.Next(s.app, step);
    W.NextKeepsInvariant(s.app, step);
    Wire.StepEvolves(s.app, step);
    assert s.links + [] == s.links;
    PageEvolves(s, app, s.links + if |app.service.sockets| > |s.app.service.sockets| then [FreshLink] else []);
  }

  lemma OtherPageKeepsInvariant(s: System, m: ClientMessage)
    requires Invariant(s) && Sock.CanSend(s.app.service) && (m.Ping? || m.request.ChatId?)
    ensures Invariant(Next(s, OtherPageSends(m)))
  {
    Wire.HarmlessSend(s.app, m);
    PageEvolves(s, s.app.(service := Sock.Send(s.app.service, m)), s.links);
  }

  // ---------------------------------------------------------------- an event arrives

  lemma AboutNext(sent: seq<S.Sent>, n: nat, r: RequestId)
    requires n < |sent|
    ensures About(sent[..n + 1], r) ==
              About(sent[..n], r) + if !sent[n].event.Pong? && sent[n].event.request == r then [sent[n].event] else []
  {
    assert sent[..n + 1][..n] == sent[..n];
  }

  function PartText(event: ServerEvent): string {
    if event.Chunk? then event.content else ""
  }

  /** The page takes one more part of the answer it is writing. */
  lemma HeardNext(c: W.Client, events: seq<ServerEvent>, event: ServerEvent)
    requires W.ClientInvariant(c) && c.state.connection == Sock.Connected && c.state.mode == W.DirectMode
    requires Streaming(event) && c.state.active == Some(event.request) && Heard(c, events)
    ensures var d := W.HandleServerEvent(c, event);
            W.Writes(c, d, PartText(event)) && Heard(d, events + [event])
  {
    if event.Started? {
      StartedHeard(c, events, event);
    } else {
      ChunkHeard(c, events, event);
    }
  }

  lemma StartedHeard(c: W.Client, events: seq<ServerEvent>, event: ServerEvent)
    requires W.ClientInvariant(c) && c.state.mode == W.DirectMode && c.state.running && c.pending.None?
    requires event.Started? && Heard(c, events)
    ensures var d := W.DirectStarted(c, event.model); W.Writes(c, d, "") && Heard(d, events + [event])
  {
    AppendEvent(events, event);
    W.StartedWrites(c, event.model);
    assert Texts(events) + [] == Texts(events) && W.Draft(c) + "" == W.Draft(c);
  }

  lemma ChunkHeard(c: W.Client, events: seq<ServerEvent>, event: ServerEvent)
    requires W.ClientInvariant(c) && c.state.mode == W.DirectMode && c.state.running && c.pending.None?
    requires event.Chunk? && Heard(c, events)
    ensures var d := W.DirectChunk(c, event.content); W.Writes(c, d, event.content) && Heard(d, events + [event])
  {
    AppendEvent(events, event);
    AppendText(Texts(events), event.content);
    W.ChunkWrites(c, event.content);
  }

  /** Any other event about the active request ends it; the answer keeps its text or is removed when empty. */
  lemma EndingEvent(c: W.Client, event: ServerEvent)
    requires W.ClientInvariant(c) && c.state.connection == Sock.Connected && c.state.mode == W.DirectMode
    requires event.Completed? || event.Error? || event.Cancelled?
    requires c.state.active == Some(event.request)
    ensures var d := W.HandleServerEvent(c, event);
            && d.state.active.None? && d.assistant.None? && d.messageCounter == c.messageCounter
            && forall m <- d.state.messages :: exists o <- c.state.messages :: o.id == m.id && o.content == m.content
  {
    var d := W.HandleServerEvent(c, event);
    if event.Completed? {
      if c.assistant.Some? {
        W.UpdateLast(c.state.messages, c.messageCounter, "", event.model);
        var n := |c.state.messages| - 1;
        assert c.state.messages == c.state.messages[..n] + [c.state.messages[n]];
      }
    } else {
      W.RemovesTheLast(c);
    }
    forall m | m in d.state.messages
      ensures exists o <- c.state.messages :: o.id == m.id && o.content == m.content
    {
      var last := if c.assistant.Some? then c.state.messages[|c.state.messages| - 1] else m;
      var o := if m in c.state.messages then m else last;
      assert o in c.state.messages && o.id == m.id && o.content == m.content;
    }
  }

  /** In agent mode no event writes into a message that is already there. */
  lemma AgentModeEvent(c: W.Client, event: ServerEvent)
    requires W.ClientInvariant(c) && c.state.connection == Sock.Connected && c.state.mode == W.AgentMode
    ensures var d := W.HandleServerEvent(c, event);
            && d.assistant.None? && d.state.mode == W.AgentMode && c.messageCounter <= d.messageCounter
            && forall m <- d.state.messages :: m in c.state.messages || m.id > c.messageCounter
  {
    W.RemovesTheLast(c);
  }

  /** No agent task and no acknowledgement of agent work speaks about a request of direct mode. */
  lemma DirectEvents(s: System, i: nat, k: nat)
    requires Invariant(s) && i < |s.links| && k < |s.links[i].conn.sent|
    requires s.app.client.state.mode == W.DirectMode && !s.links[i].conn.sent[k].event.Pong?
    requires s.app.client.state.active == Some(s.links[i].conn.sent[k].event.request)
    ensures !s.links[i].conn.sent[k].event.AgentEvent?
  {
    var l, x := s.links[i], s.links[i].conn.sent[k];
    assert S.AuthorFits(l.conn, x);
    if x.author.By? {
      var t := x.author.task;
      assert OriginFits(l, s.app.service.sockets[i].sent, t);
      assert Wire.At(s.app.service, i, l.origins[t]);
      assert Wire.Submits(Wire.MessageAt(s.app.service, i, l.origins[t]), x.event.request);
    }
  }

  /** The state of affairs when the next event of socket i is about the request being answered in direct mode. */
  ghost predicate AboutToHear(s: System, i: nat) {
    && Invariant(s) && CanDeliver(s, i)
    && !s.links[i].conn.sent[s.links[i].delivered].event.Pong?
    && s.app.client.state.active == Some(s.links[i].conn.sent[s.links[i].delivered].event.request)
    && s.app.client.state.mode == W.DirectMode
  }

  function NextEvent(s: System, i: nat): ServerEvent
    requires CanDeliver(s, i)
  {
    s.links[i].conn.sent[s.links[i].delivered].event
  }

  function Heeded(s: System, i: nat): Link
    requires CanDeliver(s, i)
  {
    s.links[i].(delivered := s.links[i].delivered + 1)
  }

  lemma PartDelivered(s: System, i: nat)
    requires AboutToHear(s, i) && Streaming(NextEvent(s, i))
    ensures var d := W.HandleServerEvent(s.app.client, NextEvent(s, i));
            Deliver(s, i) == System(
              W.App(d, s.app.service),
              s.links[i := Heeded(s, i)],
              if d.assistant.Some? then s.answers[d.assistant.value := Answer(NextEvent(s, i).request, i, false)]
                else s.answers)
  {
    var c, event := s.app.client, NextEvent(s, i);
    HeardNext(c, HeardAbout(s.links[i], event.request), event);
    DeliverUnfolds(s, i);
  }

  lemma DeliverUnfolds(s: System, i: nat)
    requires CanDeliver(s, i)
    ensures var event := NextEvent(s, i);
            Deliver(s, i) == Record(System(
              W.App(W.HandleServerEvent(s.app.client, event), s.app.service),
              s.links[i := Heeded(s, i)],
              MarkComplete(s.answers, Completes(s.app.client, event))))
  {
  }

  lemma Arrived(s: System, i: nat)
    requires CanDeliver(s, i)
    ensures
      var n := Deliver(s, i);
      && n.app == W.App(W.HandleServerEvent(s.app.client, NextEvent(s, i)), s.app.service)
      && n.links == s.links[i := Heeded(s, i)]
      && n.app == W.Next(s.app, W.Receives(i, NextEvent(s, i)))
  {
    DeliverUnfolds(s, i);
  }

  /** What will have been heard about the request of the next event once it is there. */
  function HeardThen(s: System, i: nat): seq<ServerEvent>
    requires CanDeliver(s, i) && !NextEvent(s, i).Pong?
  {
    HeardAbout(Heeded(s, i), NextEvent(s, i).request)
  }

  /** The page writes the part that arrives into its draft. */
  ghost predicate PartWritten(s: System, i: nat)
    requires CanDeliver(s, i) && !NextEvent(s, i).Pong?
  {
    var d := W.HandleServerEvent(s.app.client, NextEvent(s, i));
    W.Writes(s.app.client, d, PartText(NextEvent(s, i))) && Heard(d, HeardThen(s, i))
  }

  /** What the page has heard once the part is there, written into its draft. */
  lemma PartHeard(s: System, i: nat)
    requires AboutToHear(s, i) && Streaming(NextEvent(s, i))
    ensures PartWritten(s, i)
  {
    var c, event := s.app.client, NextEvent(s, i);
    AboutNext(s.links[i].conn.sent, s.links[i].delivered, event.request);
    HeardNext(c, HeardAbout(s.links[i], event.request), event);
  }

  /** The task whose chunks make up what will have been heard with the next event. */
  lemma PartSpeaker(service: Sock.Service, i: nat, l: Link) returns (t: nat)
    requires i < |service.sockets| && LinkInvariant(l, service.sockets[i].sent) && l.delivered < |l.conn.sent|
    requires Streaming(l.conn.sent[l.delivered].event) && Wire.SentOnce(service, l.conn.sent[l.delivered].event.request)
    requires
      var h, r := l.(delivered := l.delivered + 1), l.conn.sent[l.delivered].event.request;
      forall event <- HeardAbout(h, r) :: Streaming(event)
    ensures t < |l.conn.tasks|
    ensures
      var h, r := l.(delivered := l.delivered + 1), l.conn.sent[l.delivered].event.request;
      Explains(l.conn.tasks[t], r, Flat(Texts(HeardAbout(h, r))), false)
  {
    var h, r, log := l.(delivered := l.delivered + 1), l.conn.sent[l.delivered].event.request, service.sockets[i].sent;
    AboutNext(l.conn.sent, l.delivered, r);
    HeededLink(l, log);
    var heard := HeardAbout(h, r);
    assert heard[|heard| - 1] in heard;
    t := OneTaskSpeaks(service, i, h, h.delivered, r);
    PartExplains(h, log, t, heard);
  }

  /** The connection keeps its invariant, and its client has submitted the request once. */
  lemma SubmittedOnce(s: System, i: nat)
    requires AboutToHear(s, i)
    ensures LinkInvariant(s.links[i], s.app.service.sockets[i].sent)
    ensures Wire.SentOnce(s.app.service, NextEvent(s, i).request)
  {
    assert Wire.SentOnce(s.app.service, WorkspaceId(NextEvent(s, i).request.number));
  }

  /** A part of the answer arrives: the text on the page is still a beginning of one task's chunks. */
  lemma PartArrives(s: System, i: nat)
    requires AboutToHear(s, i) && Streaming(NextEvent(s, i))
    ensures WritingInvariant(Deliver(s, i)) && AnswersInvariant(Deliver(s, i))
  {
    PartHeard(s, i);
    PartKeepsWriting(s, i);
    PartAnswers(s, i);
  }

  lemma PartAnswers(s: System, i: nat)
    requires AboutToHear(s, i) && Streaming(NextEvent(s, i))
    requires PartWritten(s, i)
    ensures AnswersInvariant(Deliver(s, i))
  {
    var t := PartTask(s, i);
    PartKeepsAnswers(s, i, t);
  }

  /** What will have been heard is a beginning of the chunks of task t. */
  ghost predicate PartExplained(s: System, i: nat, t: nat)
    requires CanDeliver(s, i) && !NextEvent(s, i).Pong? && t < |s.links[i].conn.tasks|
  {
    Explains(s.links[i].conn.tasks[t], NextEvent(s, i).request, Flat(Texts(HeardThen(s, i))), false)
  }

  lemma PartTask(s: System, i: nat) returns (t: nat)
    requires AboutToHear(s, i) && Streaming(NextEvent(s, i))
    requires forall event <- HeardThen(s, i) :: Streaming(event)
    ensures t < |s.links[i].conn.tasks| && PartExplained(s, i, t)
  {
    SubmittedOnce(s, i);
    t := PartSpeaker(s.app.service, i, s.links[i]);
  }

  lemma PartKeepsWriting(s: System, i: nat)
    requires AboutToHear(s, i) && Streaming(NextEvent(s, i))
    requires PartWritten(s, i)
    ensures WritingInvariant(Deliver(s, i))
  {
    PartDelivered(s, i);
  }

  lemma PartKeepsAnswers(s: System, i: nat, t: nat)
    requires AboutToHear(s, i) && Streaming(NextEvent(s, i)) && t < |s.links[i].conn.tasks|
    requires PartWritten(s, i) && PartExplained(s, i, t)
    ensures AnswersInvariant(Deliver(s, i))
  {
    var event := NextEvent(s, i);
    var c, d, links := s.app.client, W.HandleServerEvent(s.app.client, event), s.links[i := Heeded(s, i)];
    PartDelivered(s, i);
    var a := Answer(event.request, i, false);
    var answers := if d.assistant.Some? then s.answers[d.assistant.value := a] else s.answers;
    forall m | m in d.state.messages && m.id in answers
      ensures Explained(links, answers[m.id], m.content)
    {
      if d.assistant == Some(m.id) {
        DraftExplained(s, i, t, d, m);
      } else {
        W.WritesOnlyDraft(c, d, PartText(event), m);
        StillExplained(s, links, i, s.answers[m.id], m.content);
      }
    }
    PartAnswersInvariant(s, System(W.App(d, s.app.service), links, answers), PartText(event), a);
  }

  /** The answer being written holds what the page has heard. */
  lemma DraftExplained(s: System, i: nat, t: nat, d: W.Client, m: W.Message)
    requires CanDeliver(s, i) && t < |s.links[i].conn.tasks| && !NextEvent(s, i).Pong?
    requires PartExplained(s, i, t) && Heard(d, HeardThen(s, i))
    requires W.ClientInvariant(d) && m in d.state.messages && d.assistant == Some(m.id)
    ensures Explained(s.links[i := Heeded(s, i)], Answer(NextEvent(s, i).request, i, false), m.content)
  {
    LastHasId(d, m);
    assert Explains(s.links[i := Heeded(s, i)][i].conn.tasks[t], NextEvent(s, i).request, m.content, false);
  }

  lemma PartAnswersInvariant(s: System, n: System, text: string, a: Answer)
    requires AnswersInvariant(s) && W.ClientInvariant(s.app.client) && W.Writes(s.app.client, n.app.client, text)
    requires n.answers == if n.app.client.assistant.Some? then s.answers[n.app.client.assistant.value := a]
      else s.answers
    requires forall m :: m in n.app.client.state.messages && m.id in n.answers ==>
      Explained(n.links, n.answers[m.id], m.content)
    ensures AnswersInvariant(n)
  {
    var d := n.app.client;
    if d.assistant.Some? {
      assert d.state.messages[|d.state.messages| - 1] in d.state.messages;
    }
  }

  lemma LastHasId(c: W.Client, m: W.Message)
    requires W.ClientInvariant(c) && m in c.state.messages && c.assistant == Some(m.id)
    ensures m == c.state.messages[|c.state.messages| - 1]
  {
    var k :| 0 <= k < |c.state.messages| && c.state.messages[k] == m;
  }

  /** Handing over an event leaves the connections' tasks as they are. */
  lemma StillExplained(s: System, links: seq<Link>, i: nat, a: Answer, content: string)
    requires CanDeliver(s, i) && links == s.links[i := Heeded(s, i)]
    requires Explained(s.links, a, content)
    ensures Explained(links, a, content)
  {
    var t :| 0 <= t < |s.links[a.socket].conn.tasks| &&
             Explains(s.links[a.socket].conn.tasks[t], a.request, content, a.complete);
    assert Explains(links[a.socket].conn.tasks[t], a.request, content, a.complete);
  }

  lemma EndDelivered(s: System, i: nat)
    requires AboutToHear(s, i) && !Streaming(NextEvent(s, i))
    ensures var event := NextEvent(s, i);
            && (event.Completed? || event.Error? || event.Cancelled?)
            && Deliver(s, i) == System(
                 W.App(W.HandleServerEvent(s.app.client, event), s.app.service),
                 s.links[i := Heeded(s, i)],
                 MarkComplete(s.answers, Completes(s.app.client, event)))
  {
    DirectEvents(s, i, s.links[i].delivered);
    EndingEvent(s.app.client, NextEvent(s, i));
    DeliverUnfolds(s, i);
  }

  /** The end of the answer arrives: when it is completed, the page holds every chunk. */
  lemma EndArrives(s: System, i: nat)
    requires AboutToHear(s, i) && !Streaming(NextEvent(s, i))
    ensures WritingInvariant(Deliver(s, i)) && AnswersInvariant(Deliver(s, i))
  {
    EndDelivered(s, i);
    EndingEvent(s.app.client, NextEvent(s, i));
    EndKeepsAnswers(s, i);
  }

  /** One message of the page when the end of the answer arrives. */
  lemma EndKeepsAnswer(s: System, i: nat, o: W.Message)
    requires AboutToHear(s, i) && !Streaming(NextEvent(s, i))
    requires o in s.app.client.state.messages && o.id in Deliver(s, i).answers
    ensures Explained(Deliver(s, i).links, Deliver(s, i).answers[o.id], o.content)
  {
    EndDelivered(s, i);
    if Completes(s.app.client, NextEvent(s, i)) == Some(o.id) {
      CompletedAnswer(s, i, o);
    } else {
      assert Explained(s.links, s.answers[o.id], o.content);
      StillExplained(s, s.links[i := Heeded(s, i)], i, s.answers[o.id], o.content);
    }
  }

  lemma CompletedAnswer(s: System, i: nat, o: W.Message)
    requires AboutToHear(s, i) && !Streaming(NextEvent(s, i)) && o in s.app.client.state.messages
    requires Completes(s.app.client, NextEvent(s, i)) == Some(o.id)
    ensures
      var marked := MarkComplete(s.answers, Some(o.id));
      o.id in marked && Explained(s.links[i := Heeded(s, i)], marked[o.id], o.content)
  {
    LastHasId(s.app.client, o);
    CompletionArrives(s, i, o.content);
  }

  lemma EndKeepsAnswers(s: System, i: nat)
    requires AboutToHear(s, i) && !Streaming(NextEvent(s, i))
    ensures AnswersInvariant(Deliver(s, i))
  {
    var n := Deliver(s, i);
    EndDelivered(s, i);
    EndingEvent(s.app.client, NextEvent(s, i));
    forall m | m in n.app.client.state.messages && m.id in n.answers
      ensures Explained(n.links, n.answers[m.id], m.content)
    {
      var o :| o in s.app.client.state.messages && o.id == m.id && o.content == m.content;
      EndKeepsAnswer(s, i, o);
    }
  }

  lemma CompletionArrives(s: System, i: nat, content: string)
    requires AboutToHear(s, i) && NextEvent(s, i).Completed? && s.app.client.assistant.Some?
    requires content == s.app.client.state.messages[|s.app.client.state.messages| - 1].content
    ensures Explained(s.links[i := Heeded(s, i)], Answer(NextEvent(s, i).request, i, true), content)
  {
    var t := CompletionSpeaker(s.app.service, i, s.links[i]);
    assert content == Flat(Texts(HeardAbout(s.links[i], NextEvent(s, i).request)));
    assert Explains(s.links[i := Heeded(s, i)][i].conn.tasks[t], NextEvent(s, i).request, content, true);
  }

  /** The task that says completed had said, in its chunks, all that was heard of its request. */
  lemma CompletionSpeaker(service: Sock.Service, i: nat, l: Link) returns (t: nat)
    requires i < |service.sockets| && LinkInvariant(l, service.sockets[i].sent) && l.delivered < |l.conn.sent|
    requires l.conn.sent[l.delivered].event.Completed? && Wire.SentOnce(service, l.conn.sent[l.delivered].event.request)
    requires forall event <- HeardAbout(l, l.conn.sent[l.delivered].event.request) :: Streaming(event)
    ensures t < |l.conn.tasks|
    ensures var r := l.conn.sent[l.delivered].event.request;
            Explains(l.conn.tasks[t], r, Flat(Texts(HeardAbout(l, r))), true)
  {
    var event := l.conn.sent[l.delivered].event;
    var h := l.(delivered := l.delivered + 1);
    HeededLink(l, service.sockets[i].sent);
    AboutNext(l.conn.sent, l.delivered, event.request);
    t := OneTaskSpeaks(service, i, h, l.delivered + 1, event.request);
    CompletionExplains(h, service.sockets[i].sent, t, HeardAbout(l, event.request), event);
  }

  lemma OtherDelivered(s: System, i: nat)
    requires Invariant(s) && CanDeliver(s, i) && !AboutToHear(s, i)
    ensures var c := s.app.client; var d := W.HandleServerEvent(c, NextEvent(s, i));
            && d.assistant == c.assistant && c.messageCounter <= d.messageCounter
            && (forall m <- d.state.messages :: m in c.state.messages || m.id > c.messageCounter)
            && (d == c || (c.state.mode == W.AgentMode && d.state.mode == W.AgentMode))
            && Deliver(s, i) == System(W.App(d, s.app.service), s.links[i := Heeded(s, i)], s.answers)
  {
    var c, event := s.app.client, NextEvent(s, i);
    if c.state.mode == W.AgentMode {
      AgentModeEvent(c, event);
    }
    if c.assistant.Some? {
      assert s.answers[c.assistant.value := s.answers[c.assistant.value]] == s.answers;
    }
  }

  /** An event about another request, or in agent mode, touches no answer of direct mode. */
  lemma OtherArrives(s: System, i: nat)
    requires Invariant(s) && CanDeliver(s, i) && !AboutToHear(s, i)
    ensures WritingInvariant(Deliver(s, i)) && AnswersInvariant(Deliver(s, i))
  {
    var c, l, n := s.app.client, s.links[i], Deliver(s, i);
    OtherDelivered(s, i);
    if c.state.active.Some? {
      AboutNext(l.conn.sent, l.delivered, c.state.active.value);
      assert HeardAbout(l, c.state.active.value) + [] == HeardAbout(l, c.state.active.value);
    }
    forall m | m in n.app.client.state.messages && m.id in n.answers
      ensures Explained(n.links, n.answers[m.id], m.content)
    {
      StillExplained(s, n.links, i, s.answers[m.id], m.content);
    }
  }

  lemma EventArrivesKeepsInvariant(s: System, i: nat)
    requires Invariant(s) && CanDeliver(s, i)
    ensures Invariant(Deliver(s, i))
  {
    var event := NextEvent(s, i);
    PageHears(s, i);
    HeededLinks(s, i);
    if !AboutToHear(s, i) {
      OtherArrives(s, i);
    } else if Streaming(event) {
      PartArrives(s, i);
    } else {
      EndArrives(s, i);
    }
  }

  /** The page's own invariants when an event arrives. */
  lemma PageHears(s: System, i: nat)
    requires Invariant(s) && CanDeliver(s, i)
    ensures W.AppInvariant(Deliver(s, i).app) && Wire.Invariant(Deliver(s, i).app)
  {
    var event := NextEvent(s, i);
    W.NextKeepsInvariant(s.app, W.Receives(i, event));
    Wire.EventKeepsInvariant(s.app, event);
    assert Deliver(s, i).app == W.Next(s.app, W.Receives(i, event));
  }

  lemma HeededLinks(s: System, i: nat)
    requires LinksInvariant(s) && CanDeliver(s, i)
    ensures LinksInvariant(Deliver(s, i))
  {
    var n := Deliver(s, i);
    forall k | 0 <= k < |n.links|
      ensures LinkInvariant(n.links[k], n.app.service.sockets[k].sent)
    {
      assert LinkInvariant(s.links[k], s.app.service.sockets[k].sent);
      if k == i {
        HeededLink(s.links[i], s.app.service.sockets[i].sent);
      }
    }
  }

  lemma HeededLink(l: Link, log: seq<ClientMessage>)
    requires LinkInvariant(l, log) && l.delivered < |l.conn.sent|
    ensures LinkInvariant(l.(delivered := l.delivered + 1), log)
  {
    var h := l.(delivered := l.delivered + 1);
    forall t | 0 <= t < |l.origins|
      ensures OriginFits(h, log, t)
    {
      assert OriginFits(l, log, t);
    }
    forall x | x in l.conn.sent
      ensures AnswerFits(h, log, x)
    {
      assert AnswerFits(l, log, x);
    }
  }

  // ---------------------------------------------------------------- every run of the system

  lemma NextKeepsInvariant(s: System, step: Step)
    requires Invariant(s)
    ensures Invariant(Next(s, step))
  {
    match step
    case PageMoves(step) =>
      if !step.Receives? {
        PageMovesKeepsInvariant(s, step);
      }
    case OtherPageSends(m) =>
      if Sock.CanSend(s.app.service) && (m.Ping? || m.request.ChatId?) {
        OtherPageKeepsInvariant(s, m);
      }
    case ServerReceives(i, maxRetries, baseDelay, available, valid) =>
      if CanReceive(s, i) {
        var m := s.app.service.sockets[i].sent[s.links[i].read];
        var step := ReceiveStep(m, maxRetries, baseDelay, available, valid);
        ServerReceivesLink(s, i, step);
        LinkMoves(s, i, ServerReceive(s, i, step).links[i]);
      }
    case ServerMoves(i, move) =>
      if i < |s.links| && !S.IsReceive(move) {
        ServerMovesLink(s.links[i], s.app.service.sockets[i].sent, move);
        LinkMoves(s, i, s.links[i].(conn := S.Next(s.links[i].conn, move)));
      }
    case EventArrives(i) =>
      if CanDeliver(s, i) {
        EventArrivesKeepsInvariant(s, i);
      }
  }

  lemma {:induction false} RunKeepsInvariant(s: System, steps: seq<Step>)
    requires Invariant(s)
    ensures Invariant(Run(s, steps))
    decreases |steps|
  {
    if steps != [] {
      NextKeepsInvariant(s, steps[0]);
      RunKeepsInvariant(Next(s, steps[0]), steps[1..]);
    }
  }

  lemma InitialInvariant()
    ensures Invariant(Initial)
  {
    W.InitialAppInvariant();
    Wire.InitialInvariant();
  }
}
