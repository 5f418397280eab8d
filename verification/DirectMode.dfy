/**
 What a reader of the workspace page gets in direct mode, over all runs of the whole system: the
 words of one provider attempt, in order, complete once completed has been handled, and unchanged
 afterwards.
 */
module DirectMode {
  import opened Conversations
  import opened EndToEnd
  import opened Options
  import opened Protocol
  import P = Provider
  import Q = Questions
  import S = Server
  import Sock = SocketService
  import W = Workspace
  import Wire

  /** The chunks the last attempt of the provider produced for a task. */
  function AttemptChunks(task: S.Task): seq<string>
    requires P.WellFormed(task.stream)
  {
    task.stream.produced[task.stream.attempt]
  }

  /** content is what the first k chunks come to of one provider attempt at question q, put by request r. */
  ghost predicate OneAttempt(task: S.Task, r: RequestId, q: string, content: string, k: nat) {
    && task.kind == S.ChatTask && task.request == r && task.message == Chat(r, q) && P.WellFormed(task.stream)
    && k <= |AttemptChunks(task)| && content == Flat(AttemptChunks(task)[..k])
    && P.Yielded(task.stream) == AttemptChunks(task)
  }

  /** Message m of the page is what answer a says it is: a part of one attempt, or all of it once complete. */
  ghost predicate OneAttemptsAnswer(s: System, a: Answer, q: string, content: string) {
    a.socket < |s.links| && exists t, k ::
      && 0 <= t < |s.links[a.socket].conn.tasks|
      && OneAttempt(s.links[a.socket].conn.tasks[t], a.request, q, content, k)
      && (a.complete ==>
            && k == |AttemptChunks(s.links[a.socket].conn.tasks[t])|
            && s.links[a.socket].conn.tasks[t].stream.result == Some(P.Returned))
  }

  /** Message m answers the question number n of the run, and follows it on the transcript. */
  ghost predicate AnswersQuestion(s: System, m: W.Message, a: Answer, asked: seq<Q.Question>, n: nat) {
    && 1 <= n <= |asked| && a.request == WorkspaceId(n)
    && OneAttemptsAnswer(s, a, asked[n - 1].query, m.content)
    && exists u <- s.app.client.state.messages ::
         u.role == W.User && u.id + 1 == m.id && u.content == asked[n - 1].query
  }

  /**
   In every run, over every interleaving of retries, chunks, cancellations, disconnects and
   reconnects, an assistant message of direct mode is the concatenation of a beginning of the
   chunks that one provider attempt produced for the question the user asked, which is the message
   before it; once its completion has been handled it is all of them, and the provider has reported
   its answer as done.
   */
  lemma DirectAnswers(steps: seq<Step>)
    ensures var s := Run(Initial, steps); var asked := AsksIn(Initial, steps);
            forall m <- s.app.client.state.messages :: m.id in s.answers ==>
              s.answers[m.id].request.WorkspaceId? &&
              AnswersQuestion(s, m, s.answers[m.id], asked, s.answers[m.id].request.number)
  {
    EveryRunAsks(steps);
    var s, asked := Run(Initial, steps), AsksIn(Initial, steps);
    forall m | m in s.app.client.state.messages && m.id in s.answers
      ensures s.answers[m.id].request.WorkspaceId?
      ensures AnswersQuestion(s, m, s.answers[m.id], asked, s.answers[m.id].request.number)
    {
      assert Replies(s.app.client.state.messages, m, s.answers[m.id].request, asked);
      ReplyAnswers(s, m, s.answers[m.id], asked);
    }
  }

  lemma ReplyAnswers(s: System, m: W.Message, a: Answer, asked: seq<Q.Question>)
    requires AskedInvariant(s, asked) && Explained(s.links, a, m.content)
    requires Replies(s.app.client.state.messages, m, a.request, asked)
    ensures AnswersQuestion(s, m, a, asked, a.request.number)
  {
    ExplainedByOneAttempt(s, a, m.content, asked);
    var u :| u in s.app.client.state.messages && IsBehind(u, m, a.request, asked);
  }

  lemma ExplainedByOneAttempt(s: System, a: Answer, content: string, asked: seq<Q.Question>)
    requires AskedInvariant(s, asked) && Explained(s.links, a, content) && a.request.WorkspaceId?
    ensures 1 <= a.request.number <= |asked|
    ensures OneAttemptsAnswer(s, a, asked[a.request.number - 1].query, content)
  {
    var t :| 0 <= t < |s.links[a.socket].conn.tasks| &&
             Explains(s.links[a.socket].conn.tasks[t], a.request, content, a.complete);
    TaskIsAsked(s, asked, a.socket, t);
    IsAChat(s, a.socket, t);
    var k := AttemptOf(s.links[a.socket].conn.tasks[t], a.request, asked[a.request.number - 1].query, content,
      a.complete);
  }

  /** The attempt whose chunks explain a content. */
  lemma AttemptOf(task: S.Task, r: RequestId, q: string, content: string, complete: bool) returns (k: nat)
    requires Explains(task, r, content, complete) && task.message == Chat(r, q)
    ensures OneAttempt(task, r, q, content, k)
    ensures complete ==> k == |AttemptChunks(task)| && task.stream.result == Some(P.Returned)
  {
    P.YieldedIsLastAttempt(task.stream);
    var all := P.Yielded(task.stream);
    k :| 0 <= k <= |all| && content == Flat(all[..k]);
    assert all[..|all|] == all;
    if complete {
      k := |all|;
    }
  }

  lemma IsAChat(s: System, i: nat, t: nat)
    requires Invariant(s) && i < |s.links| && t < |s.links[i].conn.tasks|
    ensures s.links[i].conn.tasks[t].kind == S.ChatTask <==> s.links[i].conn.tasks[t].message.Chat?
  {
    assert LinkInvariant(s.links[i], s.app.service.sockets[i].sent);
    assert OriginFits(s.links[i], s.app.service.sockets[i].sent, t);
  }

  // ---------------------------------------------------------------- the record of answers is complete

  /** Nothing recorded is lost or changes its request, and what is complete stays so. */
  ghost predicate RecordsKept(before: map<nat, Answer>, after: map<nat, Answer>) {
    forall id <- before ::
      && id in after && after[id].request == before[id].request && after[id].socket == before[id].socket
      && (before[id].complete ==> after[id].complete)
  }

  lemma OverwriteKeepsRecords(answers: map<nat, Answer>, id: nat, a: Answer)
    requires id in answers ==> answers[id] == a
    ensures RecordsKept(answers, answers[id := a])
  {
  }

  lemma PartKeepsRecords(s: System, i: nat)
    requires AboutToHear(s, i) && Streaming(NextEvent(s, i))
    ensures RecordsKept(s.answers, Deliver(s, i).answers)
  {
    var c, event := s.app.client, NextEvent(s, i);
    var d := W.HandleServerEvent(c, event);
    PartDelivered(s, i);
    HeardNext(c, HeardAbout(s.links[i], event.request), event);
    if d.assistant.Some? {
      var id, a := d.assistant.value, Answer(event.request, i, false);
      assert id in s.answers ==> s.answers[id] == a;
      OverwriteKeepsRecords(s.answers, id, a);
    }
  }

  lemma EventKeepsRecords(s: System, i: nat)
    requires Invariant(s) && CanDeliver(s, i)
    ensures RecordsKept(s.answers, Deliver(s, i).answers)
  {
    if !AboutToHear(s, i) {
      OtherDelivered(s, i);
    } else if Streaming(NextEvent(s, i)) {
      PartKeepsRecords(s, i);
    } else {
      EndDelivered(s, i);
    }
  }

  lemma StepKeepsRecords(s: System, step: Step)
    requires Invariant(s)
    ensures RecordsKept(s.answers, Next(s, step).answers)
  {
    match step
    case PageMoves(move) =>
      if !move.Receives? {
        PageMovesKeepsInvariant(s, move);
      }
    case EventArrives(i) =>
      if CanDeliver(s, i) {
        EventKeepsRecords(s, i);
      }
    case _ =>
  }

  /**
   Every answer the page writes in direct mode is on record, under its request and the socket it
   comes over, from its first moment; the record is never lost or changed.
   */
  lemma {:induction false} AnswersAreOnRecord(s: System, steps: seq<Step>)
    requires Invariant(s)
    ensures RecordsKept(s.answers, Run(s, steps).answers)
    ensures var r := Run(s, steps); var c := r.app.client;
            c.assistant.Some? ==>
              && c.assistant.value in r.answers && c.state.active.Some? && r.app.service.current.Some?
              && r.answers[c.assistant.value] == Answer(c.state.active.value, r.app.service.current.value, false)
    decreases |steps|
  {
    if steps != [] {
      NextKeepsInvariant(s, steps[0]);
      StepKeepsRecords(s, steps[0]);
      AnswersAreOnRecord(Next(s, steps[0]), steps[1..]);
    }
  }

  /** A connection that says completed about r has said started before. */
  lemma StartedBeforeCompleted(s: Sock.Service, i: nat, l: Link, r: RequestId, events: seq<ServerEvent>,
      done: ServerEvent)
    requires i < |s.sockets| && LinkInvariant(l, s.sockets[i].sent) && Wire.SentOnce(s, r)
    requires HeardAbout(l, r) == events + [done] && done.Completed?
    requires forall event <- events :: Streaming(event)
    ensures events != [] && events[0].Started?
  {
    var t := OneTaskSpeaks(s, i, l, l.delivered, r);
    FirstSaid(l.conn.tasks[t]);
    assert (events + [done])[0] == l.conn.tasks[t].log[0];
  }

  /** A completion finds an answer on the page: its task began by saying started, and the page heard it. */
  lemma CompletionFindsAnswer(s: System, i: nat)
    requires AboutToHear(s, i) && NextEvent(s, i).Completed?
    ensures s.app.client.assistant.Some?
  {
    var l, event := s.links[i], NextEvent(s, i);
    HeededLink(l, s.app.service.sockets[i].sent);
    AboutNext(l.conn.sent, l.delivered, event.request);
    var events := HeardAbout(l, event.request);
    StartedBeforeCompleted(s.app.service, i, Heeded(s, i), event.request, events, event);
    assert events[0] in events;
  }

  lemma FirstSaid(task: S.Task)
    requires S.ChatLog(task) && task.log != []
    ensures task.log[0].Started?
  {
  }

  lemma CompletionMarks(s: System, i: nat)
    requires AboutToHear(s, i) && NextEvent(s, i).Completed?
    ensures var n := Deliver(s, i); var id := s.app.client.assistant;
            && id.Some? && id.value in n.answers
            && n.answers[id.value] == Answer(NextEvent(s, i).request, i, true)
            && exists m <- n.app.client.state.messages :: m.id == id.value
  {
    var c, event := s.app.client, NextEvent(s, i);
    CompletionFindsAnswer(s, i);
    EndDelivered(s, i);
    W.UpdateLast(c.state.messages, c.messageCounter, "", event.model);
    var messages := W.HandleServerEvent(c, event).state.messages;
    assert messages[|messages| - 1].id == c.assistant.value && messages[|messages| - 1] in messages;
  }

  /** The next event of connection i is the completion of the page's active direct request. */
  predicate CompletionIsNext(s: System, i: nat) {
    && CanDeliver(s, i) && NextEvent(s, i).Completed?
    && s.app.client.state.active == Some(NextEvent(s, i).request) && s.app.client.state.mode == W.DirectMode
  }

  /** When completed is handled, the page always holds an answer to that request, and it is marked complete. */
  lemma CompletionIsMarked(steps: seq<Step>, i: nat)
    ensures var s := Run(Initial, steps); var n := Next(s, EventArrives(i)); var id := s.app.client.assistant;
            CompletionIsNext(s, i) ==>
              && id.Some? && id.value in n.answers
              && n.answers[id.value] == Answer(NextEvent(s, i).request, i, true)
              && exists m <- n.app.client.state.messages :: m.id == id.value
  {
    var s := Run(Initial, steps);
    InitialInvariant();
    RunKeepsInvariant(Initial, steps);
    if CompletionIsNext(s, i) {
      CompletionMarks(s, i);
    }
  }

  lemma StepKeepsSettled(s: System, step: Step)
    requires Invariant(s) && !(step.PageMoves? && step.step.UserResets?)
    ensures W.Settled(s.app.client) <= W.Settled(Next(s, step).app.client)
  {
    match step
    case PageMoves(move) =>
      if !move.Receives? {
        W.StepKeepsSettled(s.app, move);
      }
    case EventArrives(i) =>
      if CanDeliver(s, i) {
        Arrived(s, i);
        W.EventKeepsSettled(s.app.client, NextEvent(s, i));
      }
    case _ =>
  }

  predicate NoReset(steps: seq<Step>) {
    forall step <- steps :: !(step.PageMoves? && step.step.UserResets?)
  }

  lemma {:induction false} SettledStays(s: System, steps: seq<Step>)
    requires Invariant(s) && NoReset(steps)
    ensures W.Settled(s.app.client) <= W.Settled(Run(s, steps).app.client)
    decreases |steps|
  {
    if steps != [] {
      assert steps[0] in steps;
      assert NoReset(steps[1..]);
      StepKeepsSettled(s, steps[0]);
      NextKeepsInvariant(s, steps[0]);
      SettledStays(Next(s, steps[0]), steps[1..]);
    }
  }

  /** However a run goes on, until a reset, what a request left on the page when it ended stays as it is. */
  lemma EndedAnswersStay(steps: seq<Step>, more: seq<Step>)
    requires NoReset(more)
    ensures var s := Run(Initial, steps);
            W.Settled(s.app.client) <= W.Settled(Run(s, more).app.client)
  {
    InitialInvariant();
    RunKeepsInvariant(Initial, steps);
    SettledStays(Run(Initial, steps), more);
  }
}
