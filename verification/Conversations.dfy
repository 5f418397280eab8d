/**
 The questions of a run of the whole system: what every task was created for, and which question each
 answer on the page stands behind.
 */
module Conversations {
  import opened EndToEnd
  import opened Options
  import opened Protocol
  import opened Questions
  import S = Server
  import Sock = SocketService
  import W = Workspace
  import Wire

  /** What the user asks in one step of the system. */
  function AsksNow(s: System, step: Step): seq<Question> {
    if step.PageMoves? && !step.step.Receives? then Asks(s.app, step.step) else []
  }

  function AsksIn(s: System, steps: seq<Step>): seq<Question>
    decreases |steps|
  {
    if steps == [] then [] else AsksNow(s, steps[0]) + AsksIn(EndToEnd.Next(s, steps[0]), steps[1..])
  }

  /** Message u, right before message m, is the question that request r puts. */
  predicate IsBehind(u: W.Message, m: W.Message, r: RequestId, asked: seq<Question>) {
    && r.WorkspaceId? && 1 <= r.number <= |asked|
    && u.role == W.User && u.id + 1 == m.id && u.content == asked[r.number - 1].query
  }

  /** Message m answers request r of direct mode, and the transcript holds its question right before it. */
  ghost predicate Replies(messages: seq<W.Message>, m: W.Message, r: RequestId, asked: seq<Question>) {
    && r.WorkspaceId? && 1 <= r.number <= |asked| && asked[r.number - 1].mode == W.DirectMode
    && exists u <- messages :: IsBehind(u, m, r, asked)
  }

  ghost predicate AllReply(s: System, asked: seq<Question>) {
    forall m <- s.app.client.state.messages :: m.id in s.answers ==>
      Replies(s.app.client.state.messages, m, s.answers[m.id].request, asked)
  }

  ghost predicate AskedInvariant(s: System, asked: seq<Question>) {
    EndToEnd.Invariant(s) && Questions.Invariant(s.app, asked) && AllReply(s, asked)
  }

  // ---------------------------------------------------------------- what a task was created for

  /** A task for a request of the page was created for the question asked under that request. */
  lemma TaskIsAsked(s: System, asked: seq<Question>, i: nat, t: nat)
    requires AskedInvariant(s, asked) && i < |s.links| && t < |s.links[i].conn.tasks|
    requires s.links[i].conn.tasks[t].request.WorkspaceId?
    ensures
      var task := s.links[i].conn.tasks[t]; var n := task.request.number;
      1 <= n <= |asked| && Puts(task.message, n, asked[n - 1])
  {
    var l := s.links[i];
    assert LinkInvariant(l, s.app.service.sockets[i].sent) && OriginFits(l, s.app.service.sockets[i].sent, t);
    assert Wire.At(s.app.service, i, l.origins[t]);
    assert IsAsked(Wire.MessageAt(s.app.service, i, l.origins[t]), asked);
  }

  // ---------------------------------------------------------------- answers stand behind their questions

  /** More questions and more messages leave an answer where it is. */
  lemma StillReplies(messages: seq<W.Message>, more: seq<W.Message>, m: W.Message, r: RequestId, asked: seq<Question>,
      now: seq<Question>)
    requires Replies(messages, m, r, asked)
    requires forall u <- messages :: u.id < m.id ==> u in more
    ensures Replies(more, m, r, asked + now)
  {
    var u :| u in messages && IsBehind(u, m, r, asked);
    assert IsBehind(u, m, r, asked + now);
  }

  /** What stands before some message has been settled. */
  lemma EarlierIsSettled(c: W.Client, u: W.Message, m: W.Message)
    requires W.ClientInvariant(c) && u in c.state.messages && m in c.state.messages && u.id < m.id
    ensures u in W.Settled(c)
  {
    var j :| 0 <= j < |c.state.messages| && c.state.messages[j] == u;
    if c.assistant.Some? {
      assert W.Settled(c) == c.state.messages[..|c.state.messages| - 1];
      assert j < |c.state.messages| - 1;
      assert W.Settled(c)[j] == u;
    }
  }

  /** A page whose settled messages stay keeps its answers behind their questions. */
  lemma SettledKeepsReplies(c: W.Client, d: W.Client, answers: map<nat, Answer>, asked: seq<Question>,
      now: seq<Question>, m: W.Message)
    requires W.ClientInvariant(c) && m in c.state.messages && m.id in answers
    requires Replies(c.state.messages, m, answers[m.id].request, asked)
    requires W.Settled(c) <= d.state.messages
    ensures Replies(d.state.messages, m, answers[m.id].request, asked + now)
  {
    forall u | u in c.state.messages && u.id < m.id
      ensures u in d.state.messages
    {
      EarlierIsSettled(c, u, m);
    }
    StillReplies(c.state.messages, d.state.messages, m, answers[m.id].request, asked, now);
  }

  lemma PageKeepsAsked(s: System, step: W.Step, asked: seq<Question>)
    requires AskedInvariant(s, asked) && !step.Receives?
    ensures AskedInvariant(EndToEnd.Next(s, PageMoves(step)), asked + Asks(s.app, step))
  {
    var n := EndToEnd.Next(s, PageMoves(step));
    var c, d, now := s.app.client, n.app.client, Asks(s.app, step);
    PageMovesKeepsInvariant(s, step);
    StepKeeps(s.app, step, asked);
    Wire.StepEvolves(s.app, step);
    NextApp(s, step);
    if !step.UserResets? {
      W.StepKeepsSettled(s.app, step);
    }
    forall m | m in d.state.messages && m.id in n.answers
      ensures Replies(d.state.messages, m, n.answers[m.id].request, asked + now)
    {
      assert m in c.state.messages && !step.UserResets?;
      SettledIsThere(d);
      SettledKeepsReplies(c, d, s.answers, asked, now, m);
    }
  }

  lemma SettledIsThere(c: W.Client)
    ensures W.Settled(c) <= c.state.messages
  {
  }

  lemma NextApp(s: System, step: W.Step)
    requires !step.Receives?
    ensures EndToEnd.Next(s, PageMoves(step)).app == W.Next(s.app, step)
  {
  }

  lemma OtherPageKeepsAsked(s: System, m: ClientMessage, asked: seq<Question>)
    requires AskedInvariant(s, asked) && Sock.CanSend(s.app.service) && (m.Ping? || m.request.ChatId?)
    ensures AskedInvariant(EndToEnd.Next(s, OtherPageSends(m)), asked)
  {
    OtherPageKeepsInvariant(s, m);
    SendingKeeps(s.app.service, m, asked);
  }

  // ---------------------------------------------------------------- an event arrives

  /** A part of an answer arrives: a new answer stands behind the question that was last. */
  lemma PartKeepsAsked(s: System, i: nat, asked: seq<Question>)
    requires AskedInvariant(s, asked) && AboutToHear(s, i) && Streaming(NextEvent(s, i))
    ensures AllReply(Deliver(s, i), asked)
  {
    var c, event := s.app.client, NextEvent(s, i);
    var d := W.HandleServerEvent(c, event);
    PartDelivered(s, i);
    PartHeard(s, i);
    forall m | m in d.state.messages && m.id in Deliver(s, i).answers
      ensures Replies(d.state.messages, m, Deliver(s, i).answers[m.id].request, asked)
    {
      if d.assistant == Some(m.id) {
        DraftReplies(c, d, PartText(event), m, asked, s.answers);
      } else {
        W.WritesOnlyDraft(c, d, PartText(event), m);
        OldReplies(c, d, s.answers, asked, m);
      }
    }
  }

  lemma OldReplies(c: W.Client, d: W.Client, answers: map<nat, Answer>, asked: seq<Question>, m: W.Message)
    requires W.ClientInvariant(c) && m in c.state.messages && m.id in answers
    requires Replies(c.state.messages, m, answers[m.id].request, asked)
    requires W.Settled(c) <= W.Settled(d)
    ensures Replies(d.state.messages, m, answers[m.id].request, asked)
  {
    SettledIsThere(d);
    SettledKeepsReplies(c, d, answers, asked, [], m);
    assert asked + [] == asked;
  }

  /** The answer being written stands behind the question being answered. */
  lemma DraftReplies(c: W.Client, d: W.Client, text: string, m: W.Message, asked: seq<Question>,
      answers: map<nat, Answer>)
    requires W.ClientInvariant(c) && Kept(c, asked) && W.Writes(c, d, text)
    requires c.state.active.Some? && c.state.mode == W.DirectMode && d.assistant == Some(m.id)
    requires c.assistant.Some? ==>
      && c.assistant.value in answers && answers[c.assistant.value].request == c.state.active.value
      && Replies(c.state.messages, c.state.messages[|c.state.messages| - 1], c.state.active.value, asked)
    ensures Replies(d.state.messages, m, c.state.active.value, asked)
  {
    var n := |c.state.messages| - 1;
    var last := c.state.messages[n];
    SettledIsThere(d);
    if c.assistant.Some? {
      var u :| u in c.state.messages && IsBehind(u, last, c.state.active.value, asked);
      EarlierIsSettled(c, u, last);
      assert u in d.state.messages && IsBehind(u, m, c.state.active.value, asked);
    } else {
      assert W.Settled(c)[n] == last;
      assert last in d.state.messages && IsBehind(last, m, c.state.active.value, asked);
    }
  }

  lemma EndReplies(c: W.Client, d: W.Client, answers: map<nat, Answer>, asked: seq<Question>, o: W.Message,
      m: W.Message)
    requires W.ClientInvariant(c) && W.Settled(c) <= W.Settled(d)
    requires o in c.state.messages && o.id == m.id && o.id in answers
    requires Replies(c.state.messages, o, answers[o.id].request, asked)
    ensures Replies(d.state.messages, m, answers[m.id].request, asked)
  {
    OldReplies(c, d, answers, asked, o);
    var u :| u in d.state.messages && IsBehind(u, o, answers[o.id].request, asked);
    assert IsBehind(u, m, answers[m.id].request, asked);
  }

  /** Marking an answer complete leaves its request as it is. */
  lemma MarkKeepsRequest(answers: map<nat, Answer>, id: Option<nat>, k: nat)
    requires k in MarkComplete(answers, id)
    ensures k in answers && MarkComplete(answers, id)[k].request == answers[k].request
  {
  }

  lemma EndKeepsAsked(s: System, i: nat, asked: seq<Question>)
    requires AskedInvariant(s, asked) && AboutToHear(s, i) && !Streaming(NextEvent(s, i))
    ensures AllReply(Deliver(s, i), asked)
  {
    var c, event := s.app.client, NextEvent(s, i);
    var d, marked := W.HandleServerEvent(c, event), MarkComplete(s.answers, Completes(c, event));
    EndDelivered(s, i);
    EndingEvent(c, event);
    W.EventKeepsSettled(c, event);
    forall m | m in d.state.messages && m.id in marked
      ensures Replies(d.state.messages, m, marked[m.id].request, asked)
    {
      var o :| o in c.state.messages && o.id == m.id && o.content == m.content;
      MarkKeepsRequest(s.answers, Completes(c, event), m.id);
      EndReplies(c, d, s.answers, asked, o, m);
    }
  }

  lemma OtherKeepsAsked(s: System, i: nat, asked: seq<Question>)
    requires AskedInvariant(s, asked) && CanDeliver(s, i) && !AboutToHear(s, i)
    ensures AllReply(Deliver(s, i), asked)
  {
    var c, n := s.app.client, Deliver(s, i);
    var d := n.app.client;
    OtherDelivered(s, i);
    W.EventKeepsSettled(c, NextEvent(s, i));
    forall m | m in d.state.messages && m.id in n.answers
      ensures Replies(d.state.messages, m, n.answers[m.id].request, asked)
    {
      OldReplies(c, d, s.answers, asked, m);
    }
  }

  lemma EventKeepsAsked(s: System, i: nat, asked: seq<Question>)
    requires AskedInvariant(s, asked) && CanDeliver(s, i)
    ensures AskedInvariant(Deliver(s, i), asked)
  {
    EventArrivesKeepsInvariant(s, i);
    Arrived(s, i);
    StepKeeps(s.app, W.Receives(i, NextEvent(s, i)), asked);
    assert asked + [] == asked;
    if !AboutToHear(s, i) {
      OtherKeepsAsked(s, i, asked);
    } else if Streaming(NextEvent(s, i)) {
      PartKeepsAsked(s, i, asked);
    } else {
      EndKeepsAsked(s, i, asked);
    }
  }

  // ---------------------------------------------------------------- every run

  lemma NextKeepsAsked(s: System, step: Step, asked: seq<Question>)
    requires AskedInvariant(s, asked)
    ensures AskedInvariant(EndToEnd.Next(s, step), asked + AsksNow(s, step))
  {
    assert asked + [] == asked;
    match step
    case PageMoves(move) =>
      if !move.Receives? {
        PageKeepsAsked(s, move, asked);
      }
    case OtherPageSends(m) =>
      if Sock.CanSend(s.app.service) && (m.Ping? || m.request.ChatId?) {
        OtherPageKeepsAsked(s, m, asked);
      }
    case EventArrives(i) =>
      if CanDeliver(s, i) {
        EventKeepsAsked(s, i, asked);
      }
    case _ => EndToEnd.NextKeepsInvariant(s, step);
  }

  lemma {:induction false} RunKeepsAsked(s: System, steps: seq<Step>, asked: seq<Question>)
    requires AskedInvariant(s, asked)
    ensures AskedInvariant(EndToEnd.Run(s, steps), asked + AsksIn(s, steps))
    decreases |steps|
  {
    if steps == [] {
      assert asked + [] == asked;
    } else {
      var n := EndToEnd.Next(s, steps[0]);
      var now, rest := AsksNow(s, steps[0]), AsksIn(n, steps[1..]);
      NextKeepsAsked(s, steps[0], asked);
      RunKeepsAsked(n, steps[1..], asked + now);
      JoinAsked(asked, now, rest);
    }
  }

  lemma EveryRunAsks(steps: seq<Step>)
    ensures AskedInvariant(EndToEnd.Run(EndToEnd.Initial, steps), AsksIn(EndToEnd.Initial, steps))
  {
    EndToEnd.InitialInvariant();
    Questions.InitialInvariant();
    RunKeepsAsked(EndToEnd.Initial, steps, []);
    assert [] + AsksIn(EndToEnd.Initial, steps) == AsksIn(EndToEnd.Initial, steps);
  }

  /**
   In every run, each task that works on a request of the page holds the question asked under that
   request, word for word: as a chat, or as an agent execution in the conversation it was asked in.
   */
  lemma TasksHoldTheirQuestion(steps: seq<Step>, i: nat, t: nat)
    requires i < |EndToEnd.Run(EndToEnd.Initial, steps).links|
    requires t < |EndToEnd.Run(EndToEnd.Initial, steps).links[i].conn.tasks|
    requires EndToEnd.Run(EndToEnd.Initial, steps).links[i].conn.tasks[t].request.WorkspaceId?
    ensures
      var task := EndToEnd.Run(EndToEnd.Initial, steps).links[i].conn.tasks[t];
      var asked := AsksIn(EndToEnd.Initial, steps); var n := task.request.number;
      1 <= n <= |asked| && Puts(task.message, n, asked[n - 1])
  {
    EveryRunAsks(steps);
    TaskIsAsked(EndToEnd.Run(EndToEnd.Initial, steps), AsksIn(EndToEnd.Initial, steps), i, t);
  }
}
