/**
 What a reader of the workspace page gets in agent mode, over all runs of the whole system: the
 workflow events one agent task said, in order, and an execution that shows how they end.
 */
module AgentMode {
  import opened EndToEnd
  import opened Options
  import opened Protocol
  import S = Server
  import Sock = SocketService
  import W = Workspace
  import Wire

  /** A workflow event that does not end its request. */
  predicate InProgress(event: ServerEvent) {
    event.AgentEvent? && !W.IsLast(event.kind)
  }

  /** What the page records of some events: the workflow events among them. */
  function Notes(events: seq<ServerEvent>): seq<W.WorkflowEvent> {
    if events == [] then []
    else
      var last := events[|events| - 1];
      Notes(events[..|events| - 1]) + (if last.AgentEvent? then [W.Recorded(last)] else [])
  }

  lemma AppendNote(events: seq<ServerEvent>, event: ServerEvent)
    ensures Notes(events + [event]) == Notes(events) + if event.AgentEvent? then [W.Recorded(event)] else []
  {
    assert (events + [event])[..|events|] == events;
  }

  lemma {:induction false} NotesOfPrefix(a: seq<ServerEvent>, b: seq<ServerEvent>)
    requires a <= b
    ensures Notes(a) <= Notes(b)
    decreases |b|
  {
    if |a| < |b| {
      NotesOfPrefix(a, b[..|b| - 1]);
    } else {
      assert a == b;
    }
  }

  // ---------------------------------------------------------------- the invariant

  /** The execution holds what was heard of its request, and nothing heard has ended it. */
  ghost predicate Followed(e: W.Execution, heard: seq<ServerEvent>) {
    (forall event <- heard :: InProgress(event)) && e.events == Notes(heard)
  }

  ghost predicate Following(s: System)
    requires forall l <- s.links :: l.delivered <= |l.conn.sent|
  {
    var c, current := s.app.client, s.app.service.current;
    c.state.active.Some? && c.state.execution.Some? ==>
      if c.pending.Some? then c.state.execution.value.events == []
      else
        && current.Some? && current.value < |s.links|
        && Followed(c.state.execution.value, HeardAbout(s.links[current.value], c.state.active.value))
  }

  /** The events of an execution are a beginning of what this task has said. */
  ghost predicate Tells(task: S.Task, e: W.Execution) {
    task.kind == S.AgentTask && task.request == e.request && e.events <= Notes(task.log)
  }

  ghost predicate Told(links: seq<Link>, e: W.Execution) {
    e.events == [] ||
    exists i, t :: 0 <= i < |links| && 0 <= t < |links[i].conn.tasks| && Tells(links[i].conn.tasks[t], e)
  }

  ghost predicate Quiet(links: seq<Link>) {
    forall l <- links :: S.QuietAfterAck(l.conn.sent)
  }

  ghost predicate AgentInvariant(s: System) {
    && Invariant(s) && W.ExecutionFits(s.app.client) && Following(s) && Quiet(s.links)
    && (s.app.client.state.execution.Some? ==> Told(s.links, s.app.client.state.execution.value))
  }

  // ---------------------------------------------------------------- the servers move

  /** Links keep their tasks, which may have said more; there may be more links. */
  ghost predicate LinksGrow(links: seq<Link>, more: seq<Link>) {
    && |links| <= |more|
    && forall i :: 0 <= i < |links| ==>
         && |links[i].conn.tasks| <= |more[i].conn.tasks|
         && forall t :: 0 <= t < |links[i].conn.tasks| ==> S.TaskGrows(links[i].conn.tasks[t], more[i].conn.tasks[t])
  }

  lemma ToldStays(links: seq<Link>, more: seq<Link>, e: W.Execution, f: W.Execution)
    requires LinksGrow(links, more) && Told(links, e)
    requires f.events == e.events && f.request == e.request
    ensures Told(more, f)
  {
    if e.events != [] {
      var i, t :| 0 <= i < |links| && 0 <= t < |links[i].conn.tasks| && Tells(links[i].conn.tasks[t], e);
      var a, b := links[i].conn.tasks[t], more[i].conn.tasks[t];
      assert S.TaskGrows(a, b);
      NotesOfPrefix(a.log, b.log);
      assert Tells(b, f);
    }
  }

  lemma LinkKeepsAgent(s: System, i: nat, r: Link)
    requires AgentInvariant(s) && i < |s.links| && Invariant(s.(links := s.links[i := r]))
    requires var l := s.links[i];
             && r.delivered == l.delivered && l.conn.sent <= r.conn.sent && |l.conn.tasks| <= |r.conn.tasks|
             && forall t :: 0 <= t < |l.conn.tasks| ==> S.TaskGrows(l.conn.tasks[t], r.conn.tasks[t])
    requires S.QuietAfterAck(r.conn.sent)
    ensures AgentInvariant(s.(links := s.links[i := r]))
  {
    LinkKeepsFollowing(s, i, r);
    LinkKeepsQuiet(s.links, i, r);
    if s.app.client.state.execution.Some? {
      LinkKeepsTold(s.links, i, r, s.app.client.state.execution.value);
    }
  }

  lemma LinkKeepsQuiet(links: seq<Link>, i: nat, r: Link)
    requires i < |links| && Quiet(links) && S.QuietAfterAck(r.conn.sent)
    ensures Quiet(links[i := r])
  {
  }

  lemma LinkKeepsTold(links: seq<Link>, i: nat, r: Link, e: W.Execution)
    requires i < |links| && |links[i].conn.tasks| <= |r.conn.tasks| && Told(links, e)
    requires forall t :: 0 <= t < |links[i].conn.tasks| ==> S.TaskGrows(links[i].conn.tasks[t], r.conn.tasks[t])
    ensures Told(links[i := r], e)
  {
    ToldStays(links, links[i := r], e, e);
  }

  lemma LinkKeepsFollowing(s: System, i: nat, r: Link)
    requires i < |s.links| && r.delivered == s.links[i].delivered && s.links[i].conn.sent <= r.conn.sent
    requires forall l <- s.links :: l.delivered <= |l.conn.sent|
    requires Following(s)
    ensures forall l <- s.links[i := r] :: l.delivered <= |l.conn.sent|
    ensures Following(s.(links := s.links[i := r]))
  {
    assert s.links[i] in s.links;
    assert r.conn.sent[..r.delivered] == s.links[i].conn.sent[..s.links[i].delivered];
  }

  lemma ServerMovesKeepsAgent(s: System, i: nat, move: S.Step)
    requires AgentInvariant(s) && i < |s.links| && !S.IsReceive(move)
    ensures AgentInvariant(Next(s, ServerMoves(i, move)))
  {
    var l, log := s.links[i], s.app.service.sockets[i].sent;
    var r := l.(conn := S.Next(l.conn, move));
    ServerMovesLink(l, log, move);
    LinkMoves(s, i, r);
    assert LinkInvariant(l, log) && l in s.links;
    S.StepKeepsQuiet(l.conn, move);
    LinkKeepsAgent(s, i, r);
  }

  lemma ServerReceivesKeepsAgent(s: System, step: Step)
    requires AgentInvariant(s) && step.ServerReceives? && CanReceive(s, step.link)
    ensures AgentInvariant(Next(s, step))
  {
    var i, l := step.link, s.links[step.link];
    var m := s.app.service.sockets[i].sent[l.read];
    var move := ReceiveStep(m, step.maxRetries, step.baseDelay, step.available, step.valid);
    ServerReceivesLink(s, i, move);
    LinkMoves(s, i, ServerReceive(s, i, move).links[i]);
    assert LinkInvariant(l, s.app.service.sockets[i].sent) && l in s.links;
    S.StepKeepsQuiet(l.conn, move);
    LinkKeepsAgent(s, i, ServerReceive(s, i, move).links[i]);
  }

  // ---------------------------------------------------------------- the page moves by itself

  /** A request that no message has mentioned yet has not been heard of. */
  lemma Unheard(s: System, r: RequestId)
    requires Invariant(s) && Wire.Unsent(s.app.service, r) && r.WorkspaceId?
    requires s.app.service.current.Some? && s.app.service.current.value < |s.links|
    ensures HeardAbout(s.links[s.app.service.current.value], r) == []
  {
    var i := s.app.service.current.value;
    UnsentLog(s.app.service, i, r);
    UnsentIsUnspoken(s.links[i], s.app.service.sockets[i].sent, s.links[i].delivered, r);
  }

  /** While a request has just been sent, or is still to be sent, its execution has recorded nothing. */
  lemma UnsentIsEmpty(s: System, app: W.App)
    requires AgentInvariant(s) && app.client.state.active.Some? && app.client.state.execution.Some?
    requires W.SameRecord(s.app.client, app.client) || W.NewRecord(s.app.client, app.client)
    requires W.ClientInvariant(app.client)
    requires app.client.pending.Some? || Wire.Unsent(s.app.service, app.client.state.active.value)
    ensures app.client.state.execution.value.events == []
  {
    var c, d := s.app.client, app.client;
    if W.SameRecord(c, d) && c.pending.None? {
      Unheard(s, d.state.active.value);
    }
  }

  lemma PageKeepsFollowing(s: System, app: W.App, links: seq<Link>)
    requires AgentInvariant(s) && PageMoved(s, app, links)
    requires forall l <- links :: l.delivered <= |l.conn.sent|
    requires W.SameRecord(s.app.client, app.client) || app.client.state.execution.None? ||
      W.NewRecord(s.app.client, app.client)
    ensures Following(System(app, links, s.answers))
  {
    var c, d := s.app.client, app.client;
    if d.state.active.Some? && d.state.execution.Some? {
      var r := d.state.active.value;
      if d.pending.Some? {
        UnsentIsEmpty(s, app);
      } else if Wire.Unsent(s.app.service, r) {
        UnsentIsEmpty(s, app);
        NothingHeardYet(s, app, links, app.service.current.value, r);
      } else {
        assert Wire.SameAnswer(c, d) && app.service.current == s.app.service.current;
        assert W.SameRecord(c, d);
        assert links[app.service.current.value] == s.links[app.service.current.value];
      }
    }
  }

  lemma PageMovesKeepsAgent(s: System, step: W.Step)
    requires AgentInvariant(s) && !step.Receives?
    ensures AgentInvariant(Next(s, PageMoves(step)))
  {
    var app := W.Next(s.app, step);
    var links := s.links + if |app.service.sockets| > |s.app.service.sockets| then [FreshLink] else [];
    PageMovesKeepsInvariant(s, step);
    PageMovedBy(s, step);
    assert s.links + [] == s.links;
    PageKeepsFollowing(s, app, links);
    AddedLinks(s, app, links);
  }

  /** A step of the page, as seen by the links and by the record of the execution. */
  lemma PageMovedBy(s: System, step: W.Step)
    requires AgentInvariant(s) && !step.Receives?
    ensures
      var app := W.Next(s.app, step);
      var links := s.links + if |app.service.sockets| > |s.app.service.sockets| then [FreshLink] else [];
      && PageMoved(s, app, links) && W.ExecutionFits(app.client)
      && (W.SameRecord(s.app.client, app.client) || app.client.state.execution.None?
          || W.NewRecord(s.app.client, app.client))
  {
    var app := W.Next(s.app, step);
    W.NextKeepsInvariant(s.app, step);
    Wire.StepEvolves(s.app, step);
    W.QuietStep(s.app, step);
    W.RecordFits(s.app.client, app.client);
    assert s.links + [] == s.links;
  }

  /** A fresh link adds nothing to what has been told. */
  lemma AddedLinks(s: System, app: W.App, links: seq<Link>)
    requires AgentInvariant(s) && (links == s.links || links == s.links + [FreshLink])
    requires W.SameRecord(s.app.client, app.client) || app.client.state.execution.None? ||
      W.NewRecord(s.app.client, app.client)
    ensures Quiet(links)
    ensures app.client.state.execution.Some? ==> Told(links, app.client.state.execution.value)
  {
    if app.client.state.execution.Some? && W.SameRecord(s.app.client, app.client) {
      ToldStays(s.links, links, s.app.client.state.execution.value, app.client.state.execution.value);
    }
  }

  // ---------------------------------------------------------------- an event arrives

  /** The next event of socket i is about the request running in agent mode. */
  ghost predicate AboutToRecord(s: System, i: nat) {
    && CanDeliver(s, i) && !NextEvent(s, i).Pong?
    && s.app.client.state.active == Some(NextEvent(s, i).request) && s.app.client.state.mode == W.AgentMode
  }

  /** No chat task speaks about a request of agent mode. */
  lemma AgentEvents(s: System, i: nat, k: nat)
    requires Invariant(s) && i < |s.links| && k < |s.links[i].conn.sent|
    requires s.app.client.state.mode == W.AgentMode && !s.links[i].conn.sent[k].event.Pong?
    requires s.app.client.state.active == Some(s.links[i].conn.sent[k].event.request)
    ensures var event := s.links[i].conn.sent[k].event; event.AgentEvent? || event.Error? || event.Cancelled?
  {
    var l, x := s.links[i], s.links[i].conn.sent[k];
    assert S.AuthorFits(l.conn, x);
    if x.author.By? {
      var t := x.author.task;
      assert OriginFits(l, s.app.service.sockets[i].sent, t);
      assert Wire.At(s.app.service, i, l.origins[t]);
      assert Wire.Submits(Wire.MessageAt(s.app.service, i, l.origins[t]), x.event.request);
    }
  }

  /** A workflow event arrives: the execution records it, and one task has said all it holds. */
  lemma EventRecorded(s: System, i: nat)
    requires AgentInvariant(s) && AboutToRecord(s, i) && NextEvent(s, i).AgentEvent?
    ensures
      var n, r := Deliver(s, i), NextEvent(s, i).request;
      && n.app.client.state.execution.Some?
      && var e := n.app.client.state.execution.value;
         && e.request == r && e.events == Notes(HeardAbout(n.links[i], r)) && Told(n.links, e)
         && n.app.client.state.active == if W.IsLast(NextEvent(s, i).kind) then None else Some(r)
  {
    var c, event := s.app.client, NextEvent(s, i);
    var r := event.request;
    Arrived(s, i);
    W.AgentEventShows(c, event);
    AboutNext(s.links[i].conn.sent, s.links[i].delivered, r);
    AppendNote(HeardAbout(s.links[i], r), event);
    var t := TellerOf(s, i);
    var n := Deliver(s, i);
    assert Tells(n.links[i].conn.tasks[t], n.app.client.state.execution.value);
  }

  /** The agent task that has said all that has been heard, with the event that arrives. */
  lemma TellerOf(s: System, i: nat) returns (t: nat)
    requires AgentInvariant(s) && AboutToRecord(s, i) && NextEvent(s, i).AgentEvent?
    ensures
      var h, r := Heeded(s, i), NextEvent(s, i).request;
      && t < |h.conn.tasks| && h.conn.tasks[t].kind == S.AgentTask && h.conn.tasks[t].request == r
      && Notes(HeardAbout(h, r)) <= Notes(h.conn.tasks[t].log)
  {
    var h, r := Heeded(s, i), NextEvent(s, i).request;
    AboutNext(s.links[i].conn.sent, s.links[i].delivered, r);
    assert LinkInvariant(s.links[i], s.app.service.sockets[i].sent) &&
      Wire.SentOnce(s.app.service, WorkspaceId(r.number));
    HeededLink(s.links[i], s.app.service.sockets[i].sent);
    t := OneTaskSpeaks(s.app.service, i, h, h.delivered, r);
    NotesOfPrefix(HeardAbout(h, r), h.conn.tasks[t].log);
  }

  /** An error or an acknowledgement ends the request and records nothing. */
  lemma EndRecorded(s: System, i: nat)
    requires AgentInvariant(s) && AboutToRecord(s, i) && !NextEvent(s, i).AgentEvent?
    ensures
      var c, d := s.app.client, Deliver(s, i).app.client;
      && (NextEvent(s, i).Error? || NextEvent(s, i).Cancelled?)
      && d.state.active.None? && d.state.execution.Some?
      && d.state.execution.value ==
           c.state.execution.value.(status := if NextEvent(s, i).Error? then W.Failed else W.Aborted)
  {
    AgentEvents(s, i, s.links[i].delivered);
    Arrived(s, i);
    W.EndShows(s.app.client, NextEvent(s, i));
  }

  /** Any other event leaves the execution alone. */
  lemma OtherRecorded(s: System, i: nat)
    requires AgentInvariant(s) && CanDeliver(s, i) && !AboutToRecord(s, i)
    ensures
      var c, d := s.app.client, Deliver(s, i).app.client;
      d == c || (c.state.mode == W.DirectMode && d.state.execution.None?)
  {
    Arrived(s, i);
    if s.app.client.state.mode == W.DirectMode {
      W.DirectEventShowsNone(s.app.client, NextEvent(s, i));
    }
  }

  lemma HeededGrows(s: System, i: nat)
    requires Quiet(s.links) && CanDeliver(s, i)
    ensures LinksGrow(s.links, s.links[i := Heeded(s, i)]) && Quiet(s.links[i := Heeded(s, i)])
  {
    assert s.links[i] in s.links;
  }

  lemma EventArrivesKeepsFollowing(s: System, i: nat)
    requires AgentInvariant(s) && CanDeliver(s, i) && Invariant(Deliver(s, i))
    ensures Following(Deliver(s, i))
    ensures Deliver(s, i).app.client.state.execution.Some? ==>
              Told(Deliver(s, i).links, Deliver(s, i).app.client.state.execution.value)
  {
    var c, n := s.app.client, Deliver(s, i);
    Arrived(s, i);
    HeededGrows(s, i);
    if AboutToRecord(s, i) && NextEvent(s, i).AgentEvent? {
      RecordingKeepsFollowing(s, i);
    } else if AboutToRecord(s, i) {
      EndRecorded(s, i);
      ToldStays(s.links, n.links, c.state.execution.value, n.app.client.state.execution.value);
    } else {
      OtherKeepsFollowing(s, i);
    }
  }

  lemma RecordingKeepsFollowing(s: System, i: nat)
    requires AgentInvariant(s) && AboutToRecord(s, i) && NextEvent(s, i).AgentEvent? && Invariant(Deliver(s, i))
    ensures Following(Deliver(s, i))
    ensures Deliver(s, i).app.client.state.execution.Some? ==>
              Told(Deliver(s, i).links, Deliver(s, i).app.client.state.execution.value)
  {
    Arrived(s, i);
    EventRecorded(s, i);
    AboutNext(s.links[i].conn.sent, s.links[i].delivered, NextEvent(s, i).request);
  }

  lemma OtherKeepsFollowing(s: System, i: nat)
    requires AgentInvariant(s) && CanDeliver(s, i) && Invariant(Deliver(s, i)) && !AboutToRecord(s, i)
    ensures Following(Deliver(s, i))
    ensures Deliver(s, i).app.client.state.execution.Some? ==>
              Told(Deliver(s, i).links, Deliver(s, i).app.client.state.execution.value)
  {
    var c, n := s.app.client, Deliver(s, i);
    Arrived(s, i);
    HeededGrows(s, i);
    OtherRecorded(s, i);
    if n.app.client.state.execution.Some? {
      ToldStays(s.links, n.links, c.state.execution.value, c.state.execution.value);
      StillFollowed(s, i);
    }
  }

  lemma StillFollowed(s: System, i: nat)
    requires AgentInvariant(s) && CanDeliver(s, i) && !AboutToRecord(s, i)
    requires Deliver(s, i).app.client == s.app.client && s.app.client.state.execution.Some?
    requires Invariant(Deliver(s, i))
    ensures Following(Deliver(s, i))
  {
    Arrived(s, i);
    if s.app.client.state.active.Some? {
      var r := s.app.client.state.active.value;
      AboutNext(s.links[i].conn.sent, s.links[i].delivered, r);
      assert HeardAbout(s.links[i], r) + [] == HeardAbout(s.links[i], r);
    }
  }

  lemma EventArrivesKeepsAgent(s: System, i: nat)
    requires AgentInvariant(s) && CanDeliver(s, i)
    ensures AgentInvariant(Deliver(s, i))
  {
    EventArrivesKeepsInvariant(s, i);
    EventArrivesKeepsFollowing(s, i);
    Arrived(s, i);
    HeededGrows(s, i);
    W.EventShows(s.app.client, NextEvent(s, i));
  }

  // ---------------------------------------------------------------- every run

  lemma NextKeepsAgent(s: System, step: Step)
    requires AgentInvariant(s)
    ensures AgentInvariant(Next(s, step))
  {
    match step
    case PageMoves(move) =>
      if !move.Receives? {
        PageMovesKeepsAgent(s, move);
      }
    case OtherPageSends(m) => NextKeepsInvariant(s, step);
    case ServerReceives(i, _, _, _, _) =>
      if CanReceive(s, i) {
        ServerReceivesKeepsAgent(s, step);
      }
    case ServerMoves(i, move) =>
      if i < |s.links| && !S.IsReceive(move) {
        ServerMovesKeepsAgent(s, i, move);
      }
    case EventArrives(i) =>
      if CanDeliver(s, i) {
        EventArrivesKeepsAgent(s, i);
      }
  }

  lemma {:induction false} RunKeepsAgent(s: System, steps: seq<Step>)
    requires AgentInvariant(s)
    ensures AgentInvariant(Run(s, steps))
    decreases |steps|
  {
    if steps != [] {
      NextKeepsAgent(s, steps[0]);
      RunKeepsAgent(Next(s, steps[0]), steps[1..]);
    }
  }

  lemma Reachable(steps: seq<Step>)
    ensures AgentInvariant(Run(Initial, steps))
  {
    InitialInvariant();
    RunKeepsAgent(Initial, steps);
  }

  /**
   In every run, the events an execution on the page has recorded are, in order and without a gap, a
   beginning of what one agent task said about its request; a recorded failure shows as failed, and
   the execution has succeeded exactly when its last event is a completion, whose answer the page
   then holds.
   */
  lemma ExecutionsFollowOneTask(steps: seq<Step>)
    ensures
      var s := Run(Initial, steps); var page := s.app.client.state;
      page.execution.Some? ==>
        Told(s.links, page.execution.value) && W.ShowsItsEvents(page.execution.value, page.messages)
  {
    Reachable(steps);
  }

  // ---------------------------------------------------------------- cancelled requests

  lemma StepKeepsShown(s: System, step: Step, e: W.Execution)
    requires Invariant(s) && W.ShownOrGone(s.app.client, e) && e.status != W.Running
    ensures W.ShownOrGone(Next(s, step).app.client, e)
  {
    match step
    case PageMoves(move) => W.ShownStays(s.app, move, e);
    case EventArrives(i) =>
      if CanDeliver(s, i) {
        Arrived(s, i);
        W.ShownStays(s.app, W.Receives(i, NextEvent(s, i)), e);
      }
    case _ =>
  }

  lemma {:induction false} RunKeepsShown(s: System, steps: seq<Step>, e: W.Execution)
    requires Invariant(s) && W.ShownOrGone(s.app.client, e) && e.status != W.Running
    ensures W.ShownOrGone(Run(s, steps).app.client, e)
    decreases |steps|
  {
    if steps != [] {
      StepKeepsShown(s, steps[0], e);
      NextKeepsInvariant(s, steps[0]);
      RunKeepsShown(Next(s, steps[0]), steps[1..], e);
    }
  }

  /** The next event reports the failure of the page's agent request. */
  ghost predicate FailureIsNext(s: System, i: nat) {
    AboutToRecord(s, i) && NextEvent(s, i).AgentEvent? && NextEvent(s, i).kind.ExecutionFailed?
  }

  /**
   In every run, cancelled or not: a failure event of the active agent request makes its execution
   show as failed, and failed it stays, unchanged, for as long as the page shows it, whatever
   follows, the acknowledgement of a cancellation included.
   */
  lemma CancelledAgentShowsFailed(steps: seq<Step>, i: nat, more: seq<Step>)
    requires FailureIsNext(Run(Initial, steps), i)
    ensures
      var s := Run(Initial, steps); var n := Next(s, EventArrives(i));
      && n.app.client.state.execution.Some?
      && var e := n.app.client.state.execution.value;
         && e.request == NextEvent(s, i).request && e.status == W.Failed
         && W.ShownOrGone(Run(n, more).app.client, e)
  {
    var s := Run(Initial, steps);
    var n := Next(s, EventArrives(i));
    Reachable(steps);
    NextKeepsAgent(s, EventArrives(i));
    FailureShows(s, i);
    RunKeepsShown(n, more, n.app.client.state.execution.value);
  }

  lemma FailureShows(s: System, i: nat)
    requires AgentInvariant(s) && FailureIsNext(s, i) && AgentInvariant(Deliver(s, i))
    ensures
      var d := Deliver(s, i).app.client;
      && d.state.execution.Some? && d.state.execution.value.request == NextEvent(s, i).request
      && d.state.execution.value.status == W.Failed && d.state.active.None?
  {
    EventRecorded(s, i);
    AboutNext(s.links[i].conn.sent, s.links[i].delivered, NextEvent(s, i).request);
    AppendNote(HeardAbout(s.links[i], NextEvent(s, i).request), NextEvent(s, i));
    Arrived(s, i);
  }

  /** The next event acknowledges the cancellation of agent task t, whose request is still active on the page. */
  ghost predicate AckIsNext(s: System, i: nat, t: nat) {
    && CanDeliver(s, i) && t < |s.links[i].conn.tasks| && s.links[i].conn.tasks[t].kind == S.AgentTask
    && s.links[i].conn.sent[s.links[i].delivered].author == S.About(t)
    && s.app.client.state.active == Some(s.links[i].conn.tasks[t].request)
  }

  /**
   In every run, a cancelled agent request shows as aborted only if its task has said nothing that
   ends it, no failure and no error: when the acknowledgement finds the request still active, all
   the task ever said is on the page.
   */
  lemma AbortedMeansNoReport(steps: seq<Step>, i: nat, t: nat)
    requires AckIsNext(Run(Initial, steps), i, t)
    ensures
      var s := Run(Initial, steps); var task := s.links[i].conn.tasks[t];
      var page := Next(s, EventArrives(i)).app.client.state;
      && page.execution.Some? && page.execution.value.request == task.request
      && page.execution.value.status == W.Aborted
      && (forall event <- task.log :: InProgress(event))
      && page.execution.value.events == Notes(task.log)
  {
    var s := Run(Initial, steps);
    Reachable(steps);
    AckIsAbout(s, i, t);
    AckHeard(s, i, t);
    EndRecorded(s, i);
  }

  /** All a cancelled task ever said has been heard when its acknowledgement comes. */
  lemma AckHeard(s: System, i: nat, t: nat)
    requires AgentInvariant(s) && AckIsNext(s, i, t) && AboutToRecord(s, i)
    requires NextEvent(s, i).request == s.links[i].conn.tasks[t].request
    ensures
      var task := s.links[i].conn.tasks[t];
      HeardAbout(s.links[i], task.request) == task.log && Followed(s.app.client.state.execution.value, task.log)
  {
    var l := s.links[i];
    assert l in s.links && LinkInvariant(l, s.app.service.sockets[i].sent);
    S.SaidBeforeAck(l.conn, l.delivered, t);
    assert Wire.SentOnce(s.app.service, WorkspaceId(NextEvent(s, i).request.number));
    OnlySpeaker(s.app.service, i, l, l.delivered, l.conn.tasks[t].request, t);
  }

  lemma AckIsAbout(s: System, i: nat, t: nat)
    requires Invariant(s) && AckIsNext(s, i, t)
    ensures AboutToRecord(s, i) && NextEvent(s, i) == Cancelled(s.links[i].conn.tasks[t].request)
  {
    var l, log := s.links[i], s.app.service.sockets[i].sent;
    assert LinkInvariant(l, log) && S.AuthorFits(l.conn, l.conn.sent[l.delivered]);
    assert OriginFits(l, log, t) && Wire.At(s.app.service, i, l.origins[t]);
    assert Wire.Submits(Wire.MessageAt(s.app.service, i, l.origins[t]), l.conn.tasks[t].request);
  }
}
