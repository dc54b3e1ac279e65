/** The desktop app: the fields that `App::apply` and `App::handle_engine_event` update in place. */
module DesktopApp {
  import opened NinoxTypes
  import opened Sorting
  import opened AppModel

  class App {
    var orchestrators: seq<Orchestrator>
    var sessions: map<SessionId, Session>
    var terminals: map<SessionId, Terminal>
    var clients: map<SessionId, nat>
    var diffs: map<SessionId, Option<string>>
    var unread: map<SessionId, nat>
    var view: View
    var workerPanel: Panel
    var reattachAttempted: set<SessionId>
    var nextGeneration: nat
    var prs: map<PrId, Pr>
    var ciStatus: map<PrId, string>
    var reviewThreads: map<PrId, seq<Comment>>
    var commentEditors: map<int, string>
    var notifications: seq<Notification>
    ghost var reattaches: seq<SessionId>
    ghost var transcripts: map<ClientId, Bytes>

    ghost function CoreState(): Core
      reads this
    {
      Core(orchestrators, sessions, clients, diffs, unread, view, workerPanel, reattachAttempted, nextGeneration,
           reattaches, prs, ciStatus, reviewThreads, commentEditors, notifications)
    }

    ghost function State(): AppState
      reads this
    {
      AppState(CoreState(), terminals, transcripts)
    }

    constructor ()
      ensures State() == EMPTY
    {
      orchestrators, sessions, terminals, clients, diffs, unread := [], map[], map[], map[], map[], map[];
      view, workerPanel := FleetBoard(None), SplitPanel;
      reattachAttempted, nextGeneration, reattaches, transcripts := {}, 0, [], map[];
      prs, ciStatus, reviewThreads, commentEditors, notifications := map[], map[], map[], map[], [];
    }

    /** The threads of a starting app, from the comments the store lists. */
    method LoadComments(db: seq<Comment>)
      modifies this`reviewThreads, this`commentEditors
      ensures reviewThreads == LoadedThreads(db) && commentEditors == LoadedEditors(db)
    {
      reviewThreads, commentEditors := map[], map[];
      for i := 0 to |db|
        invariant reviewThreads == LoadedThreads(db[..i]) && commentEditors == LoadedEditors(db[..i])
      {
        assert db[..i + 1][..i] == db[..i];
        var c := db[i];
        commentEditors := commentEditors[c.id := c.body];
        var thread := if c.prId in reviewThreads then reviewThreads[c.prId] else [];
        reviewThreads := reviewThreads[c.prId := thread + [c]];
      }
      assert db[..|db|] == db;
    }

    method HandleEngineEvent(e: Event)
      modifies this
      ensures State() == HandleEvent(old(State()), e)
    {
      if e.ClientOutput? {
        FeedOutput(e.sid, e.generation, e.bytes);
      } else if e.SessionDone? {
        MarkDone(e.sid);
      } else if e.ClientClosed? {
        MinusNothing(terminals);
        CloseClient(e.sid, e.generation);
      } else {
        RecordsTouchNoEmulator(State(), e);
        HandleRecord(e);
      }
    }

    /** The events that concern no emulator. */
    method HandleRecord(e: Event)
      requires !e.SessionDone? && !e.ClientOutput? && !e.ClientClosed?
      modifies this`orchestrators, this`sessions, this`unread, this`prs, this`ciStatus, this`reviewThreads,
               this`commentEditors, this`notifications
      ensures CoreState() == HandleCore(old(CoreState()), e)
    {
      match e {
        case OrchestratorSpawned(o) =>
          if !KnowsOrchestrator(orchestrators, o.id) {
            orchestrators := orchestrators + [o];
          }
        case OrchestratorRemoved(id) => ForgetOrchestrator(id);
        case SessionSpawned(s) =>
          sessions := sessions[s.id := s];
        case SessionUpdated(s, fields) =>
          if s.id in sessions {
            sessions := sessions[s.id := MergeFrom(sessions[s.id], s, fields)];
          } else {
            sessions := sessions[s.id := s];
          }
        case CiUpdated(prId, ci) =>
          ciStatus := ciStatus[prId := ci];
        case PrOpened(sid, pr) => LinkPr(sid, pr);
        case ExtraPrDetected(pr) =>
          prs := prs[pr.id := pr];
        case ReviewComment(prId, c) => AddReviewComment(prId, c);
        case Notified(n) => Notify(n);
        case MessagesDelivered(sid, count) => CountUnread(sid, count);
        case _ =>
      }
    }

    method FeedOutput(sid: SessionId, g: nat, bytes: Bytes)
      modifies this`terminals, this`transcripts
      ensures State() == HandleOutput(old(State()), sid, g, bytes)
    {
      if sid in clients && clients[sid] == g && sid in terminals {
        transcripts := transcripts[ClientId(sid, g) := State().Transcript(ClientId(sid, g)) + bytes];
        terminals := terminals[sid := terminals[sid].(log := terminals[sid].log + bytes)];
      }
    }

    method CountUnread(sid: SessionId, count: nat)
      modifies this`unread
      ensures CoreState() == HandleCore(old(CoreState()), MessagesDelivered(sid, count))
    {
      if !(view.SessionDetail? && view.sid == sid) {
        unread := unread[sid := (if sid in unread then unread[sid] else 0) + count];
      }
    }

    method ForgetOrchestrator(id: SessionId)
      modifies this`orchestrators, this`unread, this`sessions
      ensures CoreState() == OrchestratorGone(old(CoreState()), id)
    {
      orchestrators := WithoutOrchestrator(orchestrators, id);
      unread := unread - ({id} + WorkersOf(sessions, id));
      sessions := sessions - WorkersOf(sessions, id);
    }

    method MarkDone(sid: SessionId)
      modifies this`sessions, this`unread, this`terminals, this`clients, this`diffs
      ensures CoreState() == FinishSession(old(CoreState()), sid) && terminals == old(terminals) - {sid}
    {
      if sid in sessions {
        sessions := sessions[sid := sessions[sid].(status := Done)];
      }
      unread := unread - {sid};
      terminals := terminals - {sid};
      clients := clients - {sid};
      diffs := diffs - {sid};
    }

    method LinkPr(sid: SessionId, pr: Pr)
      modifies this`sessions, this`prs
      ensures CoreState() == HandleCore(old(CoreState()), PrOpened(sid, pr))
    {
      if sid in sessions {
        sessions := sessions[sid := sessions[sid].(prNumber := Some(pr.number), prId := Some(pr.id))];
      }
      prs := prs[pr.id := pr];
    }

    method Notify(n: Notification)
      modifies this`notifications
      ensures notifications == PushNotification(old(notifications), n)
    {
      notifications := notifications + [n];
      if |notifications| > MAX_NOTIFICATIONS {
        notifications := notifications[1..];
      }
    }

    method CloseClient(sid: SessionId, g: nat)
      modifies this`clients, this`terminals, this`diffs, this`reattachAttempted, this`reattaches
      ensures var c := old(CoreState());
              CoreState() == if c.Current(sid, g) then ReattachOnce(AppModel.Detach(c, sid), sid) else c
      ensures terminals == if old(CoreState()).Current(sid, g) then old(terminals) - {sid} else old(terminals)
    {
      if sid !in clients || clients[sid] != g {
        return;
      }
      var viewing := view.SessionDetail? && view.sid == sid;
      DetachView(sid);
      if viewing && sid !in reattachAttempted {
        reattachAttempted := reattachAttempted + {sid};
        reattaches := reattaches + [sid];
      }
    }

    method AddReviewComment(prId: PrId, c: Comment)
      modifies this`reviewThreads, this`commentEditors
      ensures CoreState() == HandleComment(old(CoreState()), prId, c)
    {
      var thread := if prId in reviewThreads then reviewThreads[prId] else [];
      if !HasComment(thread, c.id) {
        commentEditors := commentEditors[c.id := c.body];
        thread := StableSort(CommentKey, thread + [c]);
      }
      reviewThreads := reviewThreads[prId := thread];
    }

    /** One message that carries several events, as a coalesced flush does. */
    method HandleBatch(es: seq<Event>)
      modifies this
      ensures State() == HandleEvents(old(State()), es)
    {
      var i := 0;
      while i < |es|
        invariant 0 <= i <= |es|
        invariant HandleEvents(State(), es[i..]) == HandleEvents(old(State()), es)
      {
        HandleEngineEvent(es[i]);
        assert es[i..][1..] == es[i + 1..];
        i := i + 1;
      }
    }

    method PollStore(db: seq<Session>, dbOrchs: seq<Orchestrator>)
      modifies this`orchestrators, this`sessions, this`terminals, this`diffs
      ensures CoreState() == AppModel.Poll(old(CoreState()), db, dbOrchs)
      ensures terminals == old(terminals) - Gone(old(CoreState()), db, dbOrchs)
    {
      MirrorOrchestrators(dbOrchs);
      var gone := Vanished(sessions, db, orchestrators);
      sessions, terminals, diffs := sessions - gone, terminals - gone, diffs - gone;
      MirrorSessions(db);
      if view.SessionDetail? && view.panel.DiffPanel? {
        RefreshDiffOf(view.sid);
      }
    }

    method MirrorOrchestrators(dbOrchs: seq<Orchestrator>)
      modifies this`orchestrators
      ensures orchestrators == AddOrchestrators(old(orchestrators), dbOrchs)
    {
      var i := 0;
      while i < |dbOrchs|
        invariant 0 <= i <= |dbOrchs|
        invariant AddOrchestrators(orchestrators, dbOrchs[i..]) == AddOrchestrators(old(orchestrators), dbOrchs)
      {
        assert dbOrchs[i..][1..] == dbOrchs[i + 1..];
        if !KnowsOrchestrator(orchestrators, dbOrchs[i].id) {
          orchestrators := orchestrators + [dbOrchs[i]];
        }
        i := i + 1;
      }
    }

    method MirrorSessions(db: seq<Session>)
      modifies this`sessions
      ensures sessions == AdoptSessions(old(sessions), db)
    {
      var i := 0;
      while i < |db|
        invariant 0 <= i <= |db|
        invariant AdoptSessions(sessions, db[i..]) == AdoptSessions(old(sessions), db)
      {
        assert db[i..][1..] == db[i + 1..];
        var s := db[i];
        if s.id !in sessions || AdoptsTerminalStatus(sessions[s.id].status, s.status) {
          sessions := sessions[s.id := s];
        }
        i := i + 1;
      }
    }

    method RefreshDiffOf(sid: SessionId)
      modifies this`diffs
      ensures CoreState() == EnsureDiff(old(CoreState()), sid)
    {
      if !(sid in sessions && sessions[sid].workspacePath.Some?) {
        diffs := diffs[sid := None];
      }
    }

    method AttachClient(sid: SessionId, tail: Option<Bytes>, spawnSucceeds: bool)
      modifies this
      ensures State() == Attach(old(State()), sid, tail, spawnSucceeds)
    {
      if !(view.SessionDetail? && view.sid == sid) || sid in clients {
        return;
      }
      var generation := nextGeneration;
      nextGeneration := nextGeneration + 1;
      if spawnSucceeds {
        terminals := terminals[sid := Terminal(if tail.Some? then tail.value else [], [], [])];
        clients := clients[sid := generation];
      }
    }

    method Show(sid: SessionId)
      modifies this`view, this`unread, this`clients, this`reattachAttempted, this`terminals, this`diffs
      ensures CoreState() == Navigate(old(CoreState()), sid) && terminals == old(terminals) - {sid}
    {
      OpenView(sid);
      terminals := terminals - {sid};
      if workerPanel.DiffPanel? {
        RefreshDiffOf(sid);
      }
    }

    /** Drops every client but the one of `sid`, forgives earlier reattaches, then drops that one too. */
    method OpenView(sid: SessionId)
      modifies this`view, this`unread, this`clients, this`reattachAttempted
      ensures CoreState() == Open(old(CoreState()), sid)
    {
      view := SessionDetail(sid, workerPanel);
      unread := unread - {sid};
      clients := Retain(clients, {sid});
      reattachAttempted := {};
      clients := clients - {sid};
      assert clients == map[];
    }

    method RemoveOrchestratorAndWorkers(id: SessionId)
      modifies this`view, this`orchestrators, this`sessions, this`terminals, this`diffs, this`clients
      ensures CoreState() == DropOrchestrator(old(CoreState()), id) && terminals == old(terminals) - {id}
    {
      LeaveOrchestrator(id);
      ForgetFleet(id);
      terminals := terminals - {id};
      ForgetUnknown(id);
    }

    method LeaveOrchestrator(id: SessionId)
      modifies this`view
      ensures CoreState() == LeaveView(old(CoreState()), id)
    {
      if (view.SessionDetail? && view.sid == id) || view == FleetBoard(Some(id)) {
        view := FleetBoard(None);
      }
    }

    method ForgetFleet(id: SessionId)
      modifies this`orchestrators, this`sessions
      ensures CoreState() == DropFleet(old(CoreState()), id)
    {
      orchestrators := WithoutOrchestrator(orchestrators, id);
      sessions := sessions - ({id} + WorkersOf(sessions, id));
    }

    method ForgetUnknown(id: SessionId)
      modifies this`clients, this`diffs
      ensures CoreState() == KeepKnown(old(CoreState()), id)
    {
      diffs := diffs - {id};
      clients := Retain(clients, sessions.Keys);
      diffs := Retain(diffs, sessions.Keys);
    }

    method ShowPanel(panel: Panel)
      modifies this`view, this`workerPanel, this`diffs
      ensures CoreState() == SwitchPanel(old(CoreState()), panel)
    {
      if view.SessionDetail? {
        var sid := view.sid;
        view, workerPanel := SessionDetail(sid, panel), panel;
        if panel.DiffPanel? {
          RefreshDiffOf(sid);
        }
      }
    }

    method DetachView(sid: SessionId)
      modifies this`clients, this`terminals, this`diffs
      ensures CoreState() == AppModel.Detach(old(CoreState()), sid) && terminals == old(terminals) - {sid}
    {
      clients := clients - {sid};
      terminals := terminals - {sid};
      diffs := diffs - {sid};
    }

    method ForgetSession(sid: SessionId)
      modifies this`view, this`sessions, this`clients, this`terminals, this`diffs
      ensures CoreState() == DropSession(old(CoreState()), sid) && terminals == old(terminals) - {sid}
    {
      if view.SessionDetail? && view.sid == sid {
        view := FleetBoard(None);
      }
      sessions := sessions - {sid};
      DetachView(sid);
    }

    method Discard(sid: SessionId, startedAt: int)
      modifies this`sessions, this`clients, this`terminals, this`diffs
      ensures CoreState() == ApplyCore(old(CoreState()), DiscardFailedSpawn(sid, startedAt))
      ensures terminals == if IsFailedSpawn(old(CoreState()), sid, startedAt) then old(terminals) - {sid}
              else old(terminals)
    {
      if sid in sessions && sessions[sid].startedAt == startedAt {
        sessions := sessions - {sid};
        DetachView(sid);
      }
    }

    /** What is meant for an attached client reaches its emulator only while it is the one on record. */
    method TouchEmulator(m: Message)
      requires m.RecoverTerminalOutput? || m.HistoryFetched?
      modifies this`terminals
      ensures State() == Apply(old(State()), m)
    {
      if !(m.sid in clients && clients[m.sid] == m.generation && m.sid in terminals) {
        return;
      }
      var terminal := terminals[m.sid];
      if m.RecoverTerminalOutput? {
        terminals := terminals[m.sid := terminal.(recoveries := terminal.recoveries + [m.token])];
      } else {
        terminals := terminals[m.sid := terminal.(pages := terminal.pages + [m.page])];
      }
    }

    /** The messages that switch to a view without sessions; Brain and Settings leave the clients attached. */
    method LeaveSessions(m: Message)
      requires m.NavigateFleet? || m.NavigatePrList? || m.NavigateWorkers? || m.NavigateBrain? || m.NavigateSettings?
      modifies this`view, this`clients
      ensures CoreState() == ApplyCore(old(CoreState()), m)
    {
      if m.NavigateBrain? || m.NavigateSettings? {
        view := if m.NavigateBrain? then Brain else Settings;
        return;
      }
      view := if m.NavigateFleet? then FleetBoard(m.scope) else if m.NavigatePrList? then PrList else Workers;
      clients := map[];
    }

    /** The messages that only change what is on screen. */
    method ApplyNavigation(m: Message)
      requires OnlyNavigates(m)
      modifies this`view, this`workerPanel, this`sessions, this`clients, this`diffs
      ensures CoreState() == ApplyCore(old(CoreState()), m)
    {
      if m.SwitchDetailPanel? {
        ShowPanel(m.panel);
      } else if m.ShowSpawned? {
        sessions, view := sessions[m.session.id := m.session], SessionDetail(m.session.id, TerminalPanel);
      } else if m.DiffFetched? {
        diffs := diffs[m.sid := m.diff];
      } else {
        LeaveSessions(m);
      }
    }

    method ApplyPlain(m: Message)
      requires IsPlain(m)
      modifies this
      ensures CoreState() == ApplyCore(old(CoreState()), m)
      ensures terminals == old(terminals) - RemovedBy(old(CoreState()), m) && transcripts == old(transcripts)
    {
      MinusNothing(terminals);
      if OnlyNavigates(m) {
        ApplyNavigation(m);
        return;
      }
      match m {
        case NavigateSession(sid) => Show(sid);
        case DetachForRespawn(sid) => DetachView(sid);
        case RemoveOrchestrator(id) => RemoveOrchestratorAndWorkers(id);
        case RemoveSession(sid) => ForgetSession(sid);
        case DiscardFailedSpawn(sid, startedAt) => Discard(sid, startedAt);
        case PollSessions(db, dbOrchs) => PollStore(db, dbOrchs);
        case _ =>
      }
    }

    method ApplyMessage(m: Message)
      modifies this
      ensures State() == Apply(old(State()), m)
    {
      if m.EngineEvent? {
        HandleEngineEvent(m.event);
      } else if m.EngineEvents? {
        HandleBatch(m.events);
      } else if m.ClientAttach? {
        AttachClient(m.sid, m.initialTail, m.spawnSucceeds);
      } else if m.RecoverTerminalOutput? || m.HistoryFetched? {
        TouchEmulator(m);
      } else {
        ApplyPlainly(State(), m);
        ApplyPlain(m);
      }
    }
  }
}
