/** What the user's messages and the store's polls leave on screen and in memory, said field by field. */
module AppMessages {
  import opened NinoxTypes
  import opened Sorting
  import opened AppModel
  import opened AppEffects
  import opened Polling

  // ---------------------------------------------------------------- what is on screen

  /** Only what is named here changes: the rest of `after` is `before`. */
  predicate OnlyViewAndClients(before: AppState, after: AppState) {
    after == before.(core := before.core.(view := after.core.view, clients := after.core.clients))
  }

  /** The board, the pull requests and the workers drop all clients; Brain and Settings leave them attached. No emulator
      goes. */
  lemma LeavingSessions(st: AppState, m: Message)
    requires m.NavigateFleet? || m.NavigatePrList? || m.NavigateWorkers? || m.NavigateBrain? || m.NavigateSettings?
    ensures var after := Apply(st, m);
            OnlyViewAndClients(st, after)
            && after.core.clients == (if m.NavigateBrain? || m.NavigateSettings? then st.core.clients else map[])
            && after.core.view == if m.NavigateFleet? then FleetBoard(m.scope) else if m.NavigatePrList? then PrList
                                  else if m.NavigateWorkers? then Workers else if m.NavigateBrain? then Brain
                                  else Settings
  {
    MinusNothing(st.terminals);
  }

  predicate HasWorkspace(c: Core, sid: SessionId) {
    sid in c.sessions && c.sessions[sid].workspacePath.Some?
  }

  /** The diff of a session that comes on screen: nothing to show if it has no workspace, and else as it was. */
  predicate DiffOnScreen(before: Core, after: Core, sid: SessionId, shown: bool) {
    after.diffs == if shown && !HasWorkspace(before, sid) then before.diffs[sid := None] else before.diffs
  }

  lemma EnsuringChangesDiffs(c: Core, sid: SessionId)
    ensures EnsureDiff(c, sid) == c.(diffs := EnsureDiff(c, sid).diffs)
    ensures DiffOnScreen(c, EnsureDiff(c, sid), sid, true)
  {
  }

  lemma OpenedCore(c: Core, sid: SessionId)
    ensures var after := Navigate(c, sid);
            after == Open(c, sid).(diffs := after.diffs) && DiffOnScreen(c, after, sid, c.workerPanel == DiffPanel)
  {
    EnsuringChangesDiffs(Open(c, sid), sid);
  }

  /** Opening a session shows it in the panel chosen last, marks it read, leaves no client, drops its emulator and
      forgives earlier reattaches. */
  lemma OpeningASession(st: AppState, sid: SessionId)
    ensures var after := Apply(st, NavigateSession(sid));
            after.core == st.core.(view := SessionDetail(sid, st.core.workerPanel), clients := map[],
                                   unread := st.core.unread - {sid}, reattachAttempted := {},
                                   diffs := after.core.diffs)
            && DiffOnScreen(st.core, after.core, sid, st.core.workerPanel == DiffPanel)
            && after.terminals == st.terminals - {sid} && after.transcripts == st.transcripts
  {
    OpenedCore(st.core, sid);
  }

  /** Switching panels concerns the session on view alone, and is remembered. */
  lemma SwitchingPanels(st: AppState, panel: Panel)
    ensures var (v, after) := (st.core.view, Apply(st, SwitchDetailPanel(panel)));
            if !v.SessionDetail? then after == st
            else
              after == st.(core := st.core.(view := SessionDetail(v.sid, panel), workerPanel := panel,
                                            diffs := after.core.diffs))
              && DiffOnScreen(st.core, after.core, v.sid, panel == DiffPanel)
  {
    MinusNothing(st.terminals);
  }

  /** A spawned session comes on screen in the terminal panel with its row; nothing is detached. A fetched diff is
      kept. */
  lemma ShowingASpawn(st: AppState, session: Session, sid: SessionId, diff: Option<string>)
    ensures Apply(st, ShowSpawned(session))
            == st.(core := st.core.(view := SessionDetail(session.id, TerminalPanel),
                                    sessions := st.core.sessions[session.id := session]))
    ensures Apply(st, DiffFetched(sid, diff)) == st.(core := st.core.(diffs := st.core.diffs[sid := diff]))
  {
    MinusNothing(st.terminals);
  }

  lemma {:induction false} EventsKeepPanel(st: AppState, es: seq<Event>)
    ensures HandleEvents(st, es).core.workerPanel == st.core.workerPanel
    decreases |es|
  {
    if es != [] {
      EventsLeaveTheView(st, es[0]);
      EventsKeepPanel(HandleEvent(st, es[0]), es[1..]);
    }
  }

  lemma PlainMessagesKeepPanel(c: Core, m: Message)
    requires IsPlain(m) && !m.SwitchDetailPanel?
    ensures ApplyCore(c, m).workerPanel == c.workerPanel
  {
  }

  lemma PanelIsKept(st: AppState, m: Message)
    requires !m.SwitchDetailPanel?
    ensures Apply(st, m).core.workerPanel == st.core.workerPanel
  {
    if IsPlain(m) {
      PlainMessagesKeepPanel(st.core, m);
    } else if m.EngineEvent? {
      EventsLeaveTheView(st, m.event);
    } else if m.EngineEvents? {
      EventsKeepPanel(st, m.events);
    }
  }

  lemma {:induction false} PanelIsKeptThroughout(st: AppState, ms: seq<Message>)
    requires forall i :: 0 <= i < |ms| ==> !ms[i].SwitchDetailPanel?
    ensures ApplyAll(st, ms).core.workerPanel == st.core.workerPanel
    decreases |ms|
  {
    if ms != [] {
      PanelIsKept(st, ms[0]);
      PanelIsKeptThroughout(Apply(st, ms[0]), ms[1..]);
    }
  }

  /** The panel that the user chose for a session is the one the next session opens with, whatever happens meanwhile. */
  lemma PanelIsRemembered(st: AppState, panel: Panel, ms: seq<Message>, sid: SessionId)
    requires st.core.view.SessionDetail? && forall i :: 0 <= i < |ms| ==> !ms[i].SwitchDetailPanel?
    ensures Apply(ApplyAll(Apply(st, SwitchDetailPanel(panel)), ms), NavigateSession(sid)).core.view
            == SessionDetail(sid, panel)
  {
    SwitchingPanels(st, panel);
    PanelIsKeptThroughout(Apply(st, SwitchDetailPanel(panel)), ms);
    OpeningASession(ApplyAll(Apply(st, SwitchDetailPanel(panel)), ms), sid);
  }

  // ---------------------------------------------------------------- sessions that go

  /** The spawn that failed is still the session on record. */
  predicate StillFailed(c: Core, m: Message) {
    m.DiscardFailedSpawn? && m.sid in c.sessions && c.sessions[m.sid].startedAt == m.startedAt
  }

  /** Detaching a session takes its client, emulator and diff; removing it, or a spawn of it that failed and is still on
      record, its row as well; and a removed session leaves the screen. */
  lemma ForgettingASession(st: AppState, m: Message)
    requires m.DetachForRespawn? || m.RemoveSession? || m.DiscardFailedSpawn?
    ensures var (c, after) := (st.core, Apply(st, m));
            if m.DiscardFailedSpawn? && !StillFailed(c, m) then after == st
            else
              after == st.(terminals := st.terminals - {m.sid},
                           core := c.(clients := c.clients - {m.sid}, diffs := c.diffs - {m.sid},
                                      sessions := after.core.sessions, view := after.core.view))
              && after.core.sessions == (if m.DetachForRespawn? then c.sessions else c.sessions - {m.sid})
              && after.core.view == if m.RemoveSession? && OnScreen(c, m.sid) then FleetBoard(None) else c.view
  {
    MinusNothing(st.terminals);
  }

  /** Removing an orchestrator takes it and its own row, the rows of its workers, and the clients and diffs of all
      sessions that are then unknown; of the emulators only its own. It leaves its view and its board. */
  lemma RemovingAnOrchestrator(st: AppState, id: SessionId, o: Orchestrator)
    ensures var (c, after) := (st.core, Apply(st, RemoveOrchestrator(id)));
            after.core == c.(orchestrators := after.core.orchestrators, sessions := after.core.sessions,
                             clients := after.core.clients, diffs := after.core.diffs, view := after.core.view)
            && (o in after.core.orchestrators <==> o in c.orchestrators && o.id != id)
            && LeftView(c, id, after.core.view)
            && after.terminals == st.terminals - {id} && after.transcripts == st.transcripts
  {
    WithoutExactly(st.core.orchestrators, id, o);
    DroppedCore(st.core, id);
  }

  predicate LeftView(c: Core, id: SessionId, view: View) {
    view == if OnScreen(c, id) || c.view == FleetBoard(Some(id)) then FleetBoard(None) else c.view
  }

  lemma LeavingIsLeft(c: Core, id: SessionId)
    ensures LeftView(c, id, LeaveView(c, id).view)
  {
  }

  lemma LeavingChangesView(c: Core, id: SessionId)
    ensures LeaveView(c, id) == c.(view := LeaveView(c, id).view)
  {
    if LeaveView(c, id) != c {
      assert LeaveView(c, id) == c.(view := FleetBoard(None));
    }
  }

  lemma DroppedCore(c: Core, id: SessionId)
    ensures var after := DropOrchestrator(c, id);
            after == c.(orchestrators := WithoutOrchestrator(c.orchestrators, id), sessions := after.sessions,
                        clients := after.clients, diffs := after.diffs, view := after.view)
            && LeftView(c, id, after.view)
  {
    LeavingIsLeft(c, id);
    LeavingChangesView(c, id);
    var left := LeaveView(c, id);
    assert DropFleet(left, id).orchestrators == WithoutOrchestrator(c.orchestrators, id);
  }

  lemma RemovingTakesExactly(st: AppState, id: SessionId, sid: SessionId)
    ensures var (c, after) := (st.core, Apply(st, RemoveOrchestrator(id)).core);
            (sid in after.sessions <==> sid in c.sessions && sid != id && c.sessions[sid].orchestratorId != Some(id))
            && (sid in after.sessions ==> after.sessions[sid] == c.sessions[sid])
            && (sid in after.clients <==> sid in c.clients && sid in after.sessions)
            && (sid in after.clients ==> after.clients[sid] == c.clients[sid])
            && (sid in after.diffs <==> sid in c.diffs && sid in after.sessions)
            && (sid in after.diffs ==> after.diffs[sid] == c.diffs[sid])
  {
    assert DropOrchestrator(st.core, id) == KeepKnown(DropFleet(LeaveView(st.core, id), id), id);
  }

  // ---------------------------------------------------------------- what reaches an emulator

  /** History pages and recovery tokens reach exactly the emulator of the client on record. */
  lemma EmulatorsAreFedExactly(st: AppState, m: Message, sid: SessionId)
    requires (m.RecoverTerminalOutput? || m.HistoryFetched?) && sid in st.terminals
    ensures Apply(st, m).core == st.core && Apply(st, m).terminals.Keys == st.terminals.Keys
    ensures var (t, mine) := (st.terminals[sid],
                              m.sid == sid && sid in st.core.clients && st.core.clients[sid] == m.generation);
            Apply(st, m).terminals[sid]
            == if mine && m.RecoverTerminalOutput? then t.(recoveries := t.recoveries + [m.token])
               else if mine && m.HistoryFetched? then t.(pages := t.pages + [m.page]) else t
  {
  }

  /** An attach takes effect exactly for the session on view, if it has no client yet. If the client could be started it
      is on record under a generation never used before, and its emulator holds the tail that tmux had, or nothing; a
      generation is used up either way. */
  lemma AttachesExactly(st: AppState, sid: SessionId, tail: Option<Bytes>, ok: bool)
    ensures var after := Apply(st, ClientAttach(sid, tail, ok));
            var g := st.core.nextGeneration;
            if !OnScreen(st.core, sid) || sid in st.core.clients then after == st
            else
              after.core.nextGeneration == g + 1
              && if !ok then after.core.clients == st.core.clients && after.terminals == st.terminals
                 else after.Shown(sid, g)
                      && after.core.clients == st.core.clients[sid := g]
                      && after.terminals.Keys == st.terminals.Keys + {sid}
                      && (forall bs :: tail == Some(bs) ==> after.terminals[sid] == Terminal(bs, [], []))
                      && (tail == None ==> after.terminals[sid] == Terminal([], [], []))
                      && forall t :: t in st.terminals && t != sid ==> after.terminals[t] == st.terminals[t]
  {
  }

  // ---------------------------------------------------------------- polls

  /** A poll drops the sessions that the store no longer has and that are no orchestrator, old or new. */
  predicate PollDrops(c: Core, m: Message, sid: SessionId)
    requires m.PollSessions?
  {
    sid in c.sessions && (forall s :: s in m.dbSessions ==> s.id != sid)
    && (forall o :: o in c.orchestrators ==> o.id != sid) && (forall o :: o in m.dbOrchestrators ==> o.id != sid)
  }

  lemma AddsOne(orchs: seq<Orchestrator>, o: Orchestrator, id: SessionId)
    ensures KnowsOrchestrator(AddOrchestrator(orchs, o), id) <==> KnowsOrchestrator(orchs, id) || o.id == id
  {
    if KnowsOrchestrator(orchs, id) {
      var i :| 0 <= i < |orchs| && orchs[i].id == id;
      assert AddOrchestrator(orchs, o)[i].id == id;
    } else if o.id == id {
      assert AddOrchestrator(orchs, o)[|orchs|].id == id;
    }
  }

  lemma {:induction false} AddedOrchestratorsExactly(orchs: seq<Orchestrator>, db: seq<Orchestrator>, id: SessionId)
    ensures KnowsOrchestrator(AddOrchestrators(orchs, db), id)
       <==> KnowsOrchestrator(orchs, id) || KnowsOrchestrator(db, id)
    decreases |db|
  {
    if db != [] {
      AddedOrchestratorsExactly(AddOrchestrator(orchs, db[0]), db[1..], id);
      AddsOne(orchs, db[0], id);
      OneOrMore(db, id);
    }
  }

  lemma OneOrMore(db: seq<Orchestrator>, id: SessionId)
    requires db != []
    ensures KnowsOrchestrator(db, id) <==> db[0].id == id || KnowsOrchestrator(db[1..], id)
  {
    if KnowsOrchestrator(db, id) && db[0].id != id {
      var i :| 0 <= i < |db| && db[i].id == id;
      assert db[1..][i - 1].id == id;
    }
    if KnowsOrchestrator(db[1..], id) {
      var i :| 0 <= i < |db[1..]| && db[1..][i].id == id;
      assert db[i + 1].id == id;
    }
  }

  lemma PollDropsExactly(c: Core, m: Message, sid: SessionId)
    requires m.PollSessions?
    ensures sid in Gone(c, m.dbSessions, m.dbOrchestrators) <==> PollDrops(c, m, sid)
  {
    AddedOrchestratorsExactly(c.orchestrators, m.dbOrchestrators, sid);
    assert InStore(m.dbSessions, sid) <==> exists s :: s in m.dbSessions && s.id == sid;
    assert KnowsOrchestrator(c.orchestrators, sid) <==> exists o :: o in c.orchestrators && o.id == sid;
    assert KnowsOrchestrator(m.dbOrchestrators, sid) <==> exists o :: o in m.dbOrchestrators && o.id == sid;
  }

  lemma RefreshingChangesDiffs(c: Core)
    ensures RefreshDiff(c) == c.(diffs := RefreshDiff(c).diffs)
  {
    if c.view.SessionDetail? {
      EnsuringChangesDiffs(c, c.view.sid);
    }
  }

  lemma PolledCore(c: Core, db: seq<Session>, dbOrchs: seq<Orchestrator>)
    ensures var after := Poll(c, db, dbOrchs);
            after == c.(orchestrators := after.orchestrators, sessions := after.sessions, diffs := after.diffs)
  {
    var polled := c.(orchestrators := AddOrchestrators(c.orchestrators, dbOrchs),
                     sessions := AdoptSessions(c.sessions - Gone(c, db, dbOrchs), db),
                     diffs := c.diffs - Gone(c, db, dbOrchs));
    RefreshingChangesDiffs(polled);
  }

  /** A poll changes orchestrators, sessions and diffs alone, and takes the emulators of the sessions it drops, though
      not their clients. */
  lemma PollLeavesTheRest(st: AppState, m: Message, sid: SessionId)
    requires m.PollSessions?
    ensures var after := Apply(st, m);
            after.core == st.core.(orchestrators := after.core.orchestrators, sessions := after.core.sessions,
                                   diffs := after.core.diffs)
            && after.transcripts == st.transcripts
            && (sid in after.terminals <==> sid in st.terminals && !PollDrops(st.core, m, sid))
            && (sid in after.terminals ==> after.terminals[sid] == st.terminals[sid])
  {
    PollDropsExactly(st.core, m, sid);
    PolledCore(st.core, m.dbSessions, m.dbOrchestrators);
  }

  /** After a poll exactly the dropped sessions have lost their diffs; the diff on screen is refreshed. */
  lemma DiffsAfterPoll(st: AppState, m: Message, sid: SessionId)
    requires m.PollSessions?
    ensures var (c, after) := (st.core, Apply(st, m).core);
            var lacking := c.view.SessionDetail? && c.view.panel.DiffPanel? && c.view.sid == sid
              && !HasWorkspace(after, sid);
            (sid in after.diffs <==> lacking || (sid in c.diffs && !PollDrops(c, m, sid)))
            && (sid in after.diffs ==> after.diffs[sid] == if lacking then None else c.diffs[sid])
  {
    PollDropsExactly(st.core, m, sid);
  }

  /** A poll adds the orchestrators it does not know, each once, behind those it does. */
  lemma {:induction false} AddedBehind(orchs: seq<Orchestrator>, db: seq<Orchestrator>)
    ensures var after := AddOrchestrators(orchs, db);
            |orchs| <= |after| && after[..|orchs|] == orchs
            && (DistinctOrchestrators(orchs) ==> DistinctOrchestrators(after))
            && forall o :: o in after ==> o in orchs || o in db
    decreases |db|
  {
    if db != [] {
      AddedBehind(AddOrchestrator(orchs, db[0]), db[1..]);
      assert AddOrchestrator(orchs, db[0])[..|orchs|] == orchs;
    }
  }

  lemma OrchestratorsAfterPoll(st: AppState, m: Message, id: SessionId)
    requires m.PollSessions?
    ensures var (before, after) := (st.core.orchestrators, Apply(st, m).core.orchestrators);
            |before| <= |after| && after[..|before|] == before
            && (DistinctOrchestrators(before) ==> DistinctOrchestrators(after))
            && (forall o :: o in after ==> o in before || o in m.dbOrchestrators)
            && (KnowsOrchestrator(after, id)
                <==> KnowsOrchestrator(before, id) || KnowsOrchestrator(m.dbOrchestrators, id))
  {
    AddedBehind(st.core.orchestrators, m.dbOrchestrators);
    AddedOrchestratorsExactly(st.core.orchestrators, m.dbOrchestrators, id);
    assert Apply(st, m).core.orchestrators == AddOrchestrators(st.core.orchestrators, m.dbOrchestrators);
  }

  predicate IsFinished(status: Status) {
    status == Done || status == Terminated || status == Interrupted
  }

  /** Memory after a poll, row by row: exactly the stored sessions and the sessions that are orchestrators; a row that
      is stored is taken over if it is new or finished in another way than memory knows, and otherwise left alone. */
  lemma SessionsAfterPoll(st: AppState, m: Message, sid: SessionId)
    requires m.PollSessions? && DistinctIds(m.dbSessions)
    ensures var (before, after) := (st.core.sessions, Apply(st, m).core.sessions);
            (sid in after <==> InStore(m.dbSessions, sid) || (sid in before && !PollDrops(st.core, m, sid)))
            && (sid in after ==>
                  after[sid]
                  == if InStore(m.dbSessions, sid)
                        && (sid !in before || (IsFinished(Row(m.dbSessions, sid).status)
                                               && Row(m.dbSessions, sid).status != before[sid].status))
                     then Row(m.dbSessions, sid) else before[sid])
  {
    var gone := Gone(st.core, m.dbSessions, m.dbOrchestrators);
    PollDropsExactly(st.core, m, sid);
    AdoptedKeys(st.core.sessions - gone, m.dbSessions, sid);
    if sid in Apply(st, m).core.sessions {
      AdoptedRow(st.core.sessions - gone, m.dbSessions, sid);
    }
  }

  // ---------------------------------------------------------------- events as messages

  function Singly(es: seq<Event>): seq<Message> {
    if es == [] then [] else [EngineEvent(es[0])] + Singly(es[1..])
  }

  /** A batch does what its events do one by one, and an event that arrives alone what the handler does with it. */
  lemma {:induction false} BatchesAreTheirEvents(st: AppState, es: seq<Event>)
    ensures Apply(st, EngineEvents(es)) == ApplyAll(st, Singly(es))
    ensures es != [] ==> Apply(st, EngineEvent(es[0])) == HandleEvent(st, es[0])
    decreases |es|
  {
    if es != [] {
      BatchesAreTheirEvents(HandleEvent(st, es[0]), es[1..]);
      assert Singly(es)[0] == EngineEvent(es[0]) && Singly(es)[1..] == Singly(es[1..]);
    }
  }
}
